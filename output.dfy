/**
 * The formatter's output calls (`success`, `error`, `info`, `table`) and a
 * parser's `print_help`, as events appended to one sink, and the outcome of
 * a handler: what it emitted and what, if anything, it raised.
 */
module Output {
  import opened Python
  import opened ArgParse

  datatype Event =
    | Success(message: string)
    | Error(message: string)
    | Info(message: string)
    | Table(title: string, columns: seq<string>, rows: seq<seq<string>>)
    | Usage(schema: Schema)     // the help text of a parser built from `schema`

  /** The events a call emitted, in order, and the exception it ended with, if any. */
  datatype Outcome = Outcome(events: seq<Event>, raised: Option<Exc>)

  function TableCount(events: seq<Event>): (n: nat)
    ensures n <= |events|
    decreases |events|
  {
    if events == [] then 0
    else (if events[0].Table? then 1 else 0) + TableCount(events[1..])
  }

  lemma {:induction false} TableCountAppend(a: seq<Event>, b: seq<Event>)
    ensures TableCount(a + b) == TableCount(a) + TableCount(b)
    decreases |a|
  {
    if a == [] {
      assert a + b == b;
    } else {
      assert (a + b)[1..] == a[1..] + b;
      TableCountAppend(a[1..], b);
    }
  }

  /** Regrouping appended output; a step the method proofs that emit in stages call explicitly. */
  lemma AppendAssociative(a: seq<Event>, b: seq<Event>, c: seq<Event>)
    ensures (a + b) + c == a + (b + c)
  {
  }

  /** The console: everything emitted so far. */
  class Sink {
    var events: seq<Event>

    constructor ()
      ensures events == []
    {
      events := [];
    }

    method Emit(e: Event)
      modifies this
      ensures events == old(events) + [e]
    {
      events := events + [e];
    }

    method EmitAll(es: seq<Event>)
      modifies this
      ensures events == old(events) + es
    {
      events := events + es;
    }
  }
}
