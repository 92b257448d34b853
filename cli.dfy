/**
 * mycliapp/cli.py: the interactive shell. Tab completion is a prefix filter
 * over fixed option lists; each `do_*` method routes its argument line to a
 * handler, reports a CommandError as one error message and lets every other
 * exception escape; only `do_exit` asks the loop to stop.
 */
module Cli {
  import opened Python
  import opened ArgParse
  import opened Output
  import opened AppSettings
  import Account

  /** How a `do_*` call ends for cmd.Cmd: None (go on), True (stop), or an escaping exception. */
  datatype Step = Continue | Stop | Escape(exc: Exc)

  /** `shlex.split(s)`: the words, or the ValueError it raises on an unclosed quote. */
  datatype Split = Words(words: seq<string>) | SplitFailed

  const ShlexError := Builtin("ValueError")

  // ------------------------------------------------------------ completion

  /** `r` lists elements of `s` in the order they occur there. */
  predicate IsSubsequence(r: seq<string>, s: seq<string>)
    decreases |s|
  {
    r == [] || (s != [] && if r[0] == s[0] then IsSubsequence(r[1..], s[1..]) else IsSubsequence(r, s[1..]))
  }

  /** `[opt for opt in options if opt.startswith(text)]` */
  function PrefixMatches(options: seq<string>, text: string): (r: seq<string>)
    ensures forall o :: o in r <==> o in options && StartsWith(o, text)
    ensures IsSubsequence(r, options)
    decreases |options|
  {
    if options == [] then []
    else
      var rest := PrefixMatches(options[1..], text);
      if StartsWith(options[0], text) then
        assert ([options[0]] + rest)[1..] == rest;
        [options[0]] + rest
      else
        assert rest != [] ==> rest[0] in rest;
        rest
  }

  /** Every option starts with the empty text, so it keeps them all. */
  lemma {:induction false} PrefixMatchesEmpty(options: seq<string>)
    ensures PrefixMatches(options, "") == options
    decreases |options|
  {
    if options != [] {
      assert StartsWith(options[0], "");
      PrefixMatchesEmpty(options[1..]);
    }
  }

  const AddMoneyOptions: seq<string> := ["-account", "-amount"]
  const TransferOptions: seq<string> := ["-from", "-to", "-amount", "--note"]

  /** Python's `line[:end]` */
  function Prefix(line: string, end: int): (r: string)
    ensures |r| <= |line| && r == line[..|r|]
  {
    if end >= |line| then line
    else if end >= 0 then line[..end]
    else if |line| + end > 0 then line[..|line| + end]
    else ""
  }

  /** What `completenames` gives: the suggestions, and whether it printed the command listing. */
  datatype Completion = Completion(suggestions: seq<string>, listedCommands: bool)

  // -------------------------------------------------------- line routing

  /** What a `do_*` call emitted and how it ended. */
  datatype Reported = Reported(events: seq<Event>, step: Step)

  /** `try: <handler> except CommandError as e: error(f"{e}")` */
  function CatchCommandError(o: Outcome): (r: Reported)
    ensures r.step != Stop
    ensures r.step.Escape? <==> o.raised.Some? && !o.raised.value.CommandError?
    ensures r.step.Escape? ==> r.step.exc == o.raised.value && r.events == o.events
    ensures o.raised.None? ==> r == Reported(o.events, Continue)
    ensures o.raised.Some? && o.raised.value.CommandError? ==>
              r == Reported(o.events + [Error(o.raised.value.message)], Continue)
  {
    match o.raised
    case Some(CommandError(message)) => Reported(o.events + [Error(message)], Continue)
    case Some(e) => Reported(o.events, Escape(e))
    case None => Reported(o.events, Continue)
  }

  /** `do_listaccounts(arg)`: the raw line goes to `list_accounts`, unsplit. */
  function ListAccountsLine(settings: SettingsValue, arg: string): (r: Reported)
    ensures r.step == Continue && |r.events| == 1 && r.events[0].Table?
  {
    CatchCommandError(Account.ListAccounts(settings, arg))
  }

  /**
   * `do_addmoney`, for every line: it escapes only when the line cannot be
   * split or argparse exits on a help request; otherwise it goes on after
   * exactly one message, a success exactly when the arguments parsed.
   */
  function AddMoneyLine(arg: string, split: string -> Split, parse: seq<string> -> ParseResult<Account.AddArgs>): (r: Reported)
    ensures r.step != Stop
    ensures r.step.Escape? <==> split(arg).SplitFailed? ||
                                (parse(split(arg).words).Exit? && HelpRequested(split(arg).words))
    ensures r.step.Escape? ==> r.events == []
    ensures r.step == Continue ==>
              |r.events| == 1 && (r.events[0].Success? <==> parse(split(arg).words).Parsed?) &&
              (!r.events[0].Success? ==> r.events[0].Error?)
  {
    match split(arg)
    case SplitFailed => Reported([], Escape(ShlexError))
    case Words(words) => CatchCommandError(Account.AddMoney(words, parse))
  }

  /**
   * `do_transfer`, for every line: as for `do_addmoney`, except that a
   * successful transfer shows one more message, the note, when a non-empty
   * note was given.
   */
  function TransferLine(arg: string, split: string -> Split, parse: seq<string> -> ParseResult<Account.TransferArgs>): (r: Reported)
    ensures r.step != Stop
    ensures r.step.Escape? <==> split(arg).SplitFailed? ||
                                (parse(split(arg).words).Exit? && HelpRequested(split(arg).words))
    ensures r.step.Escape? ==> r.events == []
    ensures r.step == Continue && !parse(split(arg).words).Parsed? ==> |r.events| == 1 && r.events[0].Error?
    ensures r.step == Continue && parse(split(arg).words).Parsed? ==>
              var note := parse(split(arg).words).record.note;
              |r.events| == (if note.Some? && note.value != "" then 2 else 1) && r.events[0].Success?
  {
    match split(arg)
    case SplitFailed => Reported([], Escape(ShlexError))
    case Words(words) => CatchCommandError(Account.TransferFunds(words, parse))
  }

  // -------------------------------------------------------------- the shell

  class InteractiveShell {
    const settings: Settings
    const sink: Sink
    /** The keys of `self.commands`, in insertion order. */
    const commands: seq<string> := ["listaccounts", "addmoney", "transfer"]

    /** `InteractiveShell(settings)`: the given settings, or fresh defaults when there are none. */
    constructor (settings: Settings?, sink: Sink)
      ensures settings != null ==> this.settings == settings
      ensures settings == null ==> fresh(this.settings) && this.settings.Value() == Defaults
      ensures this.sink == sink
    {
      if settings == null {
        this.settings := new Settings();
      } else {
        this.settings := settings;
      }
      this.sink := sink;
    }

    /** `default(line)`: an unknown command is reported once and the shell goes on. */
    method Default(line: string) returns (step: Step)
      modifies sink
      ensures sink.events == old(sink.events) + [Error("Unknown command: " + line)]
      ensures step == Continue
    {
      sink.Emit(Error("Unknown command: " + line));
      step := Continue;
    }

    /** `do_exit(arg)`: the only command that stops the loop. */
    method DoExit(arg: string) returns (step: Step)
      ensures step == Stop
    {
      step := Stop;
    }

    method DoListAccounts(arg: string) returns (step: Step)
      modifies sink
      ensures var r := ListAccountsLine(old(settings.Value()), arg);
              sink.events == old(sink.events) + r.events && step == r.step
    {
      var listed := Account.ListAccounts(settings.Value(), arg);
      var r := CatchCommandError(listed);
      sink.EmitAll(r.events);
      step := r.step;
    }

    method DoAddMoney(arg: string, split: string -> Split, parse: seq<string> -> ParseResult<Account.AddArgs>)
      returns (step: Step)
      modifies sink
      ensures var r := AddMoneyLine(arg, split, parse);
              sink.events == old(sink.events) + r.events && step == r.step
    {
      match split(arg) {
        case SplitFailed =>
          step := Escape(ShlexError);
        case Words(words) =>
          var r := CatchCommandError(Account.AddMoney(words, parse));
          sink.EmitAll(r.events);
          step := r.step;
      }
    }

    /** `help_addmoney()`: the help text of a fresh addmoney parser. */
    method HelpAddMoney()
      modifies sink
      ensures sink.events == old(sink.events) + [Usage(Account.GetAddParser())]
    {
      sink.Emit(Usage(Account.GetAddParser()));
    }

    method DoTransfer(arg: string, split: string -> Split, parse: seq<string> -> ParseResult<Account.TransferArgs>)
      returns (step: Step)
      modifies sink
      ensures var r := TransferLine(arg, split, parse);
              sink.events == old(sink.events) + r.events && step == r.step
    {
      match split(arg) {
        case SplitFailed =>
          step := Escape(ShlexError);
        case Words(words) =>
          var r := CatchCommandError(Account.TransferFunds(words, parse));
          sink.EmitAll(r.events);
          step := r.step;
      }
    }

    /**
     * `complete_addmoney(text, line, begidx, endidx)`: `split` is `shlex.split`,
     * applied to `line[:begidx]` before anything else, so an unclosed quote
     * there raises. Otherwise only a text starting with '-' gets suggestions.
     */
    function CompleteAddMoney(text: string, line: string, begidx: int, split: string -> Split): (r: Returns<seq<string>>)
      ensures r.Raised? <==> split(Prefix(line, begidx)).SplitFailed?
      ensures r.Raised? ==> r.exc == ShlexError
      ensures r.Returned? && !StartsWith(text, "-") ==> r.value == []
      ensures r.Returned? && StartsWith(text, "-") ==>
                (forall o :: o in r.value <==> o in AddMoneyOptions && StartsWith(o, text)) &&
                IsSubsequence(r.value, AddMoneyOptions)
    {
      match split(Prefix(line, begidx))
      case SplitFailed => Raised(ShlexError)
      case Words(_) => Returned(if StartsWith(text, "-") then PrefixMatches(AddMoneyOptions, text) else [])
    }

    function CompleteListAccounts(text: string): (r: seq<string>)
      ensures r == []
    {
      []
    }

    /**
     * `completenames(text)`: the command names starting with `text`, in
     * insertion order; the listing of available commands is printed only
     * when there are none and `text` is empty, which never happens.
     */
    function CompleteNames(text: string): (c: Completion)
      ensures forall n :: n in c.suggestions <==> n in commands && StartsWith(n, text)
      ensures IsSubsequence(c.suggestions, commands)
      ensures "exit" !in c.suggestions && "help" !in c.suggestions
      ensures !c.listedCommands
    {
      var completions := PrefixMatches(commands, text);
      assert text == "" ==> "listaccounts" in completions by {
        assert StartsWith("listaccounts", "");
      }
      Completion(completions, completions == [] && text == "")
    }

    /** `complete_transfer(text, ...)`: the options starting with `text`, in declaration order. */
    function CompleteTransfer(text: string): (r: seq<string>)
      ensures forall o :: o in r <==> o in TransferOptions && StartsWith(o, text)
      ensures IsSubsequence(r, TransferOptions)
      ensures text == "" ==> r == TransferOptions
    {
      PrefixMatchesEmpty(TransferOptions);
      PrefixMatches(TransferOptions, text)
    }
  }
}
