/**
 * What the core needs to know about an argparse parser, without argparse
 * itself: the flags a parser declares (its schema), which attribute each
 * flag is stored under, what a successful parse returns, and the three ways
 * `parse_args` ends when the parser is a SilentParser.
 */
module ArgParse {
  import opened Python

  /** `type=float` or the default (the token is kept as a string). */
  datatype Kind = AsString | AsFloat

  /** One `add_argument` call: the option string, an explicit `dest=`, `required=` and the type. */
  datatype Flag = Flag(option: string, dest: Option<string>, required: bool, kind: Kind)

  /** A parser as its builder configures it: `prog`, `description` and its flags in order. */
  datatype Schema = Schema(prog: string, description: string, flags: seq<Flag>)

  function LStripDashes(s: string): (r: string)
    decreases |s|
  {
    if s != [] && s[0] == '-' then LStripDashes(s[1..]) else s
  }

  function Underscored(s: string): (r: string) {
    seq(|s|, i requires 0 <= i < |s| => if s[i] == '-' then '_' else s[i])
  }

  /**
   * The attribute a flag's value is stored under: the explicit `dest`, or
   * else the option string with its leading dashes stripped and the
   * remaining dashes turned into underscores.
   */
  function Dest(f: Flag): string {
    match f.dest
    case Some(d) => d
    case None => Underscored(LStripDashes(f.option))
  }

  function Options(s: Schema): seq<string> {
    seq(|s.flags|, i requires 0 <= i < |s.flags| => s.flags[i].option)
  }

  function Dests(s: Schema): seq<string> {
    seq(|s.flags|, i requires 0 <= i < |s.flags| => Dest(s.flags[i]))
  }

  /** A converted float, known to the model only by its `%.2f` rendering. */
  datatype Amount = Amount(shown: string)

  /** An attribute of the parsed namespace; `NoneVal` is an option that was not given. */
  datatype Value = StrVal(text: string) | NumVal(amount: Amount) | NoneVal

  type Namespace = map<string, Value>

  /** A value is acceptable for a flag: present when required, converted when typed. */
  predicate Fits(f: Flag, v: Value) {
    match v
    case NoneVal => !f.required
    case StrVal(_) => f.kind == AsString
    case NumVal(_) => f.kind == AsFloat
  }

  /**
   * The namespaces a successful `parse_args` can return for a schema: one
   * attribute per flag and no other, each fitting its flag.
   */
  ghost predicate Conforms(s: Schema, ns: Namespace) {
    var dests := Dests(s);
    && (forall k :: k in ns <==> k in dests)
    && forall i :: 0 <= i < |s.flags| ==> Fits(s.flags[i], ns[dests[i]])
  }

  /**
   * How `parse_args` ends: it returns a namespace, or raises `SystemExit`
   * (code 0 after printing help), or, for a SilentParser, its `error`
   * raises `CommandError("Invalid arguments: " + reason)`.
   */
  datatype ParseResult<+R> = Parsed(record: R) | Exit(code: int) | Rejected(reason: string)

  /** `any(arg in ("-h", "--help") for arg in args)` */
  predicate HelpRequested(args: seq<string>) {
    "-h" in args || "--help" in args
  }
}
