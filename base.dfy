/**
 * mycliapp/commands/base.py: the command descriptor, the registry it adds
 * itself to, and `run`, which parses with a fresh parser, calls the handler
 * and turns `SystemExit` into a quiet return, a re-raise or a CommandError.
 */
module Base {
  import opened Python
  import opened ArgParse
  import opened Output
  import opened AppSettings

  /** What `parser_func()` builds: a schema, and what its `parse_args` does with a token list. */
  datatype Parser = Parser(schema: Schema, parseArgs: seq<string> -> ParseResult<Namespace>)

  /** The message of the CommandError that replaces a failed parse. */
  function InvalidArguments(name: string): string {
    "Invalid arguments: use '" + name + " -h' for details"
  }

  /** The module-level `command_registry` dict. */
  class Registry {
    var commands: map<string, Command>

    constructor ()
      ensures commands == map[]
    {
      commands := map[];
    }
  }

  class Command {
    const name: string
    const description: string
    const parserFunc: () -> Parser
    const handlerFunc: (SettingsValue, Namespace) -> Outcome
    const completionOptions: seq<string>

    /** `Command(...)`: keeps its arguments and stores itself in the registry under its name. */
    constructor (name: string, description: string, parserFunc: () -> Parser,
                 handlerFunc: (SettingsValue, Namespace) -> Outcome,
                 completionOptions: Option<seq<string>>, registry: Registry)
      modifies registry
      ensures this.name == name && this.description == description
      ensures this.parserFunc == parserFunc && this.handlerFunc == handlerFunc
      ensures this.completionOptions == (if completionOptions.Some? then completionOptions.value else [])
      ensures name in registry.commands && registry.commands[name] == this
      ensures forall n :: n != name ==> (n in registry.commands <==> n in old(registry.commands))
      ensures forall n :: n != name && n in old(registry.commands) ==> registry.commands[n] == old(registry.commands)[n]
      ensures registry.commands.Keys == old(registry.commands).Keys + {name}
      ensures |registry.commands| <= |old(registry.commands)| + 1
    {
      this.name := name;
      this.description := description;
      this.parserFunc := parserFunc;
      this.handlerFunc := handlerFunc;
      this.completionOptions := if completionOptions.Some? then completionOptions.value else [];
      new;
      registry.commands := registry.commands[name := this];
    }

    /** The body of the `try`: parse with a fresh parser, then call the handler. */
    function Attempt(settings: SettingsValue, args: seq<string>): (o: Outcome)
      // a successful parse hands the namespace to the handler, whose outcome is the outcome
      ensures parserFunc().parseArgs(args).Parsed? ==> o == handlerFunc(settings, parserFunc().parseArgs(args).record)
      // a failed parse emits nothing: argparse's exit, or the rejection as a CommandError
      ensures !parserFunc().parseArgs(args).Parsed? ==> o.events == [] && o.raised.Some?
      ensures parserFunc().parseArgs(args).Exit? ==> o.raised == Some(SystemExit(parserFunc().parseArgs(args).code))
      ensures parserFunc().parseArgs(args).Rejected? ==>
                o.raised == Some(CommandError("Invalid arguments: " + parserFunc().parseArgs(args).reason))
    {
      match parserFunc().parseArgs(args)
      case Parsed(ns) => handlerFunc(settings, ns)
      case Exit(code) => Outcome([], Some(SystemExit(code)))
      case Rejected(reason) => Outcome([], Some(CommandError("Invalid arguments: " + reason)))
    }

    /** `run(settings, args)` */
    function Run(settings: SettingsValue, args: seq<string>): (o: Outcome)
      // whatever the parse and the handler emitted stays emitted
      ensures o.events == Attempt(settings, args).events
      // on a successful parse the handler's outcome is the outcome, unless it exits
      ensures parserFunc().parseArgs(args).Parsed? ==>
                var h := handlerFunc(settings, parserFunc().parseArgs(args).record);
                (h.raised.None? || !h.raised.value.SystemExit?) ==> o == h
      // nothing raised, or a SystemExit with code 0, means a normal return
      ensures (Attempt(settings, args).raised.None? || Attempt(settings, args).raised == Some(SystemExit(0)))
                <==> o.raised.None?
      // a SystemExit escapes only when help was asked for, and never with code 0
      ensures forall c :: o.raised == Some(SystemExit(c)) <==>
                c != 0 && HelpRequested(args) && Attempt(settings, args).raised == Some(SystemExit(c))
      // any other SystemExit becomes the CommandError naming the command
      ensures forall c :: Attempt(settings, args).raised == Some(SystemExit(c)) && c != 0 && !HelpRequested(args) ==>
                o.raised == Some(CommandError(InvalidArguments(name)))
      // every other exception passes through unchanged
      ensures var a := Attempt(settings, args);
                a.raised.Some? && !a.raised.value.SystemExit? ==> o.raised == a.raised
    {
      var attempt := Attempt(settings, args);
      match attempt.raised
      case Some(SystemExit(code)) =>
        if code == 0 then Outcome(attempt.events, None)
        else if HelpRequested(args) then attempt
        else Outcome(attempt.events, Some(CommandError(InvalidArguments(name))))
      case _ => attempt
    }

    /** `print_help()`: the help text of a freshly built parser. */
    function PrintHelp(): (e: seq<Event>)
      ensures |e| == 1 && e[0].Usage? && e[0].schema == parserFunc().schema
    {
      [Usage(parserFunc().schema)]
    }
  }
}
