# mycliapp in Dafny

A model of the core of `mycliapp`, a small interactive banking-style shell
written in Python. Four pieces of decision logic are modelled:

- **Command descriptors** (`commands/base.py`). A `Command` stores itself in a
  registry under its name. `run` parses with a fresh parser and calls the
  handler. It turns a parser or handler `SystemExit` into one of three things:
  a quiet return (code 0), a re-raise (help was asked for), or a
  `CommandError` that names the command.
- **Account commands** (`commands/account.py`). The fixed account table, the
  flag schemas of `addmoney` and `transfer`, and their handlers. Each handler
  is a case analysis from how `parse_args` ended to the messages it emits and
  the exception it raises.
- **Configuration** (`config/config_parser.py`). `apply_config` updates the
  `Settings` object field by field. `set_env_vars` merges a dict into the
  environment and keeps existing values unless told to override. The
  `listaccounts` startup command runs only on an exact string match.
  `load_config_file` decides between a missing file, malformed JSON and
  success.
- **The shell** (`cli.py`). `InteractiveShell`'s `do_*` methods catch
  `CommandError`, report it as one error message and let everything else
  escape. `do_exit` is the only stop signal. The completers are prefix
  filters over fixed option lists.

Output (`success`, `error`, `info`, `table`, a parser's `print_help`) is an
`Event` appended to a `Sink`. Exceptions are values (`Python.Exc`), and a call
that may raise returns its events together with an `Option<Exc>`. Parsing is
a parameter of type `seq<string> -> ParseResult<R>`, where
`ParseResult = Parsed(record) | Exit(code) | Rejected(reason)`. `Rejected`
stands for `SilentParser.error`, which raises
`CommandError("Invalid arguments: " + reason)`. `shlex.split` is a parameter
that yields the words or fails. The existence check and reading of the config
file are inputs (`fileExists`, `FileRead`). `os.environ` is the `vars` map of an
`Environ` object.

Every state-changing operation comes in two parts. A method updates the
objects (`ApplyConfig`, `SetEnvVars`, `LoadConfigFile`, `InteractiveShell.Do*`).
A function states the new state and the emitted events (`ApplyConfigSpec`,
`SetEnvVarsSpec`, `LoadConfigSpec`, `AddMoneyLine`, …). The method's `ensures`
ties the two together, and the lemmas are proved about the function.

Files: `python.dfy` (Python values the model needs: `Option`, exceptions,
`startswith`, `in` on strings), `pyjson.dfy` (decoded JSON, truthiness,
`str`/`repr`, dict lookup), `argparse.dfy` (flag schemas, attribute names,
namespaces), `output.dfy` (events and the sink), `settings.dfy`, `base.dfy`,
`account.dfy`, `config_parser.dfy`, `cli.dfy`.

Facts about the code that a reader of the command names might not expect:
- Registering a name twice overwrites the earlier entry; nothing fails.
- The shell does not consult the registry. It has its own fixed `commands`
  dict, and `account.py` never registers its commands.
- `run_on_start` is compared with the single string `"listaccounts"`. There
  are no lists of startup commands, no confirmation prompt and no
  `startup_auto_confirm` key.
- `transfer_funds` raises the `'help addmoney'` hint text, as written.
- An exception other than `CommandError` escapes the `do_*` methods. This
  includes the help `SystemExit` and a `shlex.split` failure, and nothing
  turns such an exception into a generic error report.

## Model

| member | source | states |
|---|---|---|
| Base.Registry.constructor | mycliapp/commands/base.py:5 | the registry starts empty |
| Base.Command.constructor | mycliapp/commands/base.py:8-21 | the fields keep the arguments; `completion_options` is the given list, or `[]` when none is given; the registry maps `name` to this object; every other entry is unchanged; the key set grows by exactly `name`, so by at most one key, and a name already present is overwritten |
| Base.Command.Attempt | mycliapp/commands/base.py:24-27 | a successful parse passes the namespace to the handler and its outcome is the outcome; a failed parse emits nothing and raises: argparse's `SystemExit` with its code, or `CommandError("Invalid arguments: <reason>")` for a rejection |
| Base.Command.Run | mycliapp/commands/base.py:23-34 | the events of the parse and handler stay; after a successful parse the handler's outcome is the outcome unless it raised `SystemExit`; it returns normally exactly when nothing was raised or `SystemExit(0)` was; a `SystemExit(c)` escapes exactly when `c != 0`, help was requested and the parser or handler raised it; any other non-zero exit becomes `CommandError("Invalid arguments: use '<name> -h' for details")`; all other exceptions pass through unchanged |
| Base.Command.PrintHelp | mycliapp/commands/base.py:36-37 | exactly one usage event, for the schema of a freshly built parser |
| AppSettings.Settings.constructor | mycliapp/config/settings.py:4-7 | the defaults: app name "MyCLIApp", version "0.1", debug off |
| Account.ListAccounts | mycliapp/commands/account.py:9-15 | whatever its arguments are, it raises nothing and emits exactly one event: the "Accounts" table with columns ID/Type/Balance and the two fixed rows, each row one cell per column |
| Account.GetAddParser | mycliapp/commands/account.py:17-22 | prog `addmoney`; exactly the flags `-account`, `-amount`, stored as `account`, `amount`; both required; `-amount` converted to a number |
| Account.AddArgsAreAddNamespaces | mycliapp/commands/account.py:17-22 | every `AddArgs` record is a namespace the addmoney schema accepts, and every accepted namespace is one |
| Account.AddMoney | mycliapp/commands/account.py:24-33 | when the parse succeeds, exactly one success message naming amount and account, and nothing raised; when the parser exits, nothing emitted and the `SystemExit` re-raised if help was requested, else `CommandError("Invalid arguments: use 'help addmoney' for details")`; when it rejects, `CommandError("Invalid arguments: <reason>")` uncaught; no other effect |
| Account.GetTransferParser | mycliapp/commands/account.py:36-43 | prog `transfer`; flags `-from`, `-to`, `-amount`, `--note` stored as `source`, `destination`, `amount`, `note`; the first three required, `--note` optional; only `-amount` numeric |
| Account.TransferArgsAreTransferNamespaces | mycliapp/commands/account.py:36-43 | every `TransferArgs` record, with `note` absent by default, is a namespace the transfer schema accepts, and every accepted namespace is one |
| Account.TransferFunds | mycliapp/commands/account.py:45-57 | when the parse succeeds, one success message naming amount, source and destination, then one `Note: <note>` info message exactly when the note is present and non-empty; on parser exit or rejection the same outcomes as `add_money`, with the same `'help addmoney'` text |
| ConfigParser.SetEnvVarsSpec | mycliapp/config/config_parser.py:38-44 | exactly one notice per item of the dict |
| ConfigParser.SetEnvVarsNotices | mycliapp/config/config_parser.py:39-44 | notice `i` is "already set" or "set" for key `i` |
| ConfigParser.SetEnvVarsNoticeAt | mycliapp/config/config_parser.py:39-44 | notice `i` is "already set" exactly when key `i` is set after the items before it and there is no override, and "set" with its value otherwise |
| ConfigParser.SetEnvVarsNoticeFor | mycliapp/config/config_parser.py:39-44 | for a dict with distinct keys, notice `i` is "already set" exactly when key `i` was set before the call and there is no override, and "set" with its value otherwise |
| ConfigParser.SetEnvVarsKeys | mycliapp/config/config_parser.py:39-43 | the variables afterwards are those before plus the dict's keys |
| ConfigParser.SetEnvVars | mycliapp/config/config_parser.py:38-44 | the loop leaves the environment and the sink exactly as `SetEnvVarsSpec` says |
| ConfigParser.SetEnvVarsKeepsExisting | mycliapp/config/config_parser.py:40-42 | without override, a variable already set keeps its value |
| ConfigParser.SetEnvVarsLeavesOthers | mycliapp/config/config_parser.py:39-43 | a variable that is not a key of the dict is untouched, with or without override |
| ConfigParser.SetEnvVarsSetsItem | mycliapp/config/config_parser.py:40-43 | for a dict with distinct keys, a key that is new, or any key under override, ends up mapped to `str(value)` |
| ConfigParser.SetEnvVarsWhenAllSet | mycliapp/config/config_parser.py:40-42 | without override, once every key is set nothing changes |
| ConfigParser.SetEnvVarsIdempotent | mycliapp/config/config_parser.py:38-44 | without override, applying the same dict twice leaves the environment as applying it once |
| PyJson.Get | mycliapp/config/config_parser.py:23 | the lookup finds nothing exactly when no member has the key, and what it finds is a member's value |
| PyJson.GetMember | mycliapp/config/config_parser.py:23 | in a dict with distinct keys, looking up a member's key gives its value |
| PyJson.Truthy | mycliapp/config/config_parser.py:24 | `bool(v)` is false exactly for null, `false`, `0`, `""`, `[]` and `{}` |
| PyJson.Str | mycliapp/config/config_parser.py:28 | `str(v)` of a string is the string itself; of any other value it is its non-empty `repr` (the same conversion gives the variable's value at line 43) |
| ConfigParser.NotADictError | mycliapp/config/config_parser.py:23-34 | a non-dict config raises TypeError or AttributeError; AttributeError only for a list or a string, which get past the `in` tests to `config.get`; TypeError for a list holding "debug" or a string containing it |
| ConfigParser.ApplyLookups | mycliapp/config/config_parser.py:23-36 | on a dict, `version` never changes; it raises exactly when `env` is present and not a dict, then AttributeError with the environment unchanged; a dict `env` gives the environment of `set_env_vars` without override; no `env` leaves it unchanged |
| ConfigParser.ApplyConfigSpec | mycliapp/config/config_parser.py:22-36 | `version` never changes; only builtin exceptions are raised; a config that is not a dict raises the TypeError or AttributeError Python would raise, before any change or output |
| ConfigParser.ApplyConfigSettings | mycliapp/config/config_parser.py:23-29 | `debug` becomes the truthiness of its value when present, else is unchanged; `app_name` becomes the string form of its value when present, else is unchanged |
| ConfigParser.ApplyConfigEnvironment | mycliapp/config/config_parser.py:31-32 | it raises exactly when `env` is present and not a dict, then AttributeError with the environment unchanged; a dict `env` gives the environment of `set_env_vars` without override; no `env` leaves it unchanged |
| ConfigParser.ApplyDebugTo | mycliapp/config/config_parser.py:23-25 | the `debug` step on the settings object and the sink, as `ApplyDebug` says |
| ConfigParser.ApplyAppNameTo | mycliapp/config/config_parser.py:27-29 | the `app_name` step on the settings object and the sink, as `ApplyAppName` says |
| ConfigParser.ApplyEnvTo | mycliapp/config/config_parser.py:31-32 | the `env` step on the environment and the sink, as `ApplyEnv` says |
| ConfigParser.RunOnStartWith | mycliapp/config/config_parser.py:34-36 | appends the `list_accounts` output exactly when `run_on_start` is the string "listaccounts" |
| ConfigParser.ApplyConfig | mycliapp/config/config_parser.py:22-36 | the settings, the environment, the sink and the raised exception are exactly those of `ApplyConfigSpec` |
| ConfigParser.ApplyConfigIdempotent | mycliapp/config/config_parser.py:22-36 | applying the same config a second time leaves settings and environment as the first application did |
| ConfigParser.ApplyConfigRunsListAccounts | mycliapp/config/config_parser.py:34-36 | on a normal return exactly one table is shown if `run_on_start` is the string "listaccounts" and none otherwise, including for a list that contains it |
| ConfigParser.ApplyConfigIgnoresOtherKeys | mycliapp/config/config_parser.py:22-36 | two dicts that agree on debug, app_name, env and run_on_start give the same result |
| ConfigParser.LoadConfigSpec | mycliapp/config/config_parser.py:7-20 | a missing file gives one "Config file not found" error and `CommandError("Missing config file")`; undecodable JSON gives one "Invalid JSON" error and `CommandError("Malformed JSON config")`; in both cases settings and environment are untouched; an error from `open` propagates with nothing emitted or changed; when `apply_config` raises, the outcome is exactly its outcome, with no success message; it returns normally exactly when the file exists, decodes and `apply_config` returns, and then the success message comes after everything `apply_config` emitted |
| ConfigParser.LoadConfigFile | mycliapp/config/config_parser.py:7-20 | settings, environment, sink and raised exception are exactly those of `LoadConfigSpec` |
| ConfigParser.LoadConfigIdempotent | mycliapp/config/config_parser.py:7-20 | loading the same file twice leaves settings and environment as loading it once |
| Cli.InteractiveShell.constructor | mycliapp/cli.py:16-23 | the given settings object is kept; with none, a fresh `Settings()` with the defaults is made; `commands` holds listaccounts, addmoney and transfer in that order |
| Cli.InteractiveShell.Default | mycliapp/cli.py:25-26 | exactly one error "Unknown command: <line>", and the shell continues |
| Cli.InteractiveShell.DoExit | mycliapp/cli.py:28-30 | returns the stop signal |
| Cli.CatchCommandError | mycliapp/cli.py:34-37 | never stops the shell; a `CommandError` is caught and reported as one error with its message; every other exception escapes unchanged, with the events emitted before it |
| Cli.ListAccountsLine | mycliapp/cli.py:32-37 | `do_listaccounts` continues after emitting exactly one table |
| Cli.InteractiveShell.DoListAccounts | mycliapp/cli.py:32-37 | appends exactly the events of `ListAccountsLine` and returns its step |
| Cli.AddMoneyLine | mycliapp/cli.py:39-44 | `do_addmoney` never stops the shell; it lets an exception escape exactly when `shlex.split` fails or the parser exits on a help request; otherwise it continues after exactly one message, a success exactly when the parse succeeded and an error otherwise |
| Cli.InteractiveShell.DoAddMoney | mycliapp/cli.py:39-44 | appends exactly the events of `AddMoneyLine` and returns its step |
| Cli.InteractiveShell.HelpAddMoney | mycliapp/cli.py:46-49 | appends the usage of a fresh addmoney parser |
| Cli.TransferLine | mycliapp/cli.py:51-57 | as `do_addmoney`, except that a successful transfer shows a second message exactly when a non-empty note was given |
| Cli.InteractiveShell.DoTransfer | mycliapp/cli.py:51-57 | appends exactly the events of `TransferLine` and returns its step |
| Cli.PrefixMatches | mycliapp/cli.py:64 | an option is kept exactly when it starts with the text, and the kept options stay in their original order |
| Cli.PrefixMatchesEmpty | mycliapp/cli.py:80 | the empty text keeps every option |
| Cli.Prefix | mycliapp/cli.py:62 | Python's `line[:begidx]` is a prefix of the line, for any index, negative or past the end |
| Cli.InteractiveShell.CompleteAddMoney | mycliapp/cli.py:60-65 | it raises exactly when `shlex.split(line[:begidx])` fails; otherwise `[]` when the text does not start with '-', else exactly the options of `-account`, `-amount` that start with the text, in order |
| Cli.InteractiveShell.CompleteListAccounts | mycliapp/cli.py:67-68 | always `[]` |
| Cli.InteractiveShell.CompleteNames | mycliapp/cli.py:70-76 | exactly the command names that start with the text, in insertion order; never `exit` or `help`; the "Available commands" listing is never printed |
| Cli.InteractiveShell.CompleteTransfer | mycliapp/cli.py:78-80 | exactly those of `-from`, `-to`, `-amount`, `--note` that start with the text, in that order; all four for the empty text |

## Left out

- Output rendering and logging (`utils/formatter.py`, `utils/logger.py`): replaced by the event sink; styles, colours and log files are not modelled.
- `main.py`: process entry and logger setup. Its calls do not match the code they call: `setup_logger` is called with a level but takes no argument, and `print_entry` and `run` are not defined on `InteractiveShell`.
- argparse itself: tokens-to-namespace parsing, prefix abbreviation, usage text and reason strings are the `parse` parameter. A schema records `prog`, the description and each flag's option, `dest`, `required` and `type`, but not the `help=` strings.
- The help text argparse prints before exiting on `-h` is not among the events; a `SystemExit` raised by the parser carries no events.
- `SilentParser` (`utils/parser.py`) is only its effect, the `Rejected` result; the missing `utils/errors.py` is not part of this model, and `CommandError` is a message.
- Float conversion and `%.2f` formatting: an amount is an opaque value that carries its rendering (`Amount.shown`).
- `shlex.split`: a parameter that yields words or fails with ValueError; quoting rules are not modelled.
- JSON floats, and the exact quoting and escaping of Python's `repr` for strings, are not modelled; `repr` of a string wraps it in single quotes.
- JSON objects whose names repeat: `json.load` keeps the last value under the first position, while a `JObject` keeps every member and `Get` finds the first. The lemmas that depend on distinct names (`GetMember`, `SetEnvVarsSetsItem`, `SetEnvVarsNoticeFor`) require `DistinctKeys`; the others hold for any member list.
- `os.path.exists`, `open` and `json.load` are inputs; a read error other than a JSON decode error propagates under the kind given in `OpenFailed`.
- `os.environ` accepts every key and value; the OS's rejection of names containing `=` or NUL is not modelled.
- `SystemExit` codes are integers; `None` and string codes are not modelled.
- `cmd.Cmd`'s read loop, readline and completion wiring: only the methods defined in `cli.py` are modelled. What happens to the process when an exception escapes a `do_*` method is not modelled.
- `complete_addmoney` and the other completers ignore `endidx`, and `complete_addmoney` ignores the words it splits; those parameters are not modelled.
- `command_registry` is module-level state in Python; here it is a `Registry` object passed to the `Command` constructor.
- Handlers receive a snapshot `SettingsValue`; none of them changes the settings in the source.
- The account handlers take typed records (`AddArgs`, `TransferArgs`) instead of a raw namespace; the namespace lemmas show the two are interchangeable.
