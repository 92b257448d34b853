/**
 * mycliapp/config/config_parser.py: loading a JSON configuration file and
 * applying it, field by field, to the Settings object and the process
 * environment. Each operation is a method that updates state in place and
 * a function that says what that update is; the lemmas are about the
 * functions.
 */
module ConfigParser {
  import opened Python
  import opened PyJson
  import opened Output
  import opened AppSettings
  import Account

  /** `os.environ` */
  class Environ {
    var vars: map<string, string>

    constructor (vars: map<string, string>)
      ensures this.vars == vars
    {
      this.vars := vars;
    }
  }

  // ------------------------------------------------------------ set_env_vars

  function KeptNotice(key: string): Event {
    Info("ENV already set: " + key + " (keeping existing value)")
  }

  function SetNotice(key: string, value: Json): Event {
    Info("ENV set: " + key + " = " + Str(value))
  }

  /** The environment after `set_env_vars`, and the notices it emitted. */
  datatype EnvUpdate = EnvUpdate(vars: map<string, string>, notices: seq<Event>)

  /** The keys of a dict's items. */
  function Keys(items: seq<(string, Json)>): set<string> {
    set i | 0 <= i < |items| :: items[i].0
  }

  /** One item of `set_env_vars`: kept when already set and not overriding, otherwise set to `str(value)`. */
  function EnvStep(prev: EnvUpdate, item: (string, Json), override: bool): EnvUpdate {
    var (key, value) := item;
    if key in prev.vars && !override then EnvUpdate(prev.vars, prev.notices + [KeptNotice(key)])
    else EnvUpdate(prev.vars[key := Str(value)], prev.notices + [SetNotice(key, value)])
  }

  /** `set_env_vars(env_dict, override)` started from `vars`: the items in order, one notice each. */
  function SetEnvVarsSpec(items: seq<(string, Json)>, override: bool, vars: map<string, string>): (r: EnvUpdate)
    ensures |r.notices| == |items|
    decreases |items|
  {
    if items == [] then EnvUpdate(vars, [])
    else EnvStep(SetEnvVarsSpec(items[..|items| - 1], override, vars), items[|items| - 1], override)
  }

  /** Notice `i` says whether item `i` was kept or set. */
  lemma {:induction false} SetEnvVarsNotices(items: seq<(string, Json)>, override: bool, vars: map<string, string>)
    ensures var notices := SetEnvVarsSpec(items, override, vars).notices;
            forall i :: 0 <= i < |items| ==>
              notices[i] == KeptNotice(items[i].0) || notices[i] == SetNotice(items[i].0, items[i].1)
    decreases |items|
  {
    if items != [] {
      var before := items[..|items| - 1];
      SetEnvVarsNotices(before, override, vars);
      assert forall i :: 0 <= i < |before| ==> before[i] == items[i];
    }
  }

  /** Notice `i` is decided by the environment left by the items before it. */
  lemma {:induction false} SetEnvVarsNoticeAt(items: seq<(string, Json)>, override: bool, vars: map<string, string>, i: nat)
    requires i < |items|
    ensures var key := items[i].0;
            SetEnvVarsSpec(items, override, vars).notices[i] ==
              if key in SetEnvVarsSpec(items[..i], override, vars).vars && !override then KeptNotice(key)
              else SetNotice(key, items[i].1)
    decreases |items|
  {
    var before := items[..|items| - 1];
    if i < |before| {
      assert before[..i] == items[..i] && before[i] == items[i];
      SetEnvVarsNoticeAt(before, override, vars, i);
    }
  }

  /** In a dict, notice `i` keeps item `i` exactly when its variable was set before the call and there is no override. */
  lemma SetEnvVarsNoticeFor(items: seq<(string, Json)>, override: bool, vars: map<string, string>, i: nat)
    requires DistinctKeys(items) && i < |items|
    ensures var key := items[i].0;
            SetEnvVarsSpec(items, override, vars).notices[i] ==
              if key in vars && !override then KeptNotice(key) else SetNotice(key, items[i].1)
  {
    var key := items[i].0;
    SetEnvVarsNoticeAt(items, override, vars, i);
    assert key !in Keys(items[..i]) by {
      forall j | 0 <= j < i ensures items[..i][j].0 != key {
        assert items[..i][j] == items[j];
      }
    }
    SetEnvVarsLeavesOthers(items[..i], override, vars, key);
  }

  /** The keys after `set_env_vars` are those before and those of the dict. */
  lemma {:induction false} SetEnvVarsKeys(items: seq<(string, Json)>, override: bool, vars: map<string, string>)
    ensures SetEnvVarsSpec(items, override, vars).vars.Keys == vars.Keys + Keys(items)
    decreases |items|
  {
    if items != [] {
      var before := items[..|items| - 1];
      assert Keys(items) == Keys(before) + {items[|items| - 1].0} by {
        assert forall i :: 0 <= i < |before| ==> before[i] == items[i];
        assert items == before + [items[|items| - 1]];
      }
      SetEnvVarsKeys(before, override, vars);
    }
  }

  /** `set_env_vars(env_dict, override)`: one notice per item. */
  method SetEnvVars(items: seq<(string, Json)>, override: bool, environ: Environ, sink: Sink)
    modifies environ, sink
    ensures environ.vars == SetEnvVarsSpec(items, override, old(environ.vars)).vars
    ensures sink.events == old(sink.events) + SetEnvVarsSpec(items, override, old(environ.vars)).notices
  {
    var i := 0;
    while i < |items|
      invariant 0 <= i <= |items|
      invariant environ.vars == SetEnvVarsSpec(items[..i], override, old(environ.vars)).vars
      invariant sink.events == old(sink.events) + SetEnvVarsSpec(items[..i], override, old(environ.vars)).notices
    {
      var (key, value) := items[i];
      ghost var prev := SetEnvVarsSpec(items[..i], override, old(environ.vars));
      assert items[..i + 1][..i] == items[..i] && items[..i + 1][i] == items[i];
      assert SetEnvVarsSpec(items[..i + 1], override, old(environ.vars)) == EnvStep(prev, items[i], override);
      if key in environ.vars && !override {
        AppendAssociative(old(sink.events), prev.notices, [KeptNotice(key)]);
        sink.Emit(KeptNotice(key));
      } else {
        AppendAssociative(old(sink.events), prev.notices, [SetNotice(key, value)]);
        environ.vars := environ.vars[key := Str(value)];
        sink.Emit(SetNotice(key, value));
      }
      i := i + 1;
    }
    assert items[..|items|] == items;
  }

  /** Without override, a variable that was already set keeps its value. */
  lemma {:induction false} SetEnvVarsKeepsExisting(items: seq<(string, Json)>, vars: map<string, string>, key: string)
    requires key in vars
    ensures key in SetEnvVarsSpec(items, false, vars).vars
    ensures SetEnvVarsSpec(items, false, vars).vars[key] == vars[key]
    decreases |items|
  {
    if items != [] {
      SetEnvVarsKeepsExisting(items[..|items| - 1], vars, key);
    }
  }

  /** A variable that is not a key of the dict is left as it was, with or without override. */
  lemma {:induction false} SetEnvVarsLeavesOthers(items: seq<(string, Json)>, override: bool,
                                                  vars: map<string, string>, key: string)
    requires key !in Keys(items)
    ensures key in SetEnvVarsSpec(items, override, vars).vars <==> key in vars
    ensures key in vars ==> SetEnvVarsSpec(items, override, vars).vars[key] == vars[key]
    decreases |items|
  {
    if items != [] {
      var before := items[..|items| - 1];
      assert Keys(before) <= Keys(items) by {
        assert forall i :: 0 <= i < |before| ==> before[i] == items[i];
      }
      assert items[|items| - 1].0 in Keys(items);
      SetEnvVarsLeavesOthers(before, override, vars, key);
    }
  }

  /**
   * The value a dict item's key ends up with, when the item is the last one
   * with that key: with override, or when the key was not set before, it
   * is `str(value)`.
   */
  lemma {:induction false} SetEnvVarsSetsItem(items: seq<(string, Json)>, override: bool,
                                              vars: map<string, string>, i: nat)
    requires DistinctKeys(items) && i < |items|
    requires override || items[i].0 !in vars
    ensures items[i].0 in SetEnvVarsSpec(items, override, vars).vars
    ensures SetEnvVarsSpec(items, override, vars).vars[items[i].0] == Str(items[i].1)
    decreases |items|
  {
    var before := items[..|items| - 1];
    var last := items[|items| - 1];
    assert DistinctKeys(before);
    if i == |items| - 1 {
      if !override {
        assert last.0 !in Keys(before) by {
          assert forall j :: 0 <= j < |before| ==> before[j].0 == items[j].0 != last.0;
        }
        SetEnvVarsLeavesOthers(before, false, vars, last.0);
      }
    } else {
      assert before[i] == items[i];
      SetEnvVarsSetsItem(before, override, vars, i);
      assert last.0 != items[i].0;
    }
  }

  /** Once every key is set, a run without override changes nothing. */
  lemma {:induction false} SetEnvVarsWhenAllSet(items: seq<(string, Json)>, vars: map<string, string>)
    requires Keys(items) <= vars.Keys
    ensures SetEnvVarsSpec(items, false, vars).vars == vars
    decreases |items|
  {
    if items != [] {
      var before := items[..|items| - 1];
      assert Keys(before) <= Keys(items) by {
        assert forall i :: 0 <= i < |before| ==> before[i] == items[i];
      }
      assert items[|items| - 1].0 in Keys(items);
      SetEnvVarsWhenAllSet(before, vars);
    }
  }

  /** Without override, applying the same dict a second time leaves the environment as the first run did. */
  lemma SetEnvVarsIdempotent(items: seq<(string, Json)>, vars: map<string, string>)
    ensures var once := SetEnvVarsSpec(items, false, vars).vars;
            SetEnvVarsSpec(items, false, once).vars == once
  {
    SetEnvVarsKeys(items, false, vars);
    SetEnvVarsWhenAllSet(items, SetEnvVarsSpec(items, false, vars).vars);
  }

  /** The notices are all `info` messages, so they hold no table. */
  lemma {:induction false} NoticesHoldNoTable(notices: seq<Event>)
    requires forall i :: 0 <= i < |notices| ==> notices[i].Info?
    ensures TableCount(notices) == 0
    decreases |notices|
  {
    if notices != [] {
      NoticesHoldNoTable(notices[1..]);
    }
  }

  // ------------------------------------------------------------ apply_config

  /** The settings, the environment and the output after a call, and how it ended. */
  datatype Applied = Applied(settings: SettingsValue, vars: map<string, string>, events: seq<Event>, raised: Option<Exc>)

  /**
   * What `apply_config` raises when `json.load` gave something other than
   * a dict: `"debug" in config` fails on a scalar (TypeError); on a list or
   * a string that test succeeds or not, and then `config[...]` (TypeError)
   * or `config.get` (AttributeError) fails.
   */
  function NotADictError(config: Json): (r: Exc)
    requires !config.JObject?
    ensures r == Builtin("TypeError") || r == Builtin("AttributeError")
    // only a list or a string gets past the `in` tests to `config.get`
    ensures r == Builtin("AttributeError") ==> config.JArray? || config.JStr?
    ensures config.JArray? && JStr("debug") in config.items ==> r == Builtin("TypeError")
    ensures config.JStr? && Contains(config.s, "debug") ==> r == Builtin("TypeError")
  {
    match config
    case JArray(items) =>
      if JStr("debug") in items || JStr("app_name") in items || JStr("env") in items
      then Builtin("TypeError") else Builtin("AttributeError")
    case JStr(s) =>
      if Contains(s, "debug") || Contains(s, "app_name") || Contains(s, "env")
      then Builtin("TypeError") else Builtin("AttributeError")
    case _ => Builtin("TypeError")
  }

  /** The four keys `apply_config` looks at, looked up in the dict. */
  datatype Lookups = Lookups(debug: Option<Json>, appName: Option<Json>, env: Option<Json>, runOnStart: Option<Json>)

  function LookUp(members: seq<(string, Json)>): Lookups {
    Lookups(Get(members, "debug"), Get(members, "app_name"), Get(members, "env"), Get(members, "run_on_start"))
  }

  /** The `debug` step: the truthiness of the value, and its notice. */
  function ApplyDebug(debug: Option<Json>, s: SettingsValue): (SettingsValue, seq<Event>) {
    match debug
    case Some(v) => (s.(debug := Truthy(v)), [Info("Set debug = " + BoolStr(Truthy(v)))])
    case None => (s, [])
  }

  /** The `app_name` step: the string form of the value, and its notice. */
  function ApplyAppName(appName: Option<Json>, s: SettingsValue): (SettingsValue, seq<Event>) {
    match appName
    case Some(v) => (s.(appName := Str(v)), [Info("Set app_name = " + Str(v))])
    case None => (s, [])
  }

  /** The startup command runs only when `run_on_start` is exactly the string "listaccounts". */
  function RunOnStart(runOnStart: Option<Json>, s: SettingsValue): seq<Event> {
    if runOnStart == Some(JStr("listaccounts")) then Account.ListAccounts(s, "").events else []
  }

  /**
   * The `env` step: a dict is applied without override; any other value
   * raises AttributeError (it has no `items`) and changes nothing.
   */
  function ApplyEnv(env: Option<Json>, vars: map<string, string>): (EnvUpdate, Option<Exc>) {
    match env
    case Some(JObject(items)) => (SetEnvVarsSpec(items, false, vars), None)
    case Some(_) => (EnvUpdate(vars, []), Some(Builtin("AttributeError")))
    case None => (EnvUpdate(vars, []), None)
  }

  /** `apply_config` on a dict, given what its four lookups found: the steps in order, stopping at a raise. */
  function ApplyLookups(k: Lookups, s: SettingsValue, vars: map<string, string>): (r: Applied)
    ensures r.settings.version == s.version
    ensures r.raised.Some? <==> k.env.Some? && !k.env.value.JObject?
    ensures r.raised.Some? ==> r.raised == Some(Builtin("AttributeError")) && r.vars == vars
    ensures k.env.Some? && k.env.value.JObject? ==> r.vars == SetEnvVarsSpec(k.env.value.members, false, vars).vars
    ensures k.env.None? ==> r.vars == vars
  {
    var (s1, debugNotice) := ApplyDebug(k.debug, s);
    var (s2, nameNotice) := ApplyAppName(k.appName, s1);
    var (env, raised) := ApplyEnv(k.env, vars);
    if raised.Some? then Applied(s2, vars, debugNotice + nameNotice + env.notices, raised)
    else Applied(s2, env.vars, debugNotice + nameNotice + env.notices + RunOnStart(k.runOnStart, s2), None)
  }

  /** `apply_config(config, settings)` with `os.environ` equal to `vars`. */
  function ApplyConfigSpec(config: Json, s: SettingsValue, vars: map<string, string>): (r: Applied)
    ensures r.settings.version == s.version
    ensures r.raised.Some? ==> r.raised.value.Builtin?
    ensures !config.JObject? ==> r == Applied(s, vars, [], Some(NotADictError(config)))
  {
    match config
    case JObject(members) => ApplyLookups(LookUp(members), s, vars)
    case _ => Applied(s, vars, [], Some(NotADictError(config)))
  }

  /** On a dict, `debug` and `app_name` are set exactly when present, to the value's truthiness and string form. */
  lemma ApplyConfigSettings(members: seq<(string, Json)>, s: SettingsValue, vars: map<string, string>)
    ensures var r := ApplyConfigSpec(JObject(members), s, vars);
            var debug, appName := Get(members, "debug"), Get(members, "app_name");
            && r.settings.debug == (if debug.Some? then Truthy(debug.value) else s.debug)
            && r.settings.appName == (if appName.Some? then Str(appName.value) else s.appName)
  {
    var k := LookUp(members);
    assert ApplyConfigSpec(JObject(members), s, vars).settings == ApplyAppName(k.appName, ApplyDebug(k.debug, s).0).0;
  }

  /**
   * On a dict, `apply_config` raises exactly when `env` is present and not a
   * dict, and then it is AttributeError and the environment is unchanged;
   * otherwise the environment is that of `set_env_vars` without override.
   */
  lemma ApplyConfigEnvironment(members: seq<(string, Json)>, s: SettingsValue, vars: map<string, string>)
    ensures var r := ApplyConfigSpec(JObject(members), s, vars);
            var env := Get(members, "env");
            && (r.raised.Some? <==> env.Some? && !env.value.JObject?)
            && (r.raised.Some? ==> r.raised == Some(Builtin("AttributeError")) && r.vars == vars)
            && (env.Some? && env.value.JObject? ==> r.vars == SetEnvVarsSpec(env.value.members, false, vars).vars)
            && (env.None? ==> r.vars == vars)
  {
  }

  /** The `debug` step of `apply_config`, on the settings object. */
  method ApplyDebugTo(debug: Option<Json>, settings: Settings, sink: Sink)
    modifies settings, sink
    ensures var (s1, notice) := ApplyDebug(debug, old(settings.Value()));
            settings.Value() == s1 && sink.events == old(sink.events) + notice
  {
    match debug {
      case Some(v) =>
        settings.debug := Truthy(v);
        sink.Emit(Info("Set debug = " + BoolStr(settings.debug)));
      case None =>
    }
  }

  /** The `app_name` step of `apply_config`, on the settings object. */
  method ApplyAppNameTo(appName: Option<Json>, settings: Settings, sink: Sink)
    modifies settings, sink
    ensures var (s2, notice) := ApplyAppName(appName, old(settings.Value()));
            settings.Value() == s2 && sink.events == old(sink.events) + notice
  {
    match appName {
      case Some(v) =>
        settings.appName := Str(v);
        sink.Emit(Info("Set app_name = " + settings.appName));
      case None =>
    }
  }

  /** The `run_on_start` step of `apply_config`. */
  method RunOnStartWith(runOnStart: Option<Json>, settings: Settings, sink: Sink)
    modifies sink
    ensures sink.events == old(sink.events) + RunOnStart(runOnStart, settings.Value())
  {
    if runOnStart == Some(JStr("listaccounts")) {
      var listed := Account.ListAccounts(settings.Value(), "");
      sink.EmitAll(listed.events);
    }
  }

  /** The `env` step of `apply_config`, on the environment. */
  method ApplyEnvTo(env: Option<Json>, environ: Environ, sink: Sink) returns (raised: Option<Exc>)
    modifies environ, sink
    ensures var (update, r) := ApplyEnv(env, old(environ.vars));
            environ.vars == update.vars && sink.events == old(sink.events) + update.notices && raised == r
  {
    match env {
      case Some(JObject(items)) =>
        SetEnvVars(items, false, environ, sink);
        raised := None;
      case Some(_) =>
        assert sink.events == old(sink.events) + [];
        raised := Some(Builtin("AttributeError"));
      case None =>
        assert sink.events == old(sink.events) + [];
        raised := None;
    }
  }

  /** `apply_config(config, settings)`: updates the settings and the environment in place. */
  method ApplyConfig(config: Json, settings: Settings, environ: Environ, sink: Sink) returns (raised: Option<Exc>)
    modifies settings, environ, sink
    ensures var r := ApplyConfigSpec(config, old(settings.Value()), old(environ.vars));
            && settings.Value() == r.settings && environ.vars == r.vars
            && sink.events == old(sink.events) + r.events && raised == r.raised
  {
    if !config.JObject? {
      raised := Some(NotADictError(config));
      return;
    }
    var k := LookUp(config.members);
    ghost var s0, vars0, events0 := settings.Value(), environ.vars, sink.events;
    ApplyDebugTo(k.debug, settings, sink);
    ghost var (s1, debugNotice) := ApplyDebug(k.debug, s0);
    ApplyAppNameTo(k.appName, settings, sink);
    ghost var (s2, nameNotice) := ApplyAppName(k.appName, s1);
    AppendAssociative(events0, debugNotice, nameNotice);
    raised := ApplyEnvTo(k.env, environ, sink);
    ghost var env := ApplyEnv(k.env, vars0).0;
    AppendAssociative(events0, debugNotice + nameNotice, env.notices);
    ghost var emitted := debugNotice + nameNotice + env.notices;
    assert sink.events == events0 + emitted;
    if raised.Some? {
      return;
    }
    RunOnStartWith(k.runOnStart, settings, sink);
    AppendAssociative(events0, emitted, RunOnStart(k.runOnStart, s2));
  }

  lemma ApplyLookupsIdempotent(k: Lookups, s: SettingsValue, vars: map<string, string>)
    ensures var once := ApplyLookups(k, s, vars);
            var twice := ApplyLookups(k, once.settings, once.vars);
            twice.settings == once.settings && twice.vars == once.vars
  {
    match k.env
    case Some(JObject(items)) => SetEnvVarsIdempotent(items, vars);
    case _ =>
  }

  /** Applying a configuration a second time leaves settings and environment as the first time did. */
  lemma ApplyConfigIdempotent(config: Json, s: SettingsValue, vars: map<string, string>)
    ensures var once := ApplyConfigSpec(config, s, vars);
            var twice := ApplyConfigSpec(config, once.settings, once.vars);
            twice.settings == once.settings && twice.vars == once.vars
  {
    if config.JObject? {
      ApplyLookupsIdempotent(LookUp(config.members), s, vars);
    }
  }

  /** Notices followed by the startup command's output hold as many tables as that output. */
  lemma NoticesThenRun(debugNotice: seq<Event>, nameNotice: seq<Event>, notices: seq<Event>, run: seq<Event>)
    requires forall i :: 0 <= i < |debugNotice| ==> debugNotice[i].Info?
    requires forall i :: 0 <= i < |nameNotice| ==> nameNotice[i].Info?
    requires forall i :: 0 <= i < |notices| ==> notices[i].Info?
    ensures TableCount(debugNotice + nameNotice + notices + run) == TableCount(run)
  {
    NoticesHoldNoTable(debugNotice);
    NoticesHoldNoTable(nameNotice);
    NoticesHoldNoTable(notices);
    TableCountAppend(debugNotice, nameNotice);
    TableCountAppend(debugNotice + nameNotice, notices);
    TableCountAppend(debugNotice + nameNotice + notices, run);
  }

  /** On a normal return, every table shown comes from the startup command. */
  lemma ReturnedTables(k: Lookups, s: SettingsValue, vars: map<string, string>)
    requires ApplyLookups(k, s, vars).raised.None?
    ensures TableCount(ApplyLookups(k, s, vars).events) ==
              TableCount(RunOnStart(k.runOnStart, ApplyAppName(k.appName, ApplyDebug(k.debug, s).0).0))
  {
    var (s1, debugNotice) := ApplyDebug(k.debug, s);
    var (s2, nameNotice) := ApplyAppName(k.appName, s1);
    if k.env.Some? && k.env.value.JObject? {
      SetEnvVarsNotices(k.env.value.members, false, vars);
    }
    NoticesThenRun(debugNotice, nameNotice, ApplyEnv(k.env, vars).0.notices, RunOnStart(k.runOnStart, s2));
  }

  /**
   * When `apply_config` returns normally, `list_accounts` ran exactly once
   * if `run_on_start` is the string "listaccounts", and not at all otherwise.
   */
  lemma ApplyConfigRunsListAccounts(config: Json, s: SettingsValue, vars: map<string, string>)
    requires config.JObject? && ApplyConfigSpec(config, s, vars).raised.None?
    ensures TableCount(ApplyConfigSpec(config, s, vars).events) ==
              if Get(config.members, "run_on_start") == Some(JStr("listaccounts")) then 1 else 0
  {
    var k := LookUp(config.members);
    ReturnedTables(k, s, vars);
    var run := RunOnStart(k.runOnStart, ApplyAppName(k.appName, ApplyDebug(k.debug, s).0).0);
    assert TableCount(run) == if k.runOnStart == Some(JStr("listaccounts")) then 1 else 0;
  }

  /** Keys other than debug, app_name, env and run_on_start make no difference. */
  lemma ApplyConfigIgnoresOtherKeys(a: seq<(string, Json)>, b: seq<(string, Json)>, s: SettingsValue, vars: map<string, string>)
    requires Get(a, "debug") == Get(b, "debug") && Get(a, "app_name") == Get(b, "app_name")
    requires Get(a, "env") == Get(b, "env") && Get(a, "run_on_start") == Get(b, "run_on_start")
    ensures ApplyConfigSpec(JObject(a), s, vars) == ApplyConfigSpec(JObject(b), s, vars)
  {
    assert LookUp(a) == LookUp(b);
  }

  // -------------------------------------------------------- load_config_file

  /** What `open(path)` followed by `json.load` gives: a document, a decode error, or an exception from `open`. */
  datatype FileRead = Decoded(data: Json) | InvalidJson(detail: string) | OpenFailed(kind: string)

  /**
   * `load_config_file(path, settings)`, where `fileExists` is
   * `os.path.exists(path)` and `read` is what reading the file would give.
   */
  function LoadConfigSpec(path: string, fileExists: bool, read: FileRead, s: SettingsValue, vars: map<string, string>): (r: Applied)
    ensures !fileExists ==>
              r == Applied(s, vars, [Error("Config file not found: " + path)], Some(CommandError("Missing config file")))
    ensures fileExists && read.InvalidJson? ==>
              r == Applied(s, vars, [Error("Invalid JSON in config: " + read.detail)], Some(CommandError("Malformed JSON config")))
    ensures fileExists && read.OpenFailed? ==> r == Applied(s, vars, [], Some(Builtin(read.kind)))
    ensures fileExists && read.Decoded? && ApplyConfigSpec(read.data, s, vars).raised.Some? ==>
              r == ApplyConfigSpec(read.data, s, vars)
    ensures r.raised.Some? && r.raised.value.CommandError? ==> r.settings == s && r.vars == vars
    ensures r.raised.None? <==> fileExists && read.Decoded? && ApplyConfigSpec(read.data, s, vars).raised.None?
    ensures r.raised.None? ==>
              var applied := ApplyConfigSpec(read.data, s, vars);
              r.settings == applied.settings && r.vars == applied.vars &&
              r.events == applied.events + [Success("Loaded config from " + path)]
  {
    if !fileExists then
      Applied(s, vars, [Error("Config file not found: " + path)], Some(CommandError("Missing config file")))
    else
      match read
      case InvalidJson(detail) =>
        Applied(s, vars, [Error("Invalid JSON in config: " + detail)], Some(CommandError("Malformed JSON config")))
      case OpenFailed(kind) => Applied(s, vars, [], Some(Builtin(kind)))
      case Decoded(data) =>
        var applied := ApplyConfigSpec(data, s, vars);
        if applied.raised.Some? then applied
        else applied.(events := applied.events + [Success("Loaded config from " + path)])
  }

  /** `load_config_file(path, settings)` */
  method LoadConfigFile(path: string, fileExists: bool, read: FileRead, settings: Settings, environ: Environ, sink: Sink)
    returns (raised: Option<Exc>)
    modifies settings, environ, sink
    ensures var r := LoadConfigSpec(path, fileExists, read, old(settings.Value()), old(environ.vars));
            && settings.Value() == r.settings && environ.vars == r.vars
            && sink.events == old(sink.events) + r.events && raised == r.raised
  {
    if !fileExists {
      sink.Emit(Error("Config file not found: " + path));
      raised := Some(CommandError("Missing config file"));
      return;
    }
    match read {
      case InvalidJson(detail) =>
        sink.Emit(Error("Invalid JSON in config: " + detail));
        raised := Some(CommandError("Malformed JSON config"));
        return;
      case OpenFailed(kind) =>
        raised := Some(Builtin(kind));
        return;
      case Decoded(data) =>
        raised := ApplyConfig(data, settings, environ, sink);
        if raised.None? {
          sink.Emit(Success("Loaded config from " + path));
        }
    }
  }

  /** Loading the same file twice gives the settings and environment of loading it once. */
  lemma LoadConfigIdempotent(path: string, fileExists: bool, read: FileRead, s: SettingsValue, vars: map<string, string>)
    ensures var once := LoadConfigSpec(path, fileExists, read, s, vars);
            var twice := LoadConfigSpec(path, fileExists, read, once.settings, once.vars);
            twice.settings == once.settings && twice.vars == once.vars
  {
    if fileExists && read.Decoded? {
      ApplyConfigIdempotent(read.data, s, vars);
    }
  }
}
