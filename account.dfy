/**
 * mycliapp/commands/account.py: the fixed account table, the flag schemas
 * of `addmoney` and `transfer`, and their handlers, each a case analysis
 * from how `parse_args` ended to the messages emitted and the exception
 * raised. No handler touches account data: their only effect is output.
 */
module Account {
  import opened Python
  import opened ArgParse
  import opened Output
  import opened AppSettings

  const AccountTitle := "Accounts"
  const AccountColumns: seq<string> := ["ID", "Type", "Balance"]
  const AccountRows: seq<seq<string>> := [["123", "Checking", "$500.00"], ["456", "Savings", "$1200.00"]]

  /** `list_accounts(settings, args)`: ignores both arguments and shows the fixed table, one cell per column. */
  function ListAccounts(settings: SettingsValue, args: string): (o: Outcome)
    ensures o.raised.None? && o.events == [Table(AccountTitle, AccountColumns, AccountRows)]
    ensures TableCount(o.events) == 1
    ensures forall row :: row in o.events[0].rows ==> |row| == |o.events[0].columns|
  {
    Outcome([Table(AccountTitle, AccountColumns, AccountRows)], None)
  }

  /** The message both handlers raise when argparse exits without a help flag. */
  const HelpHint := "Invalid arguments: use 'help addmoney' for details"

  // ---------------------------------------------------------------- addmoney

  /** `get_add_parser()` */
  function GetAddParser(): (s: Schema)
    ensures s.prog == "addmoney"
    ensures Options(s) == ["-account", "-amount"]
    ensures Dests(s) == ["account", "amount"]
    ensures forall i :: 0 <= i < |s.flags| ==> s.flags[i].required
    ensures s.flags[0].kind == AsString && s.flags[1].kind == AsFloat
  {
    var s := Schema("addmoney", "Add money to an account.",
                    [Flag("-account", None, true, AsString), Flag("-amount", None, true, AsFloat)]);
    assert LStripDashes("-account") == "account";
    assert LStripDashes("-amount") == "amount";
    assert Underscored("account") == "account";
    assert Underscored("amount") == "amount";
    s
  }

  /** The namespace of a successful addmoney parse, as named fields. */
  datatype AddArgs = AddArgs(account: string, amount: Amount)

  function AddNamespace(a: AddArgs): Namespace {
    map["account" := StrVal(a.account), "amount" := NumVal(a.amount)]
  }

  /** Every AddArgs is a namespace the addmoney schema accepts, and every accepted namespace is one. */
  lemma AddArgsAreAddNamespaces(a: AddArgs, ns: Namespace)
    ensures Conforms(GetAddParser(), AddNamespace(a))
    ensures Conforms(GetAddParser(), ns) ==> exists b :: ns == AddNamespace(b)
  {
    var s := GetAddParser();
    var dests := Dests(s);
    assert dests[0] == "account" && dests[1] == "amount";
    if Conforms(s, ns) {
      assert Fits(s.flags[0], ns[dests[0]]) && Fits(s.flags[1], ns[dests[1]]);
      var b := AddArgs(ns["account"].text, ns["amount"].amount);
      assert ns == AddNamespace(b);
    }
  }

  /** `add_money(settings, args)`, where `parse` is `get_add_parser().parse_args`. */
  function AddMoney(args: seq<string>, parse: seq<string> -> ParseResult<AddArgs>): (o: Outcome)
    ensures parse(args).Parsed? ==>
              var a := parse(args).record;
              o.raised.None? && o.events == [Success("Added $" + a.amount.shown + " to account " + a.account)]
    ensures parse(args).Exit? ==>
              o.events == [] && o.raised == Some(if HelpRequested(args) then SystemExit(parse(args).code) else CommandError(HelpHint))
    ensures parse(args).Rejected? ==>
              o.events == [] && o.raised == Some(CommandError("Invalid arguments: " + parse(args).reason))
  {
    match parse(args)
    case Parsed(a) => Outcome([Success("Added $" + a.amount.shown + " to account " + a.account)], None)
    case Exit(code) =>
      if HelpRequested(args) then Outcome([], Some(SystemExit(code)))
      else Outcome([], Some(CommandError(HelpHint)))
    case Rejected(reason) => Outcome([], Some(CommandError("Invalid arguments: " + reason)))
  }

  // ---------------------------------------------------------------- transfer

  /** `get_transfer_parser()` */
  function GetTransferParser(): (s: Schema)
    ensures s.prog == "transfer"
    ensures Options(s) == ["-from", "-to", "-amount", "--note"]
    ensures Dests(s) == ["source", "destination", "amount", "note"]
    ensures forall i :: 0 <= i < |s.flags| ==> (s.flags[i].required <==> i < 3)
    ensures forall i :: 0 <= i < |s.flags| ==> (s.flags[i].kind == AsFloat <==> i == 2)
  {
    var s := Schema("transfer", "Transfer funds between accounts.",
                    [Flag("-from", Some("source"), true, AsString),
                     Flag("-to", Some("destination"), true, AsString),
                     Flag("-amount", None, true, AsFloat),
                     Flag("--note", None, false, AsString)]);
    assert LStripDashes("-amount") == "amount";
    assert LStripDashes("--note") == "note";
    assert Underscored("amount") == "amount";
    assert Underscored("note") == "note";
    s
  }

  /** The namespace of a successful transfer parse; `note` is None unless `--note` was given. */
  datatype TransferArgs = TransferArgs(source: string, destination: string, amount: Amount, note: Option<string>)

  function TransferNamespace(t: TransferArgs): Namespace {
    map["source" := StrVal(t.source), "destination" := StrVal(t.destination), "amount" := NumVal(t.amount),
        "note" := if t.note.Some? then StrVal(t.note.value) else NoneVal]
  }

  /** The transfer schema's shape: its attributes in order, which are required and which are floats. */
  ghost predicate TransferShaped(s: Schema) {
    && Dests(s) == ["source", "destination", "amount", "note"]
    && (forall i :: 0 <= i < |s.flags| ==> (s.flags[i].required <==> i < 3))
    && (forall i :: 0 <= i < |s.flags| ==> (s.flags[i].kind == AsFloat <==> i == 2))
  }

  lemma TransferShapedAccepts(s: Schema, t: TransferArgs)
    requires TransferShaped(s)
    ensures Conforms(s, TransferNamespace(t))
  {
    assert |s.flags| == |Dests(s)| == 4;
    assert Fits(s.flags[3], TransferNamespace(t)["note"]);
  }

  lemma TransferShapedOnly(s: Schema, ns: Namespace)
    requires TransferShaped(s) && Conforms(s, ns)
    ensures exists u :: ns == TransferNamespace(u)
  {
    var dests := Dests(s);
    assert |s.flags| == |dests| == 4;
    assert Fits(s.flags[0], ns[dests[0]]) && Fits(s.flags[1], ns[dests[1]]);
    assert Fits(s.flags[2], ns[dests[2]]) && Fits(s.flags[3], ns[dests[3]]);
    var u := TransferArgs(ns["source"].text, ns["destination"].text, ns["amount"].amount,
                          if ns["note"].StrVal? then Some(ns["note"].text) else None);
    assert ns == TransferNamespace(u);
  }

  /** Every TransferArgs is a namespace the transfer schema accepts, and every accepted namespace is one. */
  lemma TransferArgsAreTransferNamespaces(t: TransferArgs, ns: Namespace)
    ensures Conforms(GetTransferParser(), TransferNamespace(t))
    ensures Conforms(GetTransferParser(), ns) ==> exists u :: ns == TransferNamespace(u)
  {
    TransferShapedAccepts(GetTransferParser(), t);
    if Conforms(GetTransferParser(), ns) {
      TransferShapedOnly(GetTransferParser(), ns);
    }
  }

  /** `transfer_funds(settings, args)`, where `parse` is `get_transfer_parser().parse_args`. */
  function TransferFunds(args: seq<string>, parse: seq<string> -> ParseResult<TransferArgs>): (o: Outcome)
    ensures parse(args).Parsed? ==>
              var t := parse(args).record;
              && o.raised.None? && 1 <= |o.events| <= 2
              && o.events[0] == Success("Transferred $" + t.amount.shown + " from " + t.source + " to " + t.destination)
              && (|o.events| == 2 <==> t.note.Some? && t.note.value != "")
              && (|o.events| == 2 ==> o.events[1] == Info("Note: " + t.note.value))
    ensures parse(args).Exit? ==>
              o.events == [] && o.raised == Some(if HelpRequested(args) then SystemExit(parse(args).code) else CommandError(HelpHint))
    ensures parse(args).Rejected? ==>
              o.events == [] && o.raised == Some(CommandError("Invalid arguments: " + parse(args).reason))
  {
    match parse(args)
    case Parsed(t) =>
      var done := Success("Transferred $" + t.amount.shown + " from " + t.source + " to " + t.destination);
      if t.note.Some? && t.note.value != "" then Outcome([done, Info("Note: " + t.note.value)], None)
      else Outcome([done], None)
    case Exit(code) =>
      if HelpRequested(args) then Outcome([], Some(SystemExit(code)))
      else Outcome([], Some(CommandError(HelpHint)))
    case Rejected(reason) => Outcome([], Some(CommandError("Invalid arguments: " + reason)))
  }
}
