/** A filled order that takes another external identifier: its first receipt is UNKNOWN but names
    the order, a fill is admitted under that name, and a later receipt gives another one. */
module RenamedOrders {
  import opened Wrappers
  import opened DecimalPolicy
  import opened ExecutionModels
  import opened Accounting
  import opened Repository
  import opened AsOf
  import opened Gateway
  import opened Protocol
  import opened LostRequests
  import opened ClosedAccounts
  import opened FillOrders

  const CONFIG_PROFILES: map<Id, InstrumentProfile> := map["S" := PROFILE]

  const INTENT := OrderIntent("c", "S", Buy, OrderKind.Market, Decimal(1, 0), None, None)

  /** The order as submitted, and as its first receipt leaves it. */
  const FIRST := Order("o", INTENT, "R", 0, Unknown, None, None, false, None, Decimal(0, 0), None, None, None)
  const NAMED := FIRST.(externalOrderId := Some("x"))

  function Row(order: Order): map<Id, OrderRow> {
    map["o" := OrderRow(order, PROFILE, 1)]
  }

  const STEPS: seq<Step> := [
    SubmitStep(INTENT, "o", 0),
    ReconcileStep("o", Receipt(Unknown, Some("x"), None)),
    AdmitStep(BOUGHT, true),
    ReconcileStep("o", Receipt(Acknowledged, Some("y"), None))]

  lemma {:induction false} Submitted()
    ensures var l := Opening(ORIGIN).ledger;
      Submit(l, INTENT, CONFIG_PROFILES, "o", 0)
      == Ok(Gateway.Submitted("o", true, l.(orders := Row(FIRST), commandSequence := 1)))
  {
    SmallNumbers();
    hide Scaled, Digits, Normalize;
    var l := Opening(ORIGIN).ledger;
    assert !HasCommand(l.orders, "c");
    assert StoredIntent(INTENT) == INTENT;
    assert NewOrder(l, INTENT, PROFILE, "o", 0) == FIRST;
    assert ValidateUnits(PROFILE, None, INTENT.quantity).None?;
  }

  /** The account when the fill arrives. */
  function Waiting(): Ledger {
    Opening(ORIGIN).ledger.(orders := Row(NAMED), commandSequence := 1)
  }

  lemma {:induction false} Bought(divide: (real, real) -> real)
    ensures var r := Admit(divide, Waiting(), BOUGHT, PROFILE, true);
      && r.Ok? && r.value.1.fills == [BOUGHT] && r.value.1.orders.Keys == {"o"}
      && r.value.1.orders["o"].order.submissionStatus.Unknown? && r.value.1.orders["o"].order.externalOrderId == Some("x")
  {
    hide ApplyFill, MatchesOrder, StaleIntent, Val, Normalize, Add;
    OneApplies(divide, ORIGIN, PROFILE, BOUGHT);
    OneMatches(ORIGIN, PROFILE, BOUGHT);
    BoughtMatches();
  }

  lemma {:induction false} BoughtMatches()
    ensures MatchesOrder(NAMED, BOUGHT) && StaleIntent(Waiting().account, NAMED, BOUGHT).None?
    ensures Stored(BOUGHT) == BOUGHT
  {
    SmallNumbers();
    ZeroIs();
    hide Scaled, Normalize, Add;
    AddIsExact(Decimal(0, 0), Decimal(1, 0));
  }

  /** One run of one account, in which the last receipt renames the order of the only fill. */
  lemma {:induction false} FillIsRenamed(divide: (real, real) -> real) returns (worlds: seq<World>)
    ensures ConfigOk(Config(CONFIG_PROFILES, divide)) && Trace(Config(CONFIG_PROFILES, divide), worlds, STEPS)
    ensures worlds[0] == Opening(ORIGIN) && AllAgree(worlds[3].ledger) && !AllAgree(worlds[4].ledger)
  {
    hide Transition, Admit, WithReceipt;
    var c := Config(CONFIG_PROFILES, divide);
    var w0 := Opening(ORIGIN);
    var w1 := w0.(ledger := w0.ledger.(orders := Row(FIRST), commandSequence := 1), flight := multiset{Accepted("o")});
    var w2 := w1.(ledger := Waiting());
    Bought(divide);
    var w3 := w2.(ledger := Admit(divide, Waiting(), BOUGHT, PROFILE, true).value.1);
    var late := Receipt(Acknowledged, Some("y"), None);
    var w4 := w3.(ledger := PutOrder(w3.ledger, "o", WithReceipt(w3.ledger.orders["o"].order, late)));
    worlds := [w0, w1, w2, w3, w4];
    FirstStep(c, w1);
    NamedStep(c, w1, w2);
    FillStep(c, w2, w3);
    RenamingStep(c, w3, w4, late);
    CheckedName(w3.ledger.orders["o"].order, late);
    assert !Agrees(w4.ledger.orders, w4.ledger.fills[0]);
  }

  lemma {:induction false} FirstStep(c: Config, w: World)
    requires c.profiles == CONFIG_PROFILES
    requires w == World(Opening(ORIGIN).ledger.(orders := Row(FIRST), commandSequence := 1), map[], multiset{Accepted("o")}, [])
    ensures Transition(c, Opening(ORIGIN), STEPS[0], w)
  {
    hide Submit;
    Submitted();
  }

  lemma {:induction false} NamedStep(c: Config, w: World, w': World)
    requires w.ledger == Opening(ORIGIN).ledger.(orders := Row(FIRST), commandSequence := 1) && w' == w.(ledger := Waiting())
    ensures Transition(c, w, STEPS[1], w')
  {
    assert PutOrder(w.ledger, "o", WithReceipt(FIRST, Receipt(Unknown, Some("x"), None))) == Waiting();
  }

  lemma {:induction false} FillStep(c: Config, w: World, w': World)
    requires c.profiles == CONFIG_PROFILES && w.ledger == Waiting()
    requires Admit(c.divide, Waiting(), BOUGHT, PROFILE, true).Ok?
    requires w' == w.(ledger := Admit(c.divide, Waiting(), BOUGHT, PROFILE, true).value.1)
    ensures Transition(c, w, STEPS[2], w')
  {
    hide Admit;
  }

  lemma {:induction false} RenamingStep(c: Config, w: World, w': World, late: Receipt)
    requires late == Receipt(Acknowledged, Some("y"), None) && "o" in w.ledger.orders
    requires w' == w.(ledger := PutOrder(w.ledger, "o", WithReceipt(w.ledger.orders["o"].order, late)))
    ensures Transition(c, w, STEPS[3], w')
  {
    hide WithReceipt, PutOrder;
  }
}
