/** Point-in-time reads: an account as of a cutoff is replayed from the stored fills, in
    whatever physical order the table returns them. */
module AsOf {
  import opened Wrappers
  import opened DecimalPolicy
  import opened ExecutionModels
  import opened Accounting
  import opened TradeProjection
  import opened LedgerInvariant
  import opened LedgerHistory
  import opened Repository
  import opened Sorting

  function KnownAt(cutoff: Time): ExecutionEvent -> bool {
    (e: ExecutionEvent) => e.receivedAt <= cutoff
  }

  /** WHERE received_at <= cutoff. */
  function ReceivedBy(rows: seq<ExecutionEvent>, cutoff: Time): seq<ExecutionEvent> {
    Filter(KnownAt(cutoff), rows)
  }

  predicate Before(a: ExecutionEvent, b: ExecutionEvent) {
    a.filledAt < b.filledAt || (a.filledAt == b.filledAt && a.sequence <= b.sequence)
  }

  /** ORDER BY filled_at, execution_sequence. */
  function OrderBy(rows: seq<ExecutionEvent>): seq<ExecutionEvent> {
    Sort(Before, rows)
  }

  /** Number of fills received by the cutoff. */
  function Known(fills: seq<ExecutionEvent>, cutoff: Time): nat {
    |ReceivedBy(fills, cutoff)|
  }

  lemma {:induction false} AllReceived(fills: seq<ExecutionEvent>, cutoff: Time)
    requires forall i :: 0 <= i < |fills| ==> fills[i].receivedAt <= cutoff
    ensures ReceivedBy(fills, cutoff) == fills
    decreases |fills|
  {
    if fills != [] {
      var n := |fills| - 1;
      AllReceived(fills[..n], cutoff);
      assert fills == fills[..n] + [fills[n]];
    }
  }

  /** Receipts grow, so what was received by a cutoff is a prefix of the ledger. */
  lemma {:induction false} ReceivedPrefix(fills: seq<ExecutionEvent>, cutoff: Time)
    requires forall i, j :: 0 <= i < j < |fills| ==> fills[i].receivedAt <= fills[j].receivedAt
    ensures Known(fills, cutoff) <= |fills|
    ensures ReceivedBy(fills, cutoff) == fills[..Known(fills, cutoff)]
    ensures forall i :: 0 <= i < |fills| ==> (fills[i].receivedAt <= cutoff <==> i < Known(fills, cutoff))
    decreases |fills|
  {
    if fills != [] {
      var n := |fills| - 1;
      if fills[n].receivedAt <= cutoff {
        AllReceived(fills, cutoff);
      } else {
        var init := fills[..n];
        ReceivedPrefix(init, cutoff);
        assert ReceivedBy(fills, cutoff) == ReceivedBy(init, cutoff);
        assert fills[..Known(init, cutoff)] == init[..Known(init, cutoff)];
        forall i | 0 <= i < |fills| ensures fills[i].receivedAt <= cutoff <==> i < Known(fills, cutoff) {
          assert i < n ==> init[i] == fills[i];
        }
      }
    }
  }

  // ---- the read --------------------------------------------------------------------

  ghost predicate HaveOrders(rows: seq<ExecutionEvent>, orders: map<Id, OrderRow>) {
    forall i :: 0 <= i < |rows| ==> rows[i].orderId in orders
  }

  /** Fold of `apply_fill` over stored rows, each with its order's frozen profile and plan. */
  function Fold(divide: (real, real) -> real, origin: Account, rows: seq<ExecutionEvent>,
                orders: map<Id, OrderRow>): Result<Account, Fault>
    requires HaveOrders(rows, orders)
  {
    if rows == [] then Ok(EmptyProjection(origin))
    else
      var last := rows[|rows| - 1];
      var row := orders[last.orderId];
      var state :- Fold(divide, origin, rows[..|rows| - 1], orders);
      ApplyFill(divide, state, last, row.profile, row.order.intent.planReference)
  }

  lemma {:induction false} OrderByHaveOrders(table: seq<ExecutionEvent>, orders: map<Id, OrderRow>, cutoff: Time)
    requires HaveOrders(table, orders)
    ensures HaveOrders(OrderBy(ReceivedBy(table, cutoff)), orders)
  {
    var rows := ReceivedBy(table, cutoff);
    SortSorts(Before, rows);
    forall i | 0 <= i < |OrderBy(rows)| ensures OrderBy(rows)[i].orderId in orders {
      var e := OrderBy(rows)[i];
      assert e in multiset(OrderBy(rows));
      FilterKeeps(KnownAt(cutoff), table, e);
      assert e in table;
    }
  }

  /** `get_account(as_of)`; None for a cutoff before the account existed. */
  function AccountAsOf(divide: (real, real) -> real, l: Ledger, table: seq<ExecutionEvent>, cutoff: Time)
    : Option<Result<Account, Fault>>
    requires HaveOrders(table, l.orders)
  {
    if cutoff < l.account.createdAt then None
    else
      OrderByHaveOrders(table, l.orders, cutoff);
      Some(Fold(divide, l.account, OrderBy(ReceivedBy(table, cutoff)), l.orders))
  }

  /** The replay loop of the read. */
  method ReplayLoop(divide: (real, real) -> real, origin: Account, rows: seq<ExecutionEvent>, orders: map<Id, OrderRow>)
    returns (r: Result<Account, Fault>)
    requires HaveOrders(rows, orders)
    ensures r == Fold(divide, origin, rows, orders)
  {
    var state := EmptyProjection(origin);
    for i := 0 to |rows|
      invariant Fold(divide, origin, rows[..i], orders) == Ok(state)
    {
      assert rows[..i + 1][..i] == rows[..i];
      FoldFailure(divide, origin, rows, orders, i + 1);
      var row := orders[rows[i].orderId];
      var next := ApplyFill(divide, state, rows[i], row.profile, row.order.intent.planReference);
      if next.Err? {
        return next;
      }
      state := next.value;
    }
    assert rows[..|rows|] == rows;
    return Ok(state);
  }

  lemma {:induction false} FoldFailure(divide: (real, real) -> real, origin: Account, rows: seq<ExecutionEvent>,
                                       orders: map<Id, OrderRow>, k: nat)
    requires HaveOrders(rows, orders) && k <= |rows|
    ensures Fold(divide, origin, rows[..k], orders).Err? ==>
      Fold(divide, origin, rows, orders) == Fold(divide, origin, rows[..k], orders)
    decreases |rows|
  {
    hide ApplyFill;
    if k < |rows| {
      var init := rows[..|rows| - 1];
      FoldFailure(divide, origin, init, orders, k);
      assert init[..k] == rows[..k];
    } else {
      assert rows[..k] == rows;
    }
  }

  // ---- the read is history ---------------------------------------------------------

  /** The stored fill's units are still representable on its instrument. */
  predicate UnitsHold(l: Ledger, i: nat)
    requires FillsHaveOrders(l) && i < |l.fills|
  {
    var input := InputAt(l, i);
    ValidateUnits(input.profile, Some(input.event.price), input.event.quantity).None?
  }

  lemma {:induction false} ScopeHolds(divide: (real, real) -> real, s: Account, input: Input)
    requires Settle(divide, s, input.event, input.profile, input.plan).Ok?
    ensures var units := ValidateUnits(input.profile, Some(input.event.price), input.event.quantity);
      ApplyFill(divide, s, input.event, input.profile, input.plan)
        == if units.Some? then Err(units.value) else Settle(divide, s, input.event, input.profile, input.plan)
  {
    hide Move, Book, ValidateUnits;
  }

  /** One step of the comparison between the checked fold and the ledger. */
  lemma {:induction false} FoldStep(divide: (real, real) -> real, origin: Account, l: Ledger, k: nat)
    requires ProjectsFills(divide, origin, l) && 0 < k <= |l.fills|
    requires Run(divide, origin, InputsOf(l)[..k - 1]).Ok? && Run(divide, origin, InputsOf(l)[..k]).Ok?
    requires Fold(divide, l.account, l.fills[..k - 1], l.orders) == Ok(Run(divide, origin, InputsOf(l)[..k - 1]).value.0)
    ensures var r := Fold(divide, l.account, l.fills[..k], l.orders);
      && (r.Ok? <==> UnitsHold(l, k - 1))
      && (r.Ok? ==> r.value == Run(divide, origin, InputsOf(l)[..k]).value.0)
  {
    hide ApplyFill, Settle, ValidateUnits, Run;
    var inputs := InputsOf(l);
    assert inputs[..k][..k - 1] == inputs[..k - 1];
    assert l.fills[..k][..k - 1] == l.fills[..k - 1];
    RunStep(divide, origin, inputs[..k]);
    ScopeHolds(divide, Run(divide, origin, inputs[..k - 1]).value.0, inputs[k - 1]);
    assert inputs[k - 1] == InputAt(l, k - 1);
  }

  lemma {:induction false} RunStep(divide: (real, real) -> real, origin: Account, inputs: seq<Input>)
    requires inputs != [] && Run(divide, origin, inputs).Ok?
    ensures var init, last := inputs[..|inputs| - 1], inputs[|inputs| - 1];
      && Run(divide, origin, init).Ok?
      && Settle(divide, Run(divide, origin, init).value.0, last.event, last.profile, last.plan)
         == Ok(Run(divide, origin, inputs).value.0)
  {
    hide Settle, MemberOf;
  }

  /** Folding a prefix of the ledger reaches the state the ledger held then, unless some
      stored fill in it is no longer representable. */
  lemma {:induction false} FoldPrefix(divide: (real, real) -> real, origin: Account, l: Ledger, k: nat)
    requires ProjectsFills(divide, origin, l) && k <= |l.fills|
    requires EmptyProjection(l.account) == EmptyProjection(origin)
    ensures Run(divide, origin, InputsOf(l)[..k]).Ok?
    ensures var r := Fold(divide, l.account, l.fills[..k], l.orders);
      && (r.Ok? <==> forall i :: 0 <= i < k ==> UnitsHold(l, i))
      && (r.Ok? ==> r.value == Run(divide, origin, InputsOf(l)[..k]).value.0)
    decreases k
  {
    hide ApplyFill, Settle, UnitsHold, MemberOf, LedgerOk;
    RunPrefix(divide, origin, InputsOf(l), k);
    if k > 0 {
      FoldPrefix(divide, origin, l, k - 1);
      if Fold(divide, l.account, l.fills[..k - 1], l.orders).Ok? {
        FoldStep(divide, origin, l, k);
      } else {
        assert l.fills[..k][..k - 1] == l.fills[..k - 1];
      }
    }
  }

  lemma {:induction false} LedgerSorted(divide: (real, real) -> real, origin: Account, l: Ledger)
    requires ProjectsFills(divide, origin, l)
    ensures forall i, j :: 0 <= i < j < |l.fills| ==>
      l.fills[i].receivedAt <= l.fills[j].receivedAt && l.fills[i].sequence < l.fills[j].sequence
      && l.fills[i].filledAt <= l.fills[j].filledAt
  {
    hide Run;
    var inputs := InputsOf(l);
    RunInOrder(divide, origin, inputs);
    forall i, j | 0 <= i < j < |l.fills|
      ensures l.fills[i].receivedAt <= l.fills[j].receivedAt && l.fills[i].sequence < l.fills[j].sequence
           && l.fills[i].filledAt <= l.fills[j].filledAt
    {
      assert inputs[i] == InputAt(l, i) && inputs[j] == InputAt(l, j);
    }
  }

  /** The query returns the prefix of the ledger received by the cutoff. */
  lemma {:induction false} QueryIsPrefix(fills: seq<ExecutionEvent>, table: seq<ExecutionEvent>, cutoff: Time)
    requires forall i, j :: 0 <= i < j < |fills| ==>
      fills[i].receivedAt <= fills[j].receivedAt && fills[i].sequence < fills[j].sequence && fills[i].filledAt <= fills[j].filledAt
    requires multiset(table) == multiset(fills)
    ensures var k := Known(fills, cutoff);
      && k <= |fills|
      && (forall i :: 0 <= i < |fills| ==> (fills[i].receivedAt <= cutoff <==> i < k))
      && OrderBy(ReceivedBy(table, cutoff)) == fills[..k]
  {
    ReceivedPrefix(fills, cutoff);
    QueryRows(Before, KnownAt(cutoff), table, fills);
  }

  /** Admission never changes whose account it is. */
  lemma {:induction false} SameOrigin(divide: (real, real) -> real, origin: Account, l: Ledger)
    requires LedgerInv(divide, origin, l)
    ensures EmptyProjection(l.account) == EmptyProjection(origin)
  {
    hide Run;
    InputsDistinct(l);
    ReachableOk(divide, origin, InputsOf(l));
  }

  /** As-of replay is history. For every ledger and cutoff, and whatever order the table
      returns its rows in, the read succeeds exactly when every fill received by the cutoff
      is still representable in its stored form, and then it is the account as it stood
      after the last fill received by the cutoff. */
  lemma {:induction false} AsOfIsHistory(divide: (real, real) -> real, origin: Account, l: Ledger,
                                         table: seq<ExecutionEvent>, cutoff: Time)
    requires LedgerInv(divide, origin, l)
    requires HaveOrders(table, l.orders) && multiset(table) == multiset(l.fills)
    requires cutoff >= l.account.createdAt
    ensures var k := Known(l.fills, cutoff);
      && k <= |l.fills|
      && (forall i :: 0 <= i < |l.fills| ==> (l.fills[i].receivedAt <= cutoff <==> i < k))
      && Run(divide, origin, InputsOf(l)[..k]).Ok?
      && var r := AccountAsOf(divide, l, table, cutoff).value;
         && (r.Ok? <==> forall i :: 0 <= i < k ==> UnitsHold(l, i))
         && (r.Ok? ==> r.value == Run(divide, origin, InputsOf(l)[..k]).value.0)
  {
    hide Run, Fold, UnitsHold, OrderBy, ReceivedBy, Known;
    SameOrigin(divide, origin, l);
    LedgerSorted(divide, origin, l);
    QueryIsPrefix(l.fills, table, cutoff);
    FoldPrefix(divide, origin, l, Known(l.fills, cutoff));
  }

  /** The representation condition is not vacuous. A quantity written 1E+1 passes a profile
      of one significant digit and is settled; stored as 10 it has two, and the replay of
      the same fill is refused. */
  lemma {:induction false} ExponentNotationBreaksReplay(divide: (real, real) -> real)
    ensures var profile := InstrumentProfile("R", "S", 1.0, 1.0, 1.0, 0, 1);
      var origin := Account("A", "X", 100.0, 100.0, 0, Some(0), 0, None, [], []);
      var fill := ExecutionEvent("e", "X", "A", "o", "x", "f", "S", "R", Buy, Decimal(1, 0), Decimal(1, 1), [0.0], 1, 1, 1);
      && ApplyFill(divide, origin, fill, profile, None).Ok?
      && ApplyFill(divide, origin, Stored(fill), profile, None) == Err(UnsupportedUnits)
      && !DigitsSurvive(profile, fill)
  {
    var profile := InstrumentProfile("R", "S", 1.0, 1.0, 1.0, 0, 1);
    var origin := Account("A", "X", 100.0, 100.0, 0, Some(0), 0, None, [], []);
    var fill := ExecutionEvent("e", "X", "A", "o", "x", "f", "S", "R", Buy, Decimal(1, 0), Decimal(1, 1), [0.0], 1, 1, 1);
    SmallNumbers();
    StoredValues(fill);
    assert ValidateUnits(profile, Some(fill.price), fill.quantity).None? by {
      hide Scaled, Digits;
    }
    assert Settle(divide, origin, fill, profile, None).Ok? by {
      hide Scaled, Digits;
      assert Notional(fill) == 10.0;
      assert TotalFee(fill) == 0.0;
    }
    assert ValidateUnits(profile, Some(Stored(fill).price), Stored(fill).quantity) == Some(UnsupportedUnits) by {
      hide Scaled, Digits;
    }
  }

  lemma {:induction false} SmallNumbers()
    ensures Val(Decimal(1, 0)) == 1.0 && Val(Decimal(1, 1)) == 10.0
    ensures Normalize(Decimal(1, 0)) == Decimal(1, 0) && Normalize(Decimal(1, 1)) == Decimal(10, 0)
    ensures Width(Decimal(1, 0)) == 1 && Width(Decimal(1, 1)) == 1 && Width(Decimal(10, 0)) == 2
    ensures IsMultiple(1.0, 1.0) && IsMultiple(10.0, 1.0)
  {
    assert Pow(10, 0) == 1 && Pow(10, 1) == 10;
    assert (1.0 / 1.0).Floor == 1 && (10.0 / 1.0).Floor == 10;
  }
}
