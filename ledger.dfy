/** The values a budget category is made of: ledger entries with amounts in
    integer cents, the sums the category and the spend chart take over them,
    and the ledger a history of deposits and withdrawals leaves behind. */
module Ledger {

  /** One ledger line: a signed amount in cents and its description. */
  datatype Entry = Entry(amount: int, description: string)

  /** A category as the spend chart sees it: its name and its ledger. */
  datatype Snapshot = Snapshot(name: string, ledger: seq<Entry>)

  /** The sum of every amount in the ledger. */
  function Balance(ledger: seq<Entry>): int
  {
    if ledger == [] then 0
    else Balance(ledger[..|ledger| - 1]) + ledger[|ledger| - 1].amount
  }

  /** The sum of the negative amounts only: what the spend chart counts as spending. */
  function Spent(ledger: seq<Entry>): (r: int)
    ensures r <= 0
  {
    if ledger == [] then 0
    else
      var last := ledger[|ledger| - 1].amount;
      Spent(ledger[..|ledger| - 1]) + (if last < 0 then last else 0)
  }

  /** The sum of the amounts that are not negative: what the spend chart leaves out. */
  function Received(ledger: seq<Entry>): (r: int)
    ensures r >= 0
  {
    if ledger == [] then 0
    else
      var last := ledger[|ledger| - 1].amount;
      Received(ledger[..|ledger| - 1]) + (if last < 0 then 0 else last)
  }

  /** The balance is additive over ledgers and a one-entry ledger's balance is
      its amount, so it is the sum of all amounts in whatever grouping. */
  lemma {:induction false} BalanceConcat(a: seq<Entry>, b: seq<Entry>)
    ensures Balance(a + b) == Balance(a) + Balance(b)
    ensures |b| == 1 ==> Balance(b) == b[0].amount
  {
    if b != [] {
      assert (a + b)[..|a + b| - 1] == a + b[..|b| - 1];
      BalanceConcat(a, b[..|b| - 1]);
    } else {
      assert a + b == a;
    }
  }

  /** Every amount is either spent or received: the balance splits into the
      two sums, so the chart's spending and the balance disagree exactly by
      what was deposited. */
  lemma {:induction false} BalanceIsReceivedPlusSpent(ledger: seq<Entry>)
    ensures Balance(ledger) == Received(ledger) + Spent(ledger)
    ensures Balance(ledger) <= Received(ledger)
  {
    if ledger != [] {
      BalanceIsReceivedPlusSpent(ledger[..|ledger| - 1]);
    }
  }

  /** Nothing was spent exactly when no entry is negative. */
  lemma {:induction false} NothingSpentIff(ledger: seq<Entry>)
    ensures Spent(ledger) == 0 <==> forall k :: 0 <= k < |ledger| ==> ledger[k].amount >= 0
  {
    if ledger != [] {
      var init := ledger[..|ledger| - 1];
      NothingSpentIff(init);
      assert forall k :: 0 <= k < |init| ==> init[k] == ledger[k];
    }
  }

  /** A ledger operation as a category performs it. */
  datatype Op = Deposit(amount: int, description: string) | Withdraw(amount: int, description: string)

  /** The ledger after `op`: a deposit is appended as it is, a withdrawal is
      appended negated when the balance covers it and otherwise not at all. */
  function Apply(ledger: seq<Entry>, op: Op): seq<Entry>
  {
    match op
    case Deposit(a, d) => ledger + [Entry(a, d)]
    case Withdraw(a, d) => if a <= Balance(ledger) then ledger + [Entry(-a, d)] else ledger
  }

  /** The ledger of a new category after the operations `ops`, in order. */
  function Replay(ops: seq<Op>): seq<Entry>
  {
    if ops == [] then [] else Apply(Replay(ops[..|ops| - 1]), ops[|ops| - 1])
  }

  /** Withdrawals never overdraw: as long as nothing negative is deposited, the
      balance after any history of deposits and withdrawals is non-negative. */
  lemma {:induction false} ReplayNeverOverdrawn(ops: seq<Op>)
    requires forall i :: 0 <= i < |ops| && ops[i].Deposit? ==> ops[i].amount >= 0
    ensures Balance(Replay(ops)) >= 0
  {
    if ops != [] {
      var before := Replay(ops[..|ops| - 1]);
      ReplayNeverOverdrawn(ops[..|ops| - 1]);
      var op := ops[|ops| - 1];
      if op.Deposit? || op.amount <= Balance(before) {
        var e := if op.Deposit? then Entry(op.amount, op.description) else Entry(-op.amount, op.description);
        assert Replay(ops) == before + [e];
        BalanceConcat(before, [e]);
      }
    }
  }
}
