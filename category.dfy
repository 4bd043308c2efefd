/** A budget category: a name and an append-only ledger that deposits,
    withdrawals and transfers grow in place. Withdrawals and outgoing transfers
    are admitted only when the balance covers them; a refused one changes nothing. */
module Budget {
  import opened Text
  import opened Ledger
  import opened Report

  class Category {
    /** The category's name (the attribute `budget` in budget.py); nothing reassigns it. */
    const name: string
    var ledger: seq<Entry>

    constructor (name: string)
      ensures this.name == name
      ensures ledger == [] && GetBalance() == 0
    {
      this.name := name;
      ledger := [];
    }

    /** The current balance: the sum of all ledger amounts, that is, what
        was received less what was spent. */
    function GetBalance(): (b: int)
      reads this
      ensures b == Received(ledger) + Spent(ledger)
      ensures b <= Received(ledger)
      ensures ledger == [] ==> b == 0
    {
      BalanceIsReceivedPlusSpent(ledger);
      Balance(ledger)
    }

    /** Whether `amount` may be taken out: exactly when recording the
        withdrawal would leave the balance non-negative (an amount equal to the
        balance is enough). */
    function CheckFunds(amount: int): (ok: bool)
      reads this
      ensures ok <==> Balance(ledger + [Entry(-amount, "")]) >= 0
    {
      BalanceConcat(ledger, [Entry(-amount, "")]);
      GetBalance() >= amount
    }

    /** Appends the entry unchanged; always succeeds. */
    method Deposit(amount: int, description: string := "")
      modifies this
      ensures ledger == old(ledger) + [Entry(amount, description)]
      ensures ledger == Apply(old(ledger), Op.Deposit(amount, description))
      ensures GetBalance() == old(GetBalance()) + amount
    {
      BalanceConcat(ledger, [Entry(amount, description)]);
      ledger := ledger + [Entry(amount, description)];
    }

    /** Appends the negated amount when the funds cover it and reports whether it did. */
    method Withdraw(amount: int, description: string := "") returns (ok: bool)
      modifies this
      ensures ok <==> amount <= old(GetBalance())
      ensures ok ==> ledger == old(ledger) + [Entry(-amount, description)]
      ensures ok ==> GetBalance() == old(GetBalance()) - amount >= 0
      ensures !ok ==> ledger == old(ledger)
      ensures ledger == Apply(old(ledger), Op.Withdraw(amount, description))
    {
      if CheckFunds(amount) {
        BalanceConcat(ledger, [Entry(-amount, description)]);
        ledger := ledger + [Entry(-amount, description)];
        ok := true;
      } else {
        ok := false;
      }
    }

    /** Moves `amount` to `dest` as a withdrawal "Transfer to <dest>" here and a
        deposit "Transfer from <this>" there, when the funds cover it; otherwise
        neither ledger changes. Transferring to the category itself puts both
        entries on its own ledger and leaves its balance as it was. */
    method Transfer(amount: int, dest: Category) returns (ok: bool)
      modifies this, dest
      ensures ok <==> amount <= old(GetBalance())
      ensures !ok ==> ledger == old(ledger) && dest.ledger == old(dest.ledger)
      ensures ok && dest != this ==>
        && ledger == old(ledger) + [Entry(-amount, "Transfer to " + dest.name)]
        && dest.ledger == old(dest.ledger) + [Entry(amount, "Transfer from " + name)]
        && GetBalance() == old(GetBalance()) - amount >= 0
        && dest.GetBalance() == old(dest.GetBalance()) + amount
      ensures ok && dest == this ==>
        && ledger == old(ledger) + [Entry(-amount, "Transfer to " + name), Entry(amount, "Transfer from " + name)]
        && GetBalance() == old(GetBalance())
      ensures dest != this ==> GetBalance() + dest.GetBalance() == old(GetBalance()) + old(dest.GetBalance())
    {
      if CheckFunds(amount) {
        // The withdrawal checks the funds again; it cannot be refused here.
        var withdrawn := Withdraw(amount, "Transfer to " + dest.name);
        assert withdrawn;
        dest.Deposit(amount, "Transfer from " + name);
        ok := true;
      } else {
        ok := false;
      }
    }

    /** The statement text, built line by line as budget.py does. */
    method Render() returns (text: string)
      ensures text == Statement(name, ledger)
    {
      var title := TitleLine(name) + "\n";
      var items := "";
      var i := 0;
      while i < |ledger|
        invariant 0 <= i <= |ledger|
        invariant items == Terminated(EntryLines(ledger[..i]))
      {
        EntryLinesSnoc(ledger, i);
        TerminatedSnoc(EntryLines(ledger[..i]), EntryLine(ledger[i]));
        items := items + EntryLine(ledger[i]) + "\n";
        i := i + 1;
      }
      assert ledger[..i] == ledger;
      var total := TotalLabel + Fixed2(GetBalance());
      text := title + items + total;
    }
  }
}
