/** A spending category: its ledger of deposits, its action log, its balance and the
    total withdrawn from it. */
module Ledger {
  import opened Strings
  import opened Layout

  /** One ledger record, `{"amount": ..., "description": ...}`. */
  datatype Entry = Entry(amount: int, description: string)

  /** What a rendering returns, or, when the source's `max` meets an empty collection and
      raises `ValueError`, the lines it had printed before that. */
  datatype Rendered<T> = Rendered(value: T) | MaxOfEmpty(printed: seq<string>)

  /** The sum of the amounts in a ledger. */
  function SumAmounts(entries: seq<Entry>): int
  {
    if entries == [] then 0
    else SumAmounts(entries[..|entries| - 1]) + entries[|entries| - 1].amount
  }

  class Category {
    const name: string
    /** Only deposits are recorded here; withdrawals show in `withdrawn`. */
    var ledger: seq<Entry>
    var actions: seq<string>
    var finalTotal: int
    var withdrawn: int

    /** The balance is what was deposited less what was withdrawn, and every ledger
        record came with a logged action. */
    ghost predicate Valid()
      reads this
    {
      && finalTotal == SumAmounts(ledger) - withdrawn
      && |actions| >= |ledger|
    }

    constructor (name: string)
      ensures Valid()
      ensures this.name == name
      ensures ledger == [] && actions == [] && finalTotal == 0 && withdrawn == 0
    {
      this.name := name;
      ledger := [];
      actions := [];
      finalTotal := 0;
      withdrawn := 0;
    }

    method RecordAction(line: string)
      modifies this
      ensures actions == old(actions) + [line]
      ensures ledger == old(ledger) && finalTotal == old(finalTotal) && withdrawn == old(withdrawn)
    {
      actions := actions + [line];
    }

    /** The current balance. */
    function GetBalance(): (balance: int)
      reads this
      requires Valid()
      ensures balance == SumAmounts(ledger) - withdrawn
    {
      finalTotal
    }

    /** Whether the balance covers `amount`. */
    function CheckFunds(amount: int): (covered: bool)
      reads this
      requires Valid()
      ensures covered <==> amount <= SumAmounts(ledger) - withdrawn
    {
      GetBalance() >= amount
    }

    /** Always succeeds: records the entry, logs a '+' line and raises the balance. */
    method Deposit(amount: int, description: string)
      requires Valid()
      modifies this
      ensures Valid()
      ensures ledger == old(ledger) + [Entry(amount, description)]
      ensures actions == old(actions) + [ActionLine(description, amount, '+')]
      ensures finalTotal == old(finalTotal) + amount
      ensures withdrawn == old(withdrawn)
    {
      ledger := ledger + [Entry(amount, description)];
      assert ledger[..|ledger| - 1] == old(ledger);
      RecordAction(ActionLine(description, amount, '+'));
      finalTotal := finalTotal + amount;
    }

    /** Succeeds exactly when the balance covers `amount`: then logs a '-' line, adds the
        amount to `withdrawn` and takes it off the balance; otherwise only logs the
        failure. The ledger is never touched. */
    method Withdraw(amount: int, description: string) returns (ok: bool)
      requires Valid()
      modifies this
      ensures Valid()
      ensures ok <==> old(finalTotal) >= amount
      ensures ledger == old(ledger)
      ensures ok ==> && actions == old(actions) + [ActionLine(description, amount, '-')]
                     && finalTotal == old(finalTotal) - amount
                     && withdrawn == old(withdrawn) + amount
      ensures !ok ==> && actions == old(actions) + [WithdrawalFailedLine(amount, description)]
                      && finalTotal == old(finalTotal)
                      && withdrawn == old(withdrawn)
    {
      if CheckFunds(amount) {
        withdrawn := withdrawn + amount;
        RecordAction(ActionLine(description, amount, '-'));
        finalTotal := finalTotal - amount;
        ok := true;
      } else {
        RecordAction(WithdrawalFailedLine(amount, description));
        ok := false;
      }
    }

    /** Moves `amount` to `destination` when the balance covers it: a withdrawal here
        described as "Transfer to <destination>" and a deposit there described as
        "Transfer from <this>". Otherwise only this category logs the failure. A
        category may transfer to itself; then both halves land on it. */
    method Transfer(amount: int, destination: Category) returns (ok: bool)
      requires Valid() && destination.Valid()
      modifies this, destination
      ensures Valid() && destination.Valid()
      ensures ok <==> old(finalTotal) >= amount
      ensures ok && destination != this ==>
        && finalTotal == old(finalTotal) - amount
        && withdrawn == old(withdrawn) + amount
        && ledger == old(ledger)
        && actions == old(actions) + [ActionLine("Transfer to " + destination.name, amount, '-')]
        && destination.finalTotal == old(destination.finalTotal) + amount
        && destination.withdrawn == old(destination.withdrawn)
        && destination.ledger == old(destination.ledger) + [Entry(amount, "Transfer from " + name)]
        && destination.actions
           == old(destination.actions) + [ActionLine("Transfer from " + name, amount, '+')]
      ensures ok && destination == this ==>
        && finalTotal == old(finalTotal)
        && withdrawn == old(withdrawn) + amount
        && ledger == old(ledger) + [Entry(amount, "Transfer from " + name)]
        && actions == old(actions) + [ActionLine("Transfer to " + name, amount, '-'),
                                      ActionLine("Transfer from " + name, amount, '+')]
      ensures !ok ==>
        && finalTotal == old(finalTotal)
        && withdrawn == old(withdrawn)
        && ledger == old(ledger)
        && actions == old(actions) + [TransferFailedLine(amount, destination.name)]
      ensures !ok && destination != this ==> unchanged(destination)
    {
      if CheckFunds(amount) {
        var withdrew := Withdraw(amount, "Transfer to " + destination.name);
        destination.Deposit(amount, "Transfer from " + name);
        ok := true;
      } else {
        RecordAction(TransferFailedLine(amount, destination.name));
        ok := false;
      }
    }

    /** `str(category)`. The source takes a maximum over the ledger first, so a category
        with no deposit raises instead of returning text. */
    function Statement(): (r: Rendered<string>)
      reads this
      requires Valid()
      ensures r.MaxOfEmpty? <==> ledger == []
      ensures r.MaxOfEmpty? ==> r.printed == []
      ensures r.Rendered? && '\n' !in name && (forall i :: 0 <= i < |actions| ==> '\n' !in actions[i])
              ==> Split(r.value) == ["", Title(name)] + actions + [Footer(finalTotal)]
    {
      if ledger == [] then MaxOfEmpty([])
      else
        var text := StatementText(name, actions, finalTotal);
        assert '\n' !in name && (forall i :: 0 <= i < |actions| ==> '\n' !in actions[i])
               ==> Split(text) == ["", Title(name)] + actions + [Footer(finalTotal)] by {
          if '\n' !in name && (forall i :: 0 <= i < |actions| ==> '\n' !in actions[i]) {
            StatementLines(name, actions, finalTotal);
          }
        }
        Rendered(text)
    }
  }

  /** The sample session of the source's demo: two categories, a deposit, a withdrawal,
      another deposit, a transfer and a withdrawal on the destination. */
  method Scenario() returns (food: Category, shopping: Category)
    ensures food.Valid() && shopping.Valid()
    ensures food.GetBalance() == 210 && food.withdrawn == 320
    ensures shopping.GetBalance() == 250 && shopping.withdrawn == 50
    ensures |food.ledger| == 2 && |food.actions| == 4
    ensures |shopping.ledger| == 1 && |shopping.actions| == 2
  {
    food := new Category("Food");
    shopping := new Category("Shopping");
    food.Deposit(500, "initial deposit");
    var ok := food.Withdraw(20, "groceries");
    assert ok && food.finalTotal == 480;
    food.Deposit(30, "weekly bonus");
    ok := food.Transfer(300, shopping);
    assert ok && food.finalTotal == 210 && shopping.finalTotal == 300;
    ok := shopping.Withdraw(50, "some spendings on pizza");
    assert ok;
  }
}
