// Over any run of deliveries and desk work, the deposit on file is what was last written: by the gateway, the amount it
// reported as received, never the amount that was asked for.

module OnlineDeposits {
  import opened Options
  import opened BookingStatus
  import opened Finance
  import opened Webhook
  import FeeRaces

  /** The delivery puts its amount on file: a new event for a booking that awaits money, and either the first amount or
      one that covers the deposit on file. */
  predicate PaysDeposit(g: Gateway, a: Action, b: nat) {
    a.Deliver? && a.delivery.BookingPaid? && a.delivery.booking == b &&
    a.delivery.id !in g.events && a.delivery.amount > 0 && b < |g.books.accounts| &&
    var account := g.books.accounts[b];
    !account.deleted &&
    (account.status == PendingDeposit || (account.status == PendingVerification && account.deposit <= a.delivery.amount))
  }

  /** The desk settles the deposit of a booking that is not closed. */
  predicate SettlesDeposit(g: Gateway, a: Action, b: nat) {
    a.Office? && a.event.Settle? && a.event.booking == b && (a.event.deposit.Some? || a.event.depositTaken.Some?) &&
    b < |g.books.accounts| && g.books.accounts[b].status !in {Cancelled, Completed, NoShow, Expired}
  }

  lemma DepositAfter(g: Gateway, a: Action, b: nat)
    requires b < |g.books.accounts|
    ensures b < |Next(g, a).books.accounts|
    ensures var before, after := g.books.accounts[b], Next(g, a).books.accounts[b];
      && (PaysDeposit(g, a, b) ==> after.deposit == a.delivery.amount && after.depositTaken)
      && (!PaysDeposit(g, a, b) && !SettlesDeposit(g, a, b) ==>
           after.deposit == before.deposit && after.depositTaken == before.depositTaken)
  {
    if a.Deliver? && a.delivery.BookingPaid? {
      DepositAfterDelivery(g, a, b);
    } else if a.Office? && !a.event.OnlinePayment? {
      DepositAfterOffice(g.books, a.event, b);
    }
  }

  lemma DepositAfterDelivery(g: Gateway, a: Action, b: nat)
    requires b < |g.books.accounts| && a.Deliver? && a.delivery.BookingPaid?
    ensures b < |Next(g, a).books.accounts|
    ensures var before, after := g.books.accounts[b], Next(g, a).books.accounts[b];
      if PaysDeposit(g, a, b) then after.deposit == a.delivery.amount && after.depositTaken
      else after.deposit == before.deposit && after.depositTaken == before.depositTaken
  {
  }

  lemma DepositAfterOffice(books: Books, e: Event, b: nat)
    requires b < |books.accounts| && !e.OnlinePayment?
    ensures b < |Finance.Step(books, e).accounts|
    ensures var before, after := books.accounts[b], Finance.Step(books, e).accounts[b];
      || (after.deposit == before.deposit && after.depositTaken == before.depositTaken)
      || (e.Settle? && e.booking == b && (e.deposit.Some? || e.depositTaken.Some?) && before.status !in {Cancelled, Completed, NoShow, Expired})
  {
  }

  /** Nobody writes the deposit of b from action i on. */
  predicate LeftAlone(g: Gateway, actions: seq<Action>, b: nat, i: nat) {
    forall k: nat :: i <= k < |actions| ==>
      !PaysDeposit(FeeRaces.At(g, actions, k), actions[k], b) && !SettlesDeposit(FeeRaces.At(g, actions, k), actions[k], b)
  }

  lemma {:induction false} UnwrittenStays(g: Gateway, actions: seq<Action>, b: nat, i: nat, j: nat)
    requires i <= j <= |actions| && b < |FeeRaces.At(g, actions, i).books.accounts| && LeftAlone(g, actions, b, i)
    ensures b < |FeeRaces.At(g, actions, j).books.accounts|
    ensures var before, after := FeeRaces.At(g, actions, i).books.accounts[b], FeeRaces.At(g, actions, j).books.accounts[b];
      after.deposit == before.deposit && after.depositTaken == before.depositTaken
    decreases j
  {
    if i < j {
      UnwrittenStays(g, actions, b, i, j - 1);
      FeeRaces.AtNext(g, actions, j - 1);
      DepositAfter(FeeRaces.At(g, actions, j - 1), actions[j - 1], b);
    }
  }

  /** After any run: if delivery j paid the deposit of b and nobody wrote it later, exactly the delivered amount is on
      file as taken. */
  lemma LastPaymentIsOnFile(g: Gateway, actions: seq<Action>, b: nat, j: nat)
    requires j < |actions| && PaysDeposit(FeeRaces.At(g, actions, j), actions[j], b) && LeftAlone(g, actions, b, j + 1)
    ensures var books := Webhook.Run(g, actions).books;
      b < |books.accounts| && books.accounts[b].depositTaken && books.accounts[b].deposit == actions[j].delivery.amount
  {
    FeeRaces.AtNext(g, actions, j);
    DepositAfter(FeeRaces.At(g, actions, j), actions[j], b);
    UnwrittenStays(g, actions, b, j + 1, |actions|);
    assert actions[..|actions|] == actions;
  }

  /** And if nobody wrote it at all, it is as it was: deliveries that are repeated, unknown, too small or late add nothing. */
  lemma OtherDeliveriesAddNothing(g: Gateway, actions: seq<Action>, b: nat)
    requires b < |g.books.accounts| && LeftAlone(g, actions, b, 0)
    ensures var before, books := g.books.accounts[b], Webhook.Run(g, actions).books;
      b < |books.accounts| && books.accounts[b].deposit == before.deposit && books.accounts[b].depositTaken == before.depositTaken
  {
    assert FeeRaces.At(g, actions, 0) == g;
    UnwrittenStays(g, actions, b, 0, |actions|);
    assert actions[..|actions|] == actions;
  }
}
