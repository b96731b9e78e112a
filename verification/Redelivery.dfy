/** Payment notifications delivered more than once: what a repeated delivery still changes. */
module Redelivery {
  import opened Common
  import opened Schema
  import opened Services
  import opened Invariants
  import opened Settlement
  import opened Machine
  import opened Concurrency
  import opened Ledger

  // ---- one delivery ----

  /**
   * A failure notification still changes its payment: the payment is open, the event is free, and is not the
   * last one noted.
   */
  predicate Overwrites(payments: map<PaymentRef, Payment>, ev: Event) {
    && ev.ref in payments && !Closed(payments[ev.ref])
    && !EventTaken(payments, ev.ref, ev.eventId)
    && !(payments[ev.ref].status.Failed? && payments[ev.ref].rawEventId == Some(ev.eventId))
  }

  /** Exactly then does a failure change the database, and then it changes nothing but its payment row. */
  lemma FailureChangesIff(db: Db, ev: Event)
    requires Inv(db) && ev.ref in db.payments && !ev.success
    ensures ConfirmPayment(db, ev).db != db <==> Overwrites(db.payments, ev)
    ensures Overwrites(db.payments, ev) ==>
      ConfirmPayment(db, ev) == Outcome(
        db.(payments := db.payments[ev.ref := Payment(
          db.payments[ev.ref].orderId, Failed, db.payments[ev.ref].amountCents, Some(ev.eventId))]), Confirmed(true))
  {
    assert PaymentOk(db.payments[ev.ref], db.orders);
    if Claims(db, ev) {
      FailureIsRows(db, ev);
      MergeFailure(db, ev);
      if !Overwrites(db.payments, ev) {
        assert db.payments[ev.ref := Claimed(db.payments[ev.ref], ev)] == db.payments;
      }
    }
  }

  /** A payment that is PAID or CANCELLED takes no notification any more. */
  lemma ClosedIgnores(db: Db, ev: Event)
    requires ev.ref in db.payments && Closed(db.payments[ev.ref])
    ensures ConfirmPayment(db, ev) == Outcome(db, Confirmed(false))
  {}

  // ---- whole runs ----

  /** A success, once accepted, never changes anything again: every later delivery is answered as a replay. */
  lemma SuccessIsIdempotent(s: State, s': State, i: nat)
    requires Fresh(s) && Leads(s, s') && i < |s'.history|
    requires s'.history[i].TConfirm? && s'.history[i].ev.success
    ensures ConfirmPayment(s'.db, s'.history[i].ev) == Outcome(s'.db, Confirmed(false))
  {
    RunIsSerial(s, s');
    InitEstablishes(s.db);
    AcceptedNotification(s.db, s'.history, i);
    ClosedIgnores(s'.db, s'.history[i].ev);
  }

  /**
   * A failure delivered again later changes the database exactly when its payment is open and has noted another
   * event since.
   */
  lemma FailureIsIdempotentIff(s: State, s': State, i: nat)
    requires Fresh(s) && Leads(s, s') && i < |s'.history|
    requires s'.history[i].TConfirm? && !s'.history[i].ev.success
    ensures var ev := s'.history[i].ev;
      && ev.ref in s'.db.payments
      && (ConfirmPayment(s'.db, ev).db != s'.db <==> Overwrites(s'.db.payments, ev))
  {
    RunIsSerial(s, s');
    InitEstablishes(s.db);
    AcceptedNotification(s.db, s'.history, i);
    FreshIsOk(s);
    RunStaysLater(s, s');
    FailureChangesIff(s'.db, s'.history[i].ev);
  }
}
