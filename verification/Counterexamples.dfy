/**
 * Claims one might expect of the shop that do not hold, each broken by a history of transactions that all go
 * through.
 */
module Counterexamples {
  import opened Common
  import opened Schema
  import opened Sums
  import opened TicketCodes
  import opened Services
  import opened Invariants
  import opened Settlement
  import opened ConfirmKept
  import opened Footprints
  import opened Concurrency
  import opened Ledger
  import opened Calls
  import opened Capacity
  import opened Pending
  import opened Redelivery

  const Code := "PROMO"

  /** One unit of product 1 at 5.00, and a code worth 0% that may be used ten times. */
  const Shelf := NoWrites.(
    inventory := map[1 := Inventory(1, 0, 0, 1, 0)],
    prices := map[1 := 500],
    promotions := map[Code := Promotion(true, 0, 1000, Percent, 0, Some(10), 0, false, 24)])

  function UnitHeld(userId: int, expiresAt: int): Reservation { Reservation(userId, 1, 1, Active, expiresAt, None) }

  function UnitOrder(userId: int, key: string, rid: int): Order {
    Order(userId, key, rid, PaymentPending, 500, 0, None, 500, [Item(1, 1, 500, 500)], None)
  }

  function Ref(key: string): PaymentRef { PaymentRef("niubiz", key) }

  function Success(key: string): Event {
    Event(Ref(key), key, true, Some(500), Draws(100, 100, key, (_: nat) => key))
  }

  // ---- one transaction at a time ----

  /** Each transaction of the history carries what its call had read on a database of that history. */
  ghost predicate AllIssued(history: seq<Txn>) {
    forall i :: 0 <= i < |history| ==> WasIssued(history, i)
  }

  ghost predicate WasIssued(history: seq<Txn>, i: nat)
    requires i < |history|
  {
    exists j: nat :: j <= i && IssuedOn(Replay(Shelf, history[..j]), history[i])
  }

  /** `history` runs from the shelf to `db`; every transaction goes through and was issued by a call. */
  ghost predicate Reaches(history: seq<Txn>, db: Db) {
    AllEnabled(Shelf, history) && AllIssued(history) && Replay(Shelf, history) == db
  }

  lemma IssuedStays(history: seq<Txn>, x: Txn, j: nat)
    requires AllIssued(history) && j <= |history| && IssuedOn(Replay(Shelf, history[..j]), x)
    ensures AllIssued(history + [x])
  {
    var longer := history + [x];
    forall i | 0 <= i < |longer| ensures WasIssued(longer, i) {
      if i < |history| {
        assert WasIssued(history, i);
        var k: nat :| k <= i && IssuedOn(Replay(Shelf, history[..k]), history[i]);
        assert longer[..k] == history[..k];
      } else {
        assert longer[..j] == history[..j];
      }
    }
  }

  /** A call that had read the database `j` transactions into the history. */
  lemma ExtendStale(history: seq<Txn>, db: Db, j: nat, x: Txn, db': Db)
    requires Reaches(history, db) && j <= |history| && IssuedOn(Replay(Shelf, history[..j]), x)
    requires Enabled(db, x) && Admissible(db, x) && Effect(db, x) == db'
    ensures Reaches(history + [x], db')
  {
    OneMoreEnabled(Shelf, history, x);
    IssuedStays(history, x, j);
  }

  /** A call that reads the current database. */
  lemma Extend(history: seq<Txn>, db: Db, x: Txn, db': Db)
    requires Reaches(history, db) && Enabled(db, x) && Admissible(db, x) && Effect(db, x) == db'
    requires IssuedOn(db, x)
    ensures Reaches(history + [x], db')
  {
    assert history[..|history|] == history;
    ExtendStale(history, db, |history|, x, db');
  }

  lemma ShelfReached()
    ensures Reaches([], Shelf) && Init(Shelf)
  {}

  lemma ReachedIsValid(history: seq<Txn>, db: Db)
    requires Reaches(history, db)
    ensures Inv(db)
  {
    ShelfReached();
    InitEstablishes(Shelf);
    ReplayKeepsInv(Shelf, history);
  }

  // Each transaction first on any database, then as the next one of a history.

  function AfterReserving(db: Db, userId: int, expiresAt: int, rid: int, version: int): Db {
    db.(inventory := db.inventory[1 := Inventory(1, 1, 0, 0, version + 1)],
        reservations := db.reservations[rid := UnitHeld(userId, expiresAt)])
  }

  lemma ReservingWorks(db: Db, userId: int, expiresAt: int, rid: int, version: int)
    requires 1 in db.inventory && db.inventory[1] == Inventory(1, 0, 0, 1, version) && rid !in db.reservations
    ensures var x := TCreate(userId, 1, 1, expiresAt, rid);
      Enabled(db, x) && IssuedOn(db, x) && Effect(db, x) == AfterReserving(db, userId, expiresAt, rid, version)
  {}

  lemma Reserving(history: seq<Txn>, db: Db, userId: int, expiresAt: int, rid: int, version: int)
    requires Reaches(history, db)
    requires 1 in db.inventory && db.inventory[1] == Inventory(1, 0, 0, 1, version) && rid !in db.reservations
    ensures Reaches(history + [TCreate(userId, 1, 1, expiresAt, rid)],
      AfterReserving(db, userId, expiresAt, rid, version))
  {
    ReservingWorks(db, userId, expiresAt, rid, version);
    Extend(history, db, TCreate(userId, 1, 1, expiresAt, rid), AfterReserving(db, userId, expiresAt, rid, version));
  }

  function AfterOrdering(db: Db, userId: int, rid: int, key: string): Db {
    db.(orders := db.orders[rid := UnitOrder(userId, key, rid)], keys := db.keys[key := rid])
  }

  /** The reservation is ACTIVE, unordered, and the product costs 5.00. */
  ghost predicate CanOrder(db: Db, userId: int, expiresAt: int, rid: int, key: string) {
    && 1 in db.prices && db.prices[1] == 500
    && rid in db.reservations && db.reservations[rid] == UnitHeld(userId, expiresAt)
    && rid !in db.orders && key !in db.keys
    && (forall o :: o in db.orders ==> db.orders[o].reservationId != rid && db.orders[o].idempotencyKey != key)
  }

  lemma OrderingWorks(db: Db, userId: int, expiresAt: int, rid: int, key: string)
    requires CanOrder(db, userId, expiresAt, rid, key)
    ensures var x := TCheckout(userId, rid, key, rid, 500);
      Enabled(db, x) && IssuedOn(db, x) && Effect(db, x) == AfterOrdering(db, userId, rid, key)
  {}

  lemma Ordering(history: seq<Txn>, db: Db, userId: int, expiresAt: int, rid: int, key: string)
    requires Reaches(history, db) && CanOrder(db, userId, expiresAt, rid, key)
    ensures Reaches(history + [TCheckout(userId, rid, key, rid, 500)], AfterOrdering(db, userId, rid, key))
  {
    OrderingWorks(db, userId, expiresAt, rid, key);
    Extend(history, db, TCheckout(userId, rid, key, rid, 500), AfterOrdering(db, userId, rid, key));
  }

  function Charged(db: Db, oid: int, charge: string): Db {
    db.(payments := db.payments[Ref(charge) := Payment(oid, Pending, 500, None)])
  }

  lemma ChargingWorks(db: Db, userId: int, oid: int, key: string, charge: string)
    requires oid in db.orders && db.orders[oid] == UnitOrder(userId, key, oid) && Ref(charge) !in db.payments
    ensures var x := TPay(oid, Ref(charge), 500);
      Enabled(db, x) && Admissible(db, x) && Effect(db, x) == Charged(db, oid, charge)
    ensures !HasPending(db.payments, oid) ==> IssuedOn(db, TPay(oid, Ref(charge), 500))
  {}

  lemma Charging(history: seq<Txn>, db: Db, userId: int, oid: int, key: string)
    requires Reaches(history, db)
    requires oid in db.orders && db.orders[oid] == UnitOrder(userId, key, oid) && Ref(key) !in db.payments
    requires !HasPending(db.payments, oid)
    ensures Reaches(history + [TPay(oid, Ref(key), 500)], Charged(db, oid, key))
  {
    ChargingWorks(db, userId, oid, key, key);
    Extend(history, db, TPay(oid, Ref(key), 500), Charged(db, oid, key));
  }

  function AfterLapsing(db: Db, userId: int, expiresAt: int, rid: int, version: int): Db {
    db.(inventory := db.inventory[1 := Inventory(1, 0, 0, 1, version + 1)],
        reservations := db.reservations[rid := Reservation(userId, 1, 1, Expired, expiresAt, Some(expiresAt))])
  }

  lemma LapsingWorks(db: Db, userId: int, expiresAt: int, rid: int, version: int)
    requires 1 in db.inventory && db.inventory[1] == Inventory(1, 1, 0, 0, version)
    requires rid in db.reservations && db.reservations[rid] == UnitHeld(userId, expiresAt)
    ensures var x := TExpire(rid, expiresAt);
      Enabled(db, x) && IssuedOn(db, x) && Effect(db, x) == AfterLapsing(db, userId, expiresAt, rid, version)
  {}

  lemma Lapsing(history: seq<Txn>, db: Db, userId: int, expiresAt: int, rid: int, version: int)
    requires Reaches(history, db)
    requires 1 in db.inventory && db.inventory[1] == Inventory(1, 1, 0, 0, version)
    requires rid in db.reservations && db.reservations[rid] == UnitHeld(userId, expiresAt)
    ensures Reaches(history + [TExpire(rid, expiresAt)], AfterLapsing(db, userId, expiresAt, rid, version))
  {
    LapsingWorks(db, userId, expiresAt, rid, version);
    Extend(history, db, TExpire(rid, expiresAt), AfterLapsing(db, userId, expiresAt, rid, version));
  }

  lemma UnitTicket(db: Db, userId: int, oid: int, key: string)
    requires oid in db.orders && db.orders[oid] == UnitOrder(userId, key, oid)
    requires TicketsOf(db.tickets, oid) == [] && !CodeUsed(db.tickets, key)
    ensures TicketRows(db, oid, Success(key).draws) == [Ticket(oid, Some(1), key, Assigned)]
    ensures FreshCodes(db.tickets, TicketRows(db, oid, Success(key).draws))
  {
    var items := db.orders[oid].items;
    assert items[1..] == [] && Expand(items) == [1];
    assert db.tickets + [] == db.tickets;
  }

  lemma SellingKeepsInitial(db: Db, rid: int)
    requires 1 in db.inventory
    ensures var inventory' := db.inventory + SoldRows(db, rid);
      1 in inventory' && inventory'[1].initialStock == db.inventory[1].initialStock
  {}

  /** The tables after the payment of `oid`. */
  ghost predicate Settled(db: Db, oid: int, key: string, db': Db)
    requires oid in db.orders
  {
    && db'.orders == db.orders[oid := PaidOrder(db.orders[oid], 100)]
    && db'.tickets == db.tickets + [Ticket(oid, Some(1), key, Assigned)]
    && db'.payments == db.payments[Ref(key) := Payment(oid, Paid, 500, Some(key))]
    && db'.reservations == db.reservations + ConvertedRows(db, oid)
    && db'.inventory == db.inventory + SoldRows(db, oid)
  }

  lemma Accepting(db: Db, userId: int, oid: int, key: string)
    requires Ref(key) in db.payments && db.payments[Ref(key)] == Payment(oid, Pending, 500, None)
    requires oid in db.orders && db.orders[oid] == UnitOrder(userId, key, oid)
    requires TicketsOf(db.tickets, oid) == [] && !CodeUsed(db.tickets, key)
    requires forall q :: q in db.payments ==> db.payments[q].rawEventId != Some(key)
    ensures Accepts(db, Success(key))
  {
    UnitTicket(db, userId, oid, key);
    assert !EventTaken(db.payments, Ref(key), key);
  }

  lemma SettlingWorks(db: Db, userId: int, oid: int, key: string, db': Db)
    requires Inv(db) && Accepts(db, Success(key))
    requires db.payments[Ref(key)] == Payment(oid, Pending, 500, None)
    requires oid in db.orders && db.orders[oid] == UnitOrder(userId, key, oid)
    requires TicketsOf(db.tickets, oid) == [] && !CodeUsed(db.tickets, key)
    requires db' == ConfirmPayment(db, Success(key)).db
    ensures Settled(db, oid, key, db')
  {
    assert Succeeded(db, Success(key), oid, db') by { SuccessTables(db, Success(key)); }
    SettledFrom(db, userId, oid, key, db');
  }

  lemma SettledFrom(db: Db, userId: int, oid: int, key: string, db': Db)
    requires Ref(key) in db.payments && db.payments[Ref(key)] == Payment(oid, Pending, 500, None)
    requires oid in db.orders && db.orders[oid] == UnitOrder(userId, key, oid)
    requires TicketsOf(db.tickets, oid) == [] && !CodeUsed(db.tickets, key)
    requires Succeeded(db, Success(key), oid, db')
    ensures Settled(db, oid, key, db')
  {
    UnitTicket(db, userId, oid, key);
  }

  lemma Settling(history: seq<Txn>, db: Db, userId: int, oid: int, key: string) returns (db': Db)
    requires Reaches(history, db) && Accepts(db, Success(key))
    requires db.payments[Ref(key)] == Payment(oid, Pending, 500, None)
    requires oid in db.orders && db.orders[oid] == UnitOrder(userId, key, oid)
    requires TicketsOf(db.tickets, oid) == [] && !CodeUsed(db.tickets, key)
    ensures Reaches(history + [TConfirm(Success(key))], db') && Settled(db, oid, key, db')
  {
    ReachedIsValid(history, db);
    db' := ConfirmPayment(db, Success(key)).db;
    SettlingWorks(db, userId, oid, key, db');
    Extend(history, db, TConfirm(Success(key)), db');
  }

  lemma Paying(history: seq<Txn>, db: Db, userId: int, oid: int, key: string) returns (db': Db)
    requires Reaches(history, db) && Ref(key) in db.payments
    requires db.payments[Ref(key)] == Payment(oid, Pending, 500, None)
    requires oid in db.orders && db.orders[oid] == UnitOrder(userId, key, oid)
    requires TicketsOf(db.tickets, oid) == [] && !CodeUsed(db.tickets, key)
    requires forall q :: q in db.payments ==> db.payments[q].rawEventId != Some(key)
    requires 1 in db.inventory
    ensures Reaches(history + [TConfirm(Success(key))], db')
    ensures db'.orders == db.orders[oid := PaidOrder(db.orders[oid], 100)]
    ensures db'.tickets == db.tickets + [Ticket(oid, Some(1), key, Assigned)]
    ensures db'.payments == db.payments[Ref(key) := Payment(oid, Paid, 500, Some(key))]
    ensures !StillActive(db, oid) ==> db'.reservations == db.reservations
    ensures StillActive(db, oid) ==>
      db'.reservations == db.reservations[oid := db.reservations[oid].(status := Converted)]
    ensures 1 in db'.inventory && db'.inventory[1].initialStock == db.inventory[1].initialStock
  {
    Accepting(db, userId, oid, key);
    db' := Settling(history, db, userId, oid, key);
    SettledShows(db, oid, key, db');
  }

  lemma SettledShows(db: Db, oid: int, key: string, db': Db)
    requires oid in db.orders && Settled(db, oid, key, db') && 1 in db.inventory
    ensures !StillActive(db, oid) ==> db'.reservations == db.reservations
    ensures StillActive(db, oid) ==>
      db'.reservations == db.reservations[oid := db.reservations[oid].(status := Converted)]
    ensures 1 in db'.inventory && db'.inventory[1].initialStock == db.inventory[1].initialStock
  {
    SellingKeepsInitial(db, oid);
    assert db.reservations + map[] == db.reservations;
  }

  // ---- a late payment oversells ----

  /** The unit is reserved, ordered under `key`, and its payment is pending. */
  function Bought(db: Db, userId: int, expiresAt: int, n: int, key: string, version: int): Db {
    Charged(AfterOrdering(AfterReserving(db, userId, expiresAt, n, version), userId, n, key), n, key)
  }

  /** Nothing is known under `n` or `key` yet, and the unit is on the shelf. */
  ghost predicate CanBuy(db: Db, n: int, key: string, version: int) {
    && 1 in db.inventory && db.inventory[1] == Inventory(1, 0, 0, 1, version)
    && 1 in db.prices && db.prices[1] == 500
    && n !in db.reservations && n !in db.orders && key !in db.keys && Ref(key) !in db.payments
    && (forall o :: o in db.orders ==> db.orders[o].reservationId != n && db.orders[o].idempotencyKey != key)
    && !HasPending(db.payments, n)
  }

  lemma Buying(history: seq<Txn>, db: Db, userId: int, expiresAt: int, n: int, key: string, version: int)
    returns (longer: seq<Txn>)
    requires Reaches(history, db) && CanBuy(db, n, key, version)
    ensures Reaches(longer, Bought(db, userId, expiresAt, n, key, version))
  {
    var db1 := AfterReserving(db, userId, expiresAt, n, version);
    var db2 := AfterOrdering(db1, userId, n, key);
    Reserving(history, db, userId, expiresAt, n, version);
    longer := history + [TCreate(userId, 1, 1, expiresAt, n)];
    Ordering(longer, db1, userId, expiresAt, n, key);
    longer := longer + [TCheckout(userId, n, key, n, 500)];
    Charging(longer, db2, userId, n, key);
    longer := longer + [TPay(n, Ref(key), 500)];
  }

  const Lapsed := Reservation(7, 1, 1, Expired, 10, Some(10))

  /** One order waits for its payment; its reservation has lapsed. */
  ghost predicate OneWaiting(db: Db, a: string) {
    && db.orders == map[1 := UnitOrder(7, a, 1)] && db.keys == map[a := 1]
    && db.payments == map[Ref(a) := Payment(1, Pending, 500, None)]
    && db.reservations == map[1 := Lapsed] && db.prices == map[1 := 500]
    && db.tickets == [] && db.inventory == map[1 := Inventory(1, 0, 0, 1, 2)]
  }

  lemma OneBuys(a: string) returns (history: seq<Txn>, db: Db)
    ensures Reaches(history, db) && OneWaiting(db, a)
  {
    history, db := OneHolds(a);
    Lapsing(history, db, 7, 10, 1, 1);
    history := history + [TExpire(1, 10)];
    db := AfterLapsing(db, 7, 10, 1, 1);
    assert db.inventory == map[1 := Inventory(1, 0, 0, 1, 2)] && db.reservations == map[1 := Lapsed];
  }

  /** One order waits for its payment; its reservation holds the unit. */
  lemma OneHolds(a: string) returns (history: seq<Txn>, db: Db)
    ensures Reaches(history, db)
    ensures db.orders == map[1 := UnitOrder(7, a, 1)] && db.keys == map[a := 1]
    ensures db.payments == map[Ref(a) := Payment(1, Pending, 500, None)]
    ensures db.reservations == map[1 := UnitHeld(7, 10)]
    ensures db.tickets == [] && db.inventory == map[1 := Inventory(1, 1, 0, 0, 1)]
    ensures db.promotions == Shelf.promotions && db.prices == map[1 := 500]
  {
    ShelfReached();
    history := Buying([], Shelf, 7, 10, 1, a, 0);
    db := Bought(Shelf, 7, 10, 1, a, 0);
    assert db.inventory == map[1 := Inventory(1, 1, 0, 0, 1)];
  }

  /** Two orders wait; the second one's reservation holds the only unit. */
  ghost predicate TwoWaiting(db: Db, a: string, b: string) {
    && db.orders == map[1 := UnitOrder(7, a, 1)][2 := UnitOrder(8, b, 2)]
    && db.payments == map[Ref(a) := Payment(1, Pending, 500, None)][Ref(b) := Payment(2, Pending, 500, None)]
    && db.reservations == map[1 := Lapsed][2 := UnitHeld(8, 20)]
    && db.tickets == [] && 1 in db.inventory && db.inventory[1].initialStock == 1
  }

  lemma TwoBuy(a: string, b: string) returns (history: seq<Txn>, db: Db)
    requires a != b
    ensures Reaches(history, db) && TwoWaiting(db, a, b)
  {
    history, db := OneBuys(a);
    assert forall q :: q in db.payments ==> db.payments[q].orderId == 1;
    history := Buying(history, db, 8, 20, 2, b, 2);
    db := Bought(db, 8, 20, 2, b, 2);
  }

  /** The lapsed order is paid; the other still waits. */
  ghost predicate FirstPaid(db: Db, a: string, b: string) {
    && db.orders == map[1 := PaidOrder(UnitOrder(7, a, 1), 100)][2 := UnitOrder(8, b, 2)]
    && db.payments == map[Ref(a) := Payment(1, Paid, 500, Some(a))][Ref(b) := Payment(2, Pending, 500, None)]
    && db.reservations == map[1 := Lapsed][2 := UnitHeld(8, 20)]
    && db.tickets == [Ticket(1, Some(1), a, Assigned)] && 1 in db.inventory && db.inventory[1].initialStock == 1
  }

  lemma Overwrite<K, V>(k: K, v: V, l: K, w: V, x: V)
    requires k != l
    ensures map[k := v][l := w][k := x] == map[k := x][l := w]
    ensures map[k := v][l := w][l := x] == map[k := v][l := x]
  {}

  lemma FirstPays(a: string, b: string) returns (history: seq<Txn>, db: Db)
    requires a != b
    ensures Reaches(history, db) && FirstPaid(db, a, b)
  {
    var before;
    history, before := TwoBuy(a, b);
    Overwrite(1, UnitOrder(7, a, 1), 2, UnitOrder(8, b, 2), PaidOrder(UnitOrder(7, a, 1), 100));
    Overwrite(Ref(a), Payment(1, Pending, 500, None), Ref(b), Payment(2, Pending, 500, None),
      Payment(1, Paid, 500, Some(a)));
    db := Paying(history, before, 7, 1, a);
    history := history + [TConfirm(Success(a))];
  }

  lemma SecondPays(a: string, b: string) returns (history: seq<Txn>, db: Db)
    requires a != b
    ensures Reaches(history, db)
    ensures db.orders == map[1 := PaidOrder(UnitOrder(7, a, 1), 100)][2 := PaidOrder(UnitOrder(8, b, 2), 100)]
    ensures db.reservations == map[1 := Lapsed][2 := UnitHeld(8, 20).(status := Converted)]
    ensures db.tickets == [Ticket(1, Some(1), a, Assigned)] + [Ticket(2, Some(1), b, Assigned)]
    ensures 1 in db.inventory && db.inventory[1].initialStock == 1
  {
    var before;
    history, before := FirstPays(a, b);
    TicketsOfNone(before.tickets, 2);
    Overwrite(1, PaidOrder(UnitOrder(7, a, 1), 100), 2, UnitOrder(8, b, 2), PaidOrder(UnitOrder(8, b, 2), 100));
    Overwrite(1, Lapsed, 2, UnitHeld(8, 20), UnitHeld(8, 20).(status := Converted));
    db := Paying(history, before, 8, 2, b);
    history := history + [TConfirm(Success(b))];
  }

  /**
   * Two paid orders and two tickets for one unit of stock: paying late sells again, and PAID does not mean
   * CONVERTED.
   */
  lemma PaidNeedNotBeConverted() returns (history: seq<Txn>, db: Db)
    ensures Init(Shelf) && Reaches(history, db)
    ensures 1 in db.orders && db.orders[1].status.OrderPaid? && db.orders[1].reservationId == 1
    ensures 1 in db.reservations && db.reservations[1].status.Expired?
    ensures 1 in db.inventory && Count(db.tickets, IsFor(1)) == 2 > db.inventory[1].initialStock
  {
    ShelfReached();
    assert |"a"| != |"bb"|;
    history, db := SecondPays("a", "bb");
    CountUniform(db.tickets, IsFor(1), true);
  }

  // ---- a code worth nothing, and a limit lowered ----

  function Applied(db: Db, oid: int): Db
    requires Code in db.promotions && oid in db.orders
  {
    db.(promotions := db.promotions[Code := Used(db.promotions[Code])],
        orders := db.orders[oid := WithDiscount(db.orders[oid], Code, 0)])
  }

  /** Order 1, the only one, is open for the code, which has been used `used` times out of `limit`. */
  ghost predicate CanApply(db: Db, used: int, limit: int) {
    && Code in db.promotions
    && db.promotions[Code] == Promotion(true, 0, 1000, Percent, 0, Some(limit), used, false, 24)
    && db.orders.Keys == {1} && OpenForDiscount(db.orders[1], 7) && db.orders[1].subtotalCents == 500
  }

  /** The claim of a call that read a limit of ten. */
  const Claim := TApply(7, 1, Code, Some(10), 0)

  lemma ApplyingWorks(db: Db, used: int, limit: int)
    requires CanApply(db, used, limit) && 0 <= used < 10
    ensures Enabled(db, Claim) && Effect(db, Claim) == Applied(db, 1) && CanApply(Applied(db, 1), used + 1, limit)
    ensures limit == 10 ==> IssuedOn(db, Claim)
  {}

  lemma Applying(history: seq<Txn>, db: Db, used: int)
    requires Reaches(history, db) && CanApply(db, used, 10) && 0 <= used < 10
    ensures Reaches(history + [Claim], Applied(db, 1)) && CanApply(Applied(db, 1), used + 1, 10)
  {
    ApplyingWorks(db, used, 10);
    Extend(history, db, Claim, Applied(db, 1));
  }

  lemma OneOpen() returns (history: seq<Txn>, db: Db)
    ensures Reaches(history, db) && CanApply(db, 0, 10)
  {
    history, db := OneHolds("a");
  }

  /** A discount of 0 leaves the order open: the same order uses the code twice. */
  lemma UseMayExceedCarriers() returns (history: seq<Txn>, db: Db)
    ensures Init(Shelf) && Reaches(history, db)
    ensures UsedBy(db, Code) == 2 && |Carriers(db.orders, Code)| == 1
  {
    ShelfReached();
    var db0;
    history, db0 := OneOpen();
    Applying(history, db0, 0);
    Applying(history + [Claim], Applied(db0, 1), 1);
    history, db := history + [Claim] + [Claim], Applied(Applied(db0, 1), 1);
    assert forall o :: o in Carriers(db.orders, Code) <==> o == 1;
    assert Carriers(db.orders, Code) == {1};
  }

  function Limited(db: Db, limit: int): Db
    requires Code in db.promotions
  {
    db.(promotions := db.promotions[Code := db.promotions[Code].(maxRedemptions := Some(limit))])
  }

  lemma Lowering(history: seq<Txn>, db: Db, used: int, limit: int)
    requires Reaches(history, db) && CanApply(db, used, 10)
    ensures Reaches(history + [TPromotion(Code, true, Some(limit), 1000)], Limited(db, limit))
    ensures CanApply(Limited(db, limit), used, limit)
  {
    Extend(history, db, TPromotion(Code, true, Some(limit), 1000), Limited(db, limit));
  }

  /** An edit below what is already used leaves `usedRedemptions > maxRedemptions`. */
  lemma LoweringBreaksTheLimit() returns (history: seq<Txn>, db: Db)
    ensures Init(Shelf) && Reaches(history, db)
    ensures UsedBy(db, Code) == 1 && LimitOf(db, Code) == Some(0)
  {
    ShelfReached();
    var db0;
    history, db0 := OneOpen();
    Applying(history, db0, 0);
    Lowering(history + [Claim], Applied(db0, 1), 1, 0);
    history, db := history + [Claim] + [TPromotion(Code, true, Some(0), 1000)], Limited(Applied(db0, 1), 0);
  }

  /** One use, then an edit to a limit of one: `read` is the history at which a call may still have read ten. */
  lemma LoweredToOne() returns (read: seq<Txn>, lowered: seq<Txn>, db: Db)
    ensures lowered == read + [TPromotion(Code, true, Some(1), 1000)]
    ensures IssuedOn(Replay(Shelf, read), Claim)
    ensures Reaches(lowered, db) && CanApply(db, 1, 1)
  {
    var before, db0 := OneOpen();
    Applying(before, db0, 0);
    ApplyingWorks(Applied(db0, 1), 1, 10);
    Lowering(before + [Claim], Applied(db0, 1), 1, 1);
    read := before + [Claim];
    lowered, db := read + [TPromotion(Code, true, Some(1), 1000)], Limited(Applied(db0, 1), 1);
  }

  /**
   * The edit itself stays within what is used, but a call that read the old limit claims after it:
   * used 1, limit lowered to 1, then a second use.
   */
  lemma StaleLimitBreaksTheLimit() returns (history: seq<Txn>, db: Db, edited: nat)
    ensures Init(Shelf) && Reaches(history, db)
    ensures 0 < edited <= |history| && history[edited - 1].TPromotion?
    ensures UseWithinLimit(Replay(Shelf, history[..edited]), Code) && !UseWithinLimit(db, Code)
  {
    ShelfReached();
    var read, lowered, db1 := LoweredToOne();
    ApplyingWorks(db1, 1, 1);
    assert lowered[..|read|] == read;
    ExtendStale(lowered, db1, |read|, Claim, Applied(db1, 1));
    history, db, edited := lowered + [Claim], Applied(db1, 1), |lowered|;
    assert history[..edited] == lowered;
  }

  // ---- two pending payments ----

  /** One order, never charged. */
  lemma OneUncharged() returns (history: seq<Txn>, db: Db)
    ensures Reaches(history, db)
    ensures 1 in db.orders && db.orders[1] == UnitOrder(7, "a", 1) && db.payments == map[]
  {
    ShelfReached();
    Reserving([], Shelf, 7, 10, 1, 0);
    var db0 := AfterReserving(Shelf, 7, 10, 1, 0);
    Ordering([] + [TCreate(7, 1, 1, 10, 1)], db0, 7, 10, 1, "a");
    history, db := [] + [TCreate(7, 1, 1, 10, 1)] + [TCheckout(7, 1, "a", 1, 500)], AfterOrdering(db0, 7, 1, "a");
  }

  /** The pending lookup and the insert are two statements: two calls that both found none leave one order with two. */
  lemma TwoPendingPayments() returns (history: seq<Txn>, db: Db)
    ensures Init(Shelf) && Reaches(history, db) && !OnePending(db.payments, 1)
  {
    ShelfReached();
    var before, db0 := OneUncharged();
    ChargingTwice(before, db0);
    history := before + [TPay(1, Ref("a"), 500)] + [TPay(1, Ref("bb"), 500)];
    db := Charged(Charged(db0, 1, "a"), 1, "bb");
    BothPending(db0);
  }

  lemma BothPending(db: Db)
    ensures !OnePending(Charged(Charged(db, 1, "a"), 1, "bb").payments, 1)
  {
    assert |"a"| != |"bb"|;
    var payments := Charged(Charged(db, 1, "a"), 1, "bb").payments;
    assert IsPending(payments, Ref("a"), 1) && IsPending(payments, Ref("bb"), 1);
  }

  lemma ChargingTwice(history: seq<Txn>, db: Db)
    requires Reaches(history, db) && 1 in db.orders && db.orders[1] == UnitOrder(7, "a", 1) && db.payments == map[]
    ensures Reaches(history + [TPay(1, Ref("a"), 500)] + [TPay(1, Ref("bb"), 500)],
      Charged(Charged(db, 1, "a"), 1, "bb"))
  {
    assert |"a"| != |"bb"|;
    ChargingWorks(db, 7, 1, "a", "bb");
    Charging(history, db, 7, 1, "a");
    var once := history + [TPay(1, Ref("a"), 500)];
    ChargingWorks(Charged(db, 1, "a"), 7, 1, "a", "bb");
    assert once[..|history|] == history;
    ExtendStale(once, Charged(db, 1, "a"), |history|, TPay(1, Ref("bb"), 500), Charged(Charged(db, 1, "a"), 1, "bb"));
  }

  // ---- a failure delivered again ----

  function Failing(key: string, eventId: string): Event {
    Event(Ref(key), eventId, false, None, Draws(100, 100, key, (_: nat) => key))
  }

  function Noted(db: Db, key: string, eventId: string): Db {
    db.(payments := db.payments[Ref(key) := Payment(1, Failed, 500, Some(eventId))])
  }

  /** The only payment, of order 1, is open. */
  ghost predicate OneOpenPayment(db: Db, key: string) {
    && db.payments.Keys == {Ref(key)} && !Closed(db.payments[Ref(key)])
    && db.payments[Ref(key)].orderId == 1 && db.payments[Ref(key)].amountCents == 500 && 1 in db.orders
  }

  lemma FailingWorks(history: seq<Txn>, db: Db, key: string, eventId: string)
    requires Reaches(history, db) && OneOpenPayment(db, key)
    requires db.payments[Ref(key)].rawEventId != Some(eventId)
    ensures Noted(db, key, eventId) == ConfirmPayment(db, Failing(key, eventId)).db
    ensures ConfirmPayment(db, Failing(key, eventId)).reply == Confirmed(true)
    ensures Enabled(db, TConfirm(Failing(key, eventId)))
  {
    ReachedIsValid(history, db);
    var ev := Failing(key, eventId);
    assert !EventTaken(db.payments, ev.ref, eventId);
    FailureChangesIff(db, ev);
  }

  lemma Delivering(history: seq<Txn>, db: Db, key: string, eventId: string)
    requires Reaches(history, db) && OneOpenPayment(db, key)
    requires db.payments[Ref(key)].rawEventId != Some(eventId)
    ensures Reaches(history + [TConfirm(Failing(key, eventId))], Noted(db, key, eventId))
    ensures OneOpenPayment(Noted(db, key, eventId), key)
  {
    FailingWorks(history, db, key, eventId);
    Extend(history, db, TConfirm(Failing(key, eventId)), Noted(db, key, eventId));
  }

  /** Failure e1, failure e2, then e1 again: the third delivery writes the row again, and is answered as processed. */
  lemma RedeliveredFailureMayChange() returns (history: seq<Txn>, db: Db)
    ensures Init(Shelf) && Reaches(history, db)
    ensures TConfirm(Failing("a", "e1")) in history
    ensures ConfirmPayment(db, Failing("a", "e1")).reply == Confirmed(true)
    ensures ConfirmPayment(db, Failing("a", "e1")).db != db
  {
    ShelfReached();
    var before, db0 := OneHolds("a");
    Delivering(before, db0, "a", "e1");
    var once, db1 := before + [TConfirm(Failing("a", "e1"))], Noted(db0, "a", "e1");
    assert "e1"[1] != "e2"[1];
    Delivering(once, db1, "a", "e2");
    history, db := once + [TConfirm(Failing("a", "e2"))], Noted(db1, "a", "e2");
    FailingWorks(history, db, "a", "e1");
    assert db.payments[Ref("a")].rawEventId != Noted(db, "a", "e1").payments[Ref("a")].rawEventId;
  }
}
