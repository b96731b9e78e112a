/** Which product each ticket of an order is for (backend/src/tickets/ticket-code.service.ts). */
module TicketCodes {
  import opened Common
  import opened Schema
  import opened Sums

  function TotalQuantity(items: seq<Item>): nat {
    if items == [] then 0 else items[0].quantity + TotalQuantity(items[1..])
  }

  /** Reference meaning of an item list: each product repeated `quantity` times, in order. */
  function Expand(items: seq<Item>): (r: seq<int>)
    ensures |r| == TotalQuantity(items)
  {
    if items == [] then [] else
      seq(items[0].quantity, _ => items[0].productId) + Expand(items[1..])
  }

  /** Quantity of one product in an item list. */
  function QuantityOf(items: seq<Item>, productId: int): nat {
    if items == [] then 0 else
      (if items[0].productId == productId then items[0].quantity else 0) + QuantityOf(items[1..], productId)
  }

  /** `productId || null` of the source: zero is no product. */
  function Nullable(productId: int): Option<int> {
    if productId == 0 then None else Some(productId)
  }

  /** The ticket at place `i` of an order; only the first goes to the buyer. */
  function TicketAt(oid: int, items: seq<Item>, codes: nat -> string, i: nat): Ticket
    requires i < TotalQuantity(items)
  {
    Ticket(oid, Nullable(Expand(items)[i]), codes(i), if i == 0 then Assigned else Available)
  }

  /** The tickets one paid order gets. */
  function Generated(oid: int, items: seq<Item>, codes: nat -> string): (t: seq<Ticket>)
    ensures |t| == TotalQuantity(items)
    ensures forall i :: 0 <= i < |t| ==> t[i].orderId == oid
    ensures forall i :: 0 <= i < |t| ==> (t[i].status == Assigned <==> i == 0)
  {
    seq(TotalQuantity(items), i requires 0 <= i < TotalQuantity(items) => TicketAt(oid, items, codes, i))
  }

  /** `productAt`: walks the items with a cursor; falls back to the first item's product, or 0. */
  method ProductAt(items: seq<Item>, index: nat) returns (productId: int)
    ensures index < TotalQuantity(items) ==> productId == Expand(items)[index]
    ensures index >= TotalQuantity(items) ==> productId == if items == [] then 0 else items[0].productId
  {
    var cursor := 0;
    for k := 0 to |items|
      invariant 0 <= cursor <= index
      invariant TotalQuantity(items) == cursor + TotalQuantity(items[k..])
      invariant index < TotalQuantity(items) ==>
        index - cursor < |Expand(items[k..])| && Expand(items)[index] == Expand(items[k..])[index - cursor]
    {
      assert items[k..][1..] == items[k + 1..];
      if cursor + items[k].quantity > index {
        return items[k].productId;
      }
      cursor := cursor + items[k].quantity;
    }
    productId := if |items| > 0 then items[0].productId else 0;
  }

  /** The number of tickets an order is due. */
  method CountTickets(items: seq<Item>) returns (total: nat)
    ensures total == |Expand(items)|
  {
    total := 0;
    for k := 0 to |items|
      invariant TotalQuantity(items) == total + TotalQuantity(items[k..])
    {
      assert items[k..][1..] == items[k + 1..];
      total := total + items[k].quantity;
    }
  }

  function IsFor(productId: int): Ticket -> bool {
    (t: Ticket) => t.productId == Some(productId)
  }

  lemma {:induction false} ExpandCounts(items: seq<Item>, productId: int)
    ensures Count(Expand(items), x => x == productId) == QuantityOf(items, productId)
  {
    if items != [] {
      var run := seq(items[0].quantity, _ => items[0].productId);
      CountConcat(run, Expand(items[1..]), x => x == productId);
      CountUniform(run, x => x == productId, items[0].productId == productId);
      ExpandCounts(items[1..], productId);
    }
  }

  /** An order's tickets carry every product exactly as often as the order buys it. */
  lemma GeneratedCounts(oid: int, items: seq<Item>, codes: nat -> string, productId: int)
    requires productId != 0
    ensures Count(Generated(oid, items, codes), IsFor(productId)) == QuantityOf(items, productId)
  {
    CountAligned(Generated(oid, items, codes), IsFor(productId), Expand(items), x => x == productId);
    ExpandCounts(items, productId);
  }

  /** The ticket of each unit names the unit's product, or none for product 0, and carries the code drawn for it. */
  lemma TicketsNameTheirUnits(oid: int, items: seq<Item>, codes: nat -> string, i: nat)
    requires i < |Expand(items)|
    ensures Generated(oid, items, codes)[i] == Ticket(oid, if Expand(items)[i] == 0 then None
      else Some(Expand(items)[i]), codes(i), if i == 0 then Assigned else Available)
  {}
}
