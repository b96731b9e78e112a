/** The guarded UPDATEs of the inventory service, on one row (backend/src/inventory). */
module Stock {
  import opened Common
  import opened Schema

  /** Every unit is available, reserved or sold. */
  predicate Balanced(i: Inventory) {
    i.availableStock + i.reservedStock + i.soldStock == i.initialStock
  }

  /** The CHECK constraints of the inventory table. */
  predicate ChecksHold(i: Inventory) {
    && i.reservedStock >= 0 && i.soldStock >= 0 && i.availableStock >= 0
    && i.reservedStock + i.soldStock <= i.initialStock
  }

  function Reserve(i: Inventory, quantity: int): (r: Option<Inventory>)
    ensures r.Some? ==> (Balanced(i) <==> Balanced(r.value))
  {
    if i.availableStock >= quantity then
      Some(i.(reservedStock := i.reservedStock + quantity,
              availableStock := i.availableStock - quantity, version := i.version + 1))
    else None
  }

  function Release(i: Inventory, quantity: int): (r: Option<Inventory>)
    ensures r.Some? ==> (Balanced(i) <==> Balanced(r.value))
    ensures r.Some? && i.availableStock >= 0 ==>
      Reserve(r.value, quantity) == Some(i.(version := i.version + 2))
  {
    if i.reservedStock >= quantity then
      Some(i.(reservedStock := i.reservedStock - quantity,
              availableStock := i.availableStock + quantity, version := i.version + 1))
    else None
  }

  function Sell(i: Inventory, quantity: int): (r: Option<Inventory>)
    ensures r.Some? ==> (Balanced(i) <==> Balanced(r.value))
    ensures r.Some? ==> r.value.availableStock == i.availableStock
  {
    if i.reservedStock >= quantity then
      Some(i.(soldStock := i.soldStock + quantity,
              reservedStock := i.reservedStock - quantity, version := i.version + 1))
    else None
  }

  function Restock(i: Inventory, additional: int): (r: Inventory)
    ensures Balanced(i) <==> Balanced(r)
  {
    i.(initialStock := i.initialStock + additional,
       availableStock := i.availableStock + additional, version := i.version + 1)
  }

  function Reconcile(i: Inventory): (r: Inventory)
    ensures Balanced(r)
    ensures Balanced(i) <==> r == i.(version := i.version + 1)
  {
    i.(availableStock := i.initialStock - i.reservedStock - i.soldStock, version := i.version + 1)
  }
}
