/** The discount of a promotion on an order (backend/src/coupons/coupon.service.ts). */
module Discount {
  import opened Schema
  import opened TicketCodes

  function Min(a: int, b: int): int { if a <= b then a else b }

  /** Dafny's `/` rounds down for a positive divisor, like Math.floor. */
  function ComputeDiscount(p: Promotion, subtotalCents: int, items: seq<Item>): (d: int)
    ensures d <= subtotalCents
  {
    match p.discountType
    case Percent => Min(subtotalCents, subtotalCents * p.discountValue / 100)
    case FixedAmount => Min(subtotalCents, p.discountValue * TotalQuantity(items))
  }

  lemma Nonneg(x: int, y: int)
    requires x >= 0 && y >= 0
    ensures x * y >= 0
  {}

  lemma AtLeast(x: int, y: int)
    requires x >= 0 && y >= 100
    ensures x * y >= 100 * x
  {
    Nonneg(x, y - 100);
  }

  /** A promotion with a non-negative value never makes the order dearer or free beyond its subtotal. */
  lemma DiscountBounds(p: Promotion, subtotalCents: int, items: seq<Item>)
    requires subtotalCents >= 0 && p.discountValue >= 0
    ensures 0 <= ComputeDiscount(p, subtotalCents, items) <= subtotalCents
    ensures 0 <= subtotalCents - ComputeDiscount(p, subtotalCents, items) <= subtotalCents
  {}

  /** PERCENT: the exact share rounded down to a cent, capped at the subtotal from 100 on. */
  lemma {:induction false} PercentIsFloor(p: Promotion, subtotalCents: int, items: seq<Item>)
    requires p.discountType.Percent? && subtotalCents >= 0
    ensures var d := ComputeDiscount(p, subtotalCents, items);
      if p.discountValue >= 100 then d == subtotalCents
      else 100 * d <= subtotalCents * p.discountValue < 100 * d + 100
  {
    if p.discountValue >= 100 {
      AtLeast(subtotalCents, p.discountValue);
    } else {
      Nonneg(subtotalCents, 100 - p.discountValue);
      assert subtotalCents * (100 - p.discountValue) == subtotalCents * 100 - subtotalCents * p.discountValue;
    }
  }

  /** FIXED_AMOUNT: its value for every single ticket of the order, capped at the subtotal. */
  lemma FixedIsPerTicket(p: Promotion, subtotalCents: int, items: seq<Item>)
    requires p.discountType.FixedAmount?
    ensures var d, perTicket := ComputeDiscount(p, subtotalCents, items), p.discountValue * |Expand(items)|;
      if perTicket <= subtotalCents then d == perTicket else d == subtotalCents
  {}

  /** When a promotion gives something: the only way an order stays open to another code is d == 0. */
  lemma DiscountIsPositive(p: Promotion, subtotalCents: int, items: seq<Item>)
    requires subtotalCents > 0 && p.discountValue >= 0
    ensures ComputeDiscount(p, subtotalCents, items) > 0 <==>
      match p.discountType
      case Percent => subtotalCents * p.discountValue >= 100
      case FixedAmount => p.discountValue > 0 && TotalQuantity(items) > 0
  {}
}
