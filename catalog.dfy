/** The product and promo-code rows the checkout routes read, and the rules
    they share: the sale-price selection and the validity of a promo code
    (active, not expired, under its usage cap). Prices are integer cents;
    times are milliseconds since the epoch. */
module Catalog {
  import opened Common

  datatype Product = Product(id: string, name: string, priceCents: int, salePriceCents: Option<int>,
                             onSale: bool, stock: int, imageUrl: Option<string>)

  /** `(on_sale && sale_price) ? sale_price : price` (a zero sale price is
      falsy). */
  function UnitPriceCents(p: Product): (c: int)
    ensures p.onSale && p.salePriceCents.Some? && p.salePriceCents.value != 0 ==> c == p.salePriceCents.value
    ensures !(p.onSale && p.salePriceCents.Some? && p.salePriceCents.value != 0) ==> c == p.priceCents
  {
    if p.onSale && p.salePriceCents.Some? && p.salePriceCents.value != 0 then p.salePriceCents.value else p.priceCents
  }

  /** A row of `promo_codes`; the table is keyed by the (unique) code. */
  datatype PromoCode = PromoCode(id: string, code: string, discountPercentage: int, active: bool,
                                 expiresAt: Option<int>, maxUses: Option<int>, currentUses: Option<int>)

  /** `.eq('code', code).eq('active', true).single()` */
  function FindActive(promos: map<string, PromoCode>, code: string): (p: Option<PromoCode>)
    ensures p.Some? <==> code in promos && promos[code].active
    ensures p.Some? ==> p.value == promos[code]
  {
    if code in promos && promos[code].active then Some(promos[code]) else None
  }

  /** `expires_at && new Date(expires_at) < now` */
  predicate Expired(p: PromoCode, now: int) {
    p.expiresAt.Some? && p.expiresAt.value < now
  }

  /** `max_uses && (current_uses || 0) >= max_uses`; a zero cap is falsy
      and so means no cap. */
  predicate MaxedOut(p: PromoCode) {
    p.maxUses.Some? && p.maxUses.value != 0 && p.currentUses.GetOr(0) >= p.maxUses.value
  }

  predicate Usable(p: PromoCode, now: int) {
    p.active && !Expired(p, now) && !MaxedOut(p)
  }
}
