/**
 * The ticket tiers, their unit prices, the quantities chosen in the booking
 * dialog and the total shown in its footer.
 */
module Pricing {
  import opened Wrappers

  datatype Tier = Vip | General | EarlyBird

  /** The tier table: VIP 5000, GENERAL 3000, EARLYBIRD 2500 (LKR). */
  function Price(tier: Tier): (p: nat)
    ensures p in {5000, 3000, 2500}
  {
    match tier
    case Vip => 5000
    case General => 3000
    case EarlyBird => 2500
  }

  /** A quantity the number widget can hold: it is bounded to 0..10. */
  type Quantity = q: int | 0 <= q <= 10

  /** The per-tier quantities (the `tickets` record). */
  datatype Tickets = Tickets(vip: Quantity, general: Quantity, earlyBird: Quantity) {

    function Get(tier: Tier): Quantity {
      match tier
      case Vip => vip
      case General => general
      case EarlyBird => earlyBird
    }

    /** `{ ...tickets, [tier]: q }` */
    function With(tier: Tier, q: Quantity): (t: Tickets)
      ensures t.Get(tier) == q
      ensures forall other :: other != tier ==> t.Get(other) == Get(other)
    {
      match tier
      case Vip => this.(vip := q)
      case General => this.(general := q)
      case EarlyBird => this.(earlyBird := q)
    }
  }

  const NoTickets := Tickets(0, 0, 0)

  /** The footer total; it never exceeds ten of each tier. */
  function Total(t: Tickets): (r: nat)
    ensures r <= 10 * (Price(Vip) + Price(General) + Price(EarlyBird))
  {
    t.vip * Price(Vip) + t.general * Price(General) + t.earlyBird * Price(EarlyBird)
  }

  /** Quantities are never negative, so the total is zero exactly when nothing is selected. */
  lemma TotalZeroIff(t: Tickets)
    ensures Total(t) == 0 <==> t == NoTickets
  {
  }

  /** The total as the sum, over the tiers, of quantity times unit price. */
  function SumOver(tiers: seq<Tier>, t: Tickets): int {
    if tiers == [] then 0 else t.Get(tiers[0]) * Price(tiers[0]) + SumOver(tiers[1..], t)
  }

  lemma TotalIsSumOverTiers(t: Tickets)
    ensures Total(t) == SumOver([Vip, General, EarlyBird], t)
  {
    assert [Vip, General, EarlyBird][1..] == [General, EarlyBird];
    assert [General, EarlyBird][1..] == [EarlyBird];
    assert [EarlyBird][1..] == [];
    assert SumOver([EarlyBird], t) == t.earlyBird * Price(EarlyBird) + SumOver([], t);
    assert SumOver([General, EarlyBird], t) == t.general * Price(General) + SumOver([EarlyBird], t);
  }

  /** Changing one tier's quantity moves the total by that tier's price times the change. */
  lemma TotalWith(t: Tickets, tier: Tier, q: Quantity)
    ensures Total(t.With(tier, q)) == Total(t) + (q - t.Get(tier)) * Price(tier)
  {
  }

  /** Tickets of a single tier cost their number times that tier's price. */
  lemma TotalSingleTier(tier: Tier, q: Quantity)
    ensures Total(NoTickets.With(tier, q)) == q * Price(tier)
  {
    match tier
    case Vip =>
    case General =>
    case EarlyBird =>
  }

  /** One more ticket of a tier adds exactly that tier's unit price. */
  lemma TotalIncrement(t: Tickets, tier: Tier)
    requires t.Get(tier) < 10
    ensures Total(t.With(tier, t.Get(tier) + 1)) == Total(t) + Price(tier)
  {
    TotalWith(t, tier, t.Get(tier) + 1);
  }

  /** More of every tier never costs less. */
  lemma TotalMonotone(s: Tickets, t: Tickets)
    requires forall tier :: s.Get(tier) <= t.Get(tier)
    ensures Total(s) <= Total(t)
  {
    assert s.Get(Vip) <= t.Get(Vip) && s.Get(General) <= t.Get(General) && s.Get(EarlyBird) <= t.Get(EarlyBird);
    assert s.vip * 5000 <= t.vip * 5000 && s.general * 3000 <= t.general * 3000;
    assert s.earlyBird * 2500 <= t.earlyBird * 2500;
  }

  /**
   * The quantity a value change stores: `e.value || 0`, so an emptied
   * widget (null) stores 0.
   */
  function StoredQuantity(value: Option<Quantity>): (q: Quantity)
    ensures value.Some? ==> q == value.value
    ensures value.None? ==> q == 0
  {
    value.GetOr(0)
  }
}
