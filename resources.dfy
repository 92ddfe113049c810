/** Values shared by the progression engine: optional fields and the resources triple
    (src/types/game.types.tsx). */
module Resources {

  /** An absent or present value, as a TypeScript optional field. */
  datatype Option<+T> = None | Some(value: T)

  /** The three counters a player holds. */
  datatype Resources = Resources(travelPoints: int, money: int, culturalKnowledge: int)

  /** A `Partial<Resources>`: every field may be left out. */
  datatype Delta = Delta(travelPoints: Option<int>, money: Option<int>, culturalKnowledge: Option<int>)

  const NoDelta: Delta := Delta(None, None, None)

  /** `field || 0`: an absent amount counts as zero. */
  function OrZero(o: Option<int>): int
  {
    match o
    case None => 0
    case Some(v) => v
  }

  /** Adds each supplied amount to its counter. */
  function Add(r: Resources, d: Delta): Resources
  {
    Resources(r.travelPoints + OrZero(d.travelPoints),
              r.money + OrZero(d.money),
              r.culturalKnowledge + OrZero(d.culturalKnowledge))
  }

  /** True when no supplied amount is negative. */
  predicate NonNegative(d: Delta)
  {
    OrZero(d.travelPoints) >= 0 && OrZero(d.money) >= 0 && OrZero(d.culturalKnowledge) >= 0
  }

  /** Applying two deltas gives the same counters in either order. */
  lemma AddCommutes(r: Resources, d1: Delta, d2: Delta)
    ensures Add(Add(r, d1), d2) == Add(Add(r, d2), d1)
  {
  }

  /** A delta without negative amounts never lowers a counter. */
  lemma AddNonNegativeGrows(r: Resources, d: Delta)
    requires NonNegative(d)
    ensures Add(r, d).travelPoints >= r.travelPoints
    ensures Add(r, d).money >= r.money
    ensures Add(r, d).culturalKnowledge >= r.culturalKnowledge
  {
  }
}
