/** The souvenir catalogue and its lookups (src/data/souvenirs.ts). */
module Souvenirs {
  import opened Resources

  datatype Rarity = Common | Rare | Special

  /** A catalogue entry. Names, descriptions and images are presentation and left out. */
  datatype Souvenir = Souvenir(
    id: string,
    rarity: Rarity,
    pointValue: int,
    destinationId: string,
    bonusEffect: Option<Delta>)

  const souvenirs: seq<Souvenir> := [
    Souvenir("amsterdam-wooden-shoes", Common, 10, "amsterdam", None),
    Souvenir("amsterdam-delft-blue", Rare, 20, "amsterdam", Some(Delta(None, None, Some(5)))),
    Souvenir("rotterdam-cube-house-model", Common, 10, "rotterdam", None),
    Souvenir("rotterdam-port-painting", Rare, 20, "rotterdam", Some(Delta(None, None, Some(5)))),
    Souvenir("cologne-eau-de-cologne", Common, 10, "cologne", None),
    Souvenir("cologne-cathedral-model", Rare, 20, "cologne", Some(Delta(None, None, Some(5)))),
    Souvenir("koblenz-wine", Common, 10, "koblenz", None),
    Souvenir("koblenz-fortress-replica", Rare, 20, "koblenz", Some(Delta(None, None, Some(5)))),
    Souvenir("rudesheim-music-box", Common, 10, "rudesheim", None),
    Souvenir("rudesheim-wine-glasses", Rare, 20, "rudesheim", Some(Delta(None, Some(50), None))),
    Souvenir("basel-chocolate", Common, 10, "basel", None),
    Souvenir("basel-art-print", Rare, 20, "basel", Some(Delta(None, None, Some(10)))),
    Souvenir("rhine-journey-map", Special, 50, "basel", Some(Delta(Some(20), None, Some(15))))
  ]

  /** The points a souvenir of each rarity is worth. */
  function PointsFor(r: Rarity): int
  {
    match r
    case Common => 10
    case Rare => 20
    case Special => 50
  }

  /** `filter(s => s.destinationId === d)` over any list, keeping catalogue order. */
  function ByDestination(xs: seq<Souvenir>, d: string): (r: seq<Souvenir>)
    ensures |r| <= |xs|
    ensures forall s :: s in r <==> s in xs && s.destinationId == d
  {
    if xs == [] then []
    else
      var rest := ByDestination(xs[..|xs| - 1], d);
      var last := xs[|xs| - 1];
      assert xs == xs[..|xs| - 1] + [last];
      if last.destinationId == d then rest + [last] else rest
  }

  /** The filter keeps order: filtering a concatenation filters each part and joins the results
      in the same order. */
  lemma {:induction false} ByDestinationConcat(a: seq<Souvenir>, b: seq<Souvenir>, d: string)
    ensures ByDestination(a + b, d) == ByDestination(a, d) + ByDestination(b, d)
    decreases |b|
  {
    if b == [] {
      assert a + b == a;
    } else {
      var front := b[..|b| - 1];
      assert (a + b)[..|a + b| - 1] == a + front;
      ByDestinationConcat(a, front, d);
    }
  }

  /** `getSouvenirsByDestination`. */
  function GetSouvenirsByDestination(d: string): (r: seq<Souvenir>)
    ensures forall s :: s in r <==> s in souvenirs && s.destinationId == d
  {
    ByDestination(souvenirs, d)
  }

  /** The index of the first entry of `xs` at or after `from` with that id, or -1. */
  function IndexFrom(xs: seq<Souvenir>, id: string, from: nat): (r: int)
    requires from <= |xs|
    ensures r == -1 || from <= r < |xs|
    ensures r >= 0 ==> xs[r].id == id
    ensures forall k :: from <= k < |xs| && (r == -1 || k < r) ==> xs[k].id != id
    decreases |xs| - from
  {
    if from == |xs| then -1
    else if xs[from].id == id then from
    else IndexFrom(xs, id, from + 1)
  }

  /** `getSouvenirById`: the first entry with that id, or none. */
  function GetSouvenirById(id: string): (r: Option<Souvenir>)
    ensures r.Some? ==> r.value in souvenirs && r.value.id == id
    ensures r.None? <==> forall k :: 0 <= k < |souvenirs| ==> souvenirs[k].id != id
  {
    var i := IndexFrom(souvenirs, id, 0);
    if i >= 0 then Some(souvenirs[i]) else None
  }

  /** Point values follow rarity, and no bonus lowers a resource. */
  lemma CatalogueFacts()
    ensures |souvenirs| == 13
    ensures forall i :: 0 <= i < |souvenirs| ==> souvenirs[i].pointValue == PointsFor(souvenirs[i].rarity)
    ensures forall i :: 0 <= i < |souvenirs| && souvenirs[i].bonusEffect.Some? ==>
      NonNegative(souvenirs[i].bonusEffect.value)
  {
  }

  lemma IdsDistinct()
    ensures forall i, j :: 0 <= i < j < |souvenirs| ==> souvenirs[i].id != souvenirs[j].id
  {
  }

  /** The antique map, sold in Basel, is the only special souvenir. */
  lemma OnlyOneSpecial()
    ensures forall i :: 0 <= i < |souvenirs| ==>
      (souvenirs[i].rarity == Special <==> souvenirs[i].id == "rhine-journey-map")
    ensures souvenirs[12].rarity == Special && souvenirs[12].destinationId == "basel"
  {
  }

  /** Each destination sells one common souvenir (at index 2k) and one rare one (at 2k+1), and
      nothing else is common or rare. */
  lemma OneCommonOneRarePerDestination()
    ensures forall k :: 0 <= k < 6 ==>
      souvenirs[2 * k].rarity == Common && souvenirs[2 * k + 1].rarity == Rare
      && souvenirs[2 * k].destinationId == souvenirs[2 * k + 1].destinationId
    ensures forall i :: 0 <= i < 12 ==> souvenirs[i].destinationId == ["amsterdam", "rotterdam", "cologne", "koblenz", "rudesheim", "basel"][i / 2]
    ensures souvenirs[12].rarity == Special
  {
  }
}
