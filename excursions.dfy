/** The excursion catalogue and its lookups (src/data/excursions.ts). */
module Excursions {
  import opened Resources

  datatype ExcursionType = Trivia | Cultural | Photography | Puzzle
  datatype Difficulty = Easy | Medium | Hard

  /** A catalogue entry. Titles, descriptions, images and the always-false `isCompleted` flag are
      presentation and left out. */
  datatype Excursion = Excursion(
    id: string,
    destinationId: string,
    kind: ExcursionType,
    difficulty: Difficulty,
    rewards: Delta)

  const excursions: seq<Excursion> := [
    Excursion("amsterdam-canal-tour", "amsterdam", Cultural, Easy, Delta(Some(5), Some(-20), Some(10))),
    Excursion("amsterdam-museum-visit", "amsterdam", Trivia, Medium, Delta(None, Some(-30), Some(15))),
    Excursion("amsterdam-local-cuisine", "amsterdam", Cultural, Easy, Delta(None, Some(-25), Some(5))),
    Excursion("rotterdam-harbor-tour", "rotterdam", Photography, Medium, Delta(None, Some(-35), Some(12))),
    Excursion("rotterdam-cube-houses", "rotterdam", Photography, Easy, Delta(None, Some(-15), Some(8))),
    Excursion("rotterdam-market-hall", "rotterdam", Cultural, Easy, Delta(None, Some(-30), Some(6))),
    Excursion("cologne-cathedral-visit", "cologne", Trivia, Medium, Delta(None, Some(-10), Some(15))),
    Excursion("cologne-chocolate-museum", "cologne", Cultural, Easy, Delta(None, Some(-25), Some(7))),
    Excursion("cologne-old-town-tour", "cologne", Photography, Medium, Delta(Some(5), Some(-15), Some(10))),
    Excursion("koblenz-fortress-visit", "koblenz", Trivia, Hard, Delta(None, Some(-40), Some(20)))
  ]

  /** `filter(e => e.destinationId === d)` over any list, keeping catalogue order. */
  function ByDestination(xs: seq<Excursion>, d: string): (r: seq<Excursion>)
    ensures |r| <= |xs|
    ensures forall e :: e in r <==> e in xs && e.destinationId == d
  {
    if xs == [] then []
    else
      var rest := ByDestination(xs[..|xs| - 1], d);
      var last := xs[|xs| - 1];
      assert xs == xs[..|xs| - 1] + [last];
      if last.destinationId == d then rest + [last] else rest
  }

  /** The filter keeps order: filtering a concatenation filters each part and joins the results
      in the same order. */
  lemma {:induction false} ByDestinationConcat(a: seq<Excursion>, b: seq<Excursion>, d: string)
    ensures ByDestination(a + b, d) == ByDestination(a, d) + ByDestination(b, d)
    decreases |b|
  {
    if b == [] {
      assert a + b == a;
    } else {
      var front := b[..|b| - 1];
      assert (a + b)[..|a + b| - 1] == a + front;
      ByDestinationConcat(a, front, d);
    }
  }

  /** `getExcursionsByDestination`. */
  function GetExcursionsByDestination(d: string): (r: seq<Excursion>)
    ensures forall e :: e in r <==> e in excursions && e.destinationId == d
  {
    ByDestination(excursions, d)
  }

  /** The index of the first entry of `xs` at or after `from` with that id, or -1. */
  function IndexFrom(xs: seq<Excursion>, id: string, from: nat): (r: int)
    requires from <= |xs|
    ensures r == -1 || from <= r < |xs|
    ensures r >= 0 ==> xs[r].id == id
    ensures forall k :: from <= k < |xs| && (r == -1 || k < r) ==> xs[k].id != id
    decreases |xs| - from
  {
    if from == |xs| then -1
    else if xs[from].id == id then from
    else IndexFrom(xs, id, from + 1)
  }

  /** `getExcursionById`. */
  function GetExcursionById(id: string): (r: Option<Excursion>)
    ensures r.Some? ==> r.value in excursions && r.value.id == id
    ensures r.None? <==> forall k :: 0 <= k < |excursions| ==> excursions[k].id != id
    ensures r.Some? ==> exists k :: 0 <= k < |excursions| && excursions[k] == r.value
                          && forall j :: 0 <= j < k ==> excursions[j].id != id
  {
    var i := IndexFrom(excursions, id, 0);
    if i >= 0 then Some(excursions[i]) else None
  }

  /** Catalogue facts: ten entries, every reward costs money and teaches something. */
  lemma CatalogueFacts()
    ensures |excursions| == 10
    ensures forall i :: 0 <= i < |excursions| ==>
      excursions[i].rewards.money.Some? && excursions[i].rewards.money.value < 0
      && excursions[i].rewards.culturalKnowledge.Some? && excursions[i].rewards.culturalKnowledge.value > 0
  {
  }

  /** No two entries share an id. */
  lemma ExcursionIdsDistinct()
    ensures forall i, j :: 0 <= i < j < |excursions| ==> excursions[i].id != excursions[j].id
  {
  }

  /** No entry belongs to Basel. */
  lemma NoBaselEntries()
    ensures forall i :: 0 <= i < |excursions| ==> excursions[i].destinationId != "basel"
  {
  }

  /** So the last destination offers no excursion at all. */
  lemma NoBaselExcursions()
    ensures GetExcursionsByDestination("basel") == []
  {
    NoBaselEntries();
    NoneMatching(excursions, "basel");
  }

  /** Filtering for a destination no entry has leaves nothing. */
  lemma {:induction false} NoneMatching(xs: seq<Excursion>, d: string)
    requires forall i :: 0 <= i < |xs| ==> xs[i].destinationId != d
    ensures ByDestination(xs, d) == []
  {
    if xs != [] {
      NoneMatching(xs[..|xs| - 1], d);
    }
  }

  /** Ids that destinations advertise but the catalogue lacks are not found. */
  lemma AdvertisedButMissing()
    ensures GetExcursionById("koblenz-wine-tasting").None?
    ensures GetExcursionById("basel-old-town-tour").None?
  {
  }
}
