/** The fixed route of six destinations and its lookups (src/data/destinations.ts). */
module Destinations {
  import opened Resources

  /** A stop on the route. Descriptions and images are presentation and left out. */
  datatype Destination = Destination(
    id: string,
    name: string,
    position: int,
    requiredResources: Delta,
    excursions: seq<string>)

  const destinations: seq<Destination> := [
    Destination("amsterdam", "Amsterdam", 0, NoDelta,
      ["amsterdam-canal-tour", "amsterdam-museum-visit", "amsterdam-local-cuisine"]),
    Destination("rotterdam", "Rotterdam", 1, Delta(Some(10), None, None),
      ["rotterdam-harbor-tour", "rotterdam-cube-houses", "rotterdam-market-hall"]),
    Destination("cologne", "Cologne", 2, Delta(Some(20), None, Some(5)),
      ["cologne-cathedral-visit", "cologne-chocolate-museum", "cologne-old-town-tour"]),
    Destination("koblenz", "Koblenz", 3, Delta(Some(30), None, Some(10)),
      ["koblenz-fortress-visit", "koblenz-wine-tasting", "koblenz-cable-car-ride"]),
    Destination("rudesheim", "Rüdesheim", 4, Delta(Some(40), Some(200), Some(15)),
      ["rudesheim-wine-tasting", "rudesheim-music-museum", "rudesheim-cable-car"]),
    Destination("basel", "Basel", 5, Delta(Some(50), Some(300), Some(20)),
      ["basel-old-town-tour", "basel-art-museum", "basel-rhine-swimming"])
  ]

  /** The index of the first destination with this id at or after `from`, or -1 (`findIndex`). */
  function IndexFrom(id: string, from: nat): (r: int)
    requires from <= |destinations|
    ensures r == -1 || from <= r < |destinations|
    ensures r >= 0 ==> destinations[r].id == id
    ensures forall k :: from <= k < |destinations| && (r == -1 || k < r) ==> destinations[k].id != id
    decreases |destinations| - from
  {
    if from == |destinations| then -1
    else if destinations[from].id == id then from
    else IndexFrom(id, from + 1)
  }

  /** `destinations.findIndex(d => d.id === id)`. */
  function FindIndex(id: string): (r: int)
    ensures -1 <= r < |destinations|
    ensures r >= 0 ==> destinations[r].id == id
    ensures forall k :: 0 <= k < |destinations| && (r == -1 || k < r) ==> destinations[k].id != id
  {
    IndexFrom(id, 0)
  }

  /** `getDestinationById`: the entry with that id, or none. */
  function GetDestinationById(id: string): (r: Option<Destination>)
    ensures r.Some? <==> exists k :: 0 <= k < |destinations| && destinations[k].id == id
    ensures r.Some? ==> r.value in destinations && r.value.id == id
  {
    var i := FindIndex(id);
    if i >= 0 then Some(destinations[i]) else None
  }

  /** `getNextDestination`: the entry after the one with that id; none for the last or an unknown id. */
  function GetNextDestination(id: string): (r: Option<Destination>)
    ensures r.Some? <==> 0 <= FindIndex(id) < |destinations| - 1
    ensures r.Some? ==> r.value == destinations[FindIndex(id) + 1]
  {
    var i := FindIndex(id);
    if 0 <= i < |destinations| - 1 then Some(destinations[i + 1]) else None
  }

  /** No two destinations share an id. */
  predicate DistinctIds()
  {
    forall i, j :: 0 <= i < j < |destinations| ==> destinations[i].id != destinations[j].id
  }

  /** Each destination's position is its index in the list. */
  lemma PositionIsIndex()
    ensures |destinations| == 6
    ensures forall i :: 0 <= i < |destinations| ==> destinations[i].position == i
  {
  }

  lemma IdsDistinct()
    ensures DistinctIds()
  {
  }

  /** The route becomes harder: the first stop asks nothing, required travel points rise by 10
      per stop, and the knowledge and money requirements never fall. */
  lemma RequirementsRise()
    ensures destinations[0].requiredResources == NoDelta
    ensures forall i :: 1 <= i < |destinations| ==>
      OrZero(destinations[i].requiredResources.travelPoints) == 10 * i
    ensures forall i :: 0 <= i < |destinations| - 1 ==>
      OrZero(destinations[i].requiredResources.culturalKnowledge)
        <= OrZero(destinations[i + 1].requiredResources.culturalKnowledge)
      && OrZero(destinations[i].requiredResources.money)
        <= OrZero(destinations[i + 1].requiredResources.money)
  {
  }

  /** The lookup by id finds the entry at its own index. */
  lemma {:induction false} FindIndexOfEntry(i: nat)
    requires i < |destinations|
    ensures FindIndex(destinations[i].id) == i
  {
    IdsDistinct();
  }

  /** The destination after a known one sits exactly one position further along the route. */
  lemma NextIsOneStepAhead(id: string)
    requires GetNextDestination(id).Some?
    ensures GetDestinationById(id).Some?
    ensures GetNextDestination(id).value.position == GetDestinationById(id).value.position + 1
  {
    PositionIsIndex();
  }
}
