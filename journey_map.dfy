/** The route map's click handler (src/components/game/JourneyMap.tsx): a move is allowed to an
    adjacent or already visited destination whose requirements the player meets. */
module JourneyMap {
  import opened Resources
  import opened Destinations
  import opened GameStore

  /** What a click on a destination does: nothing, the "not enough resources" alert, or a move. */
  datatype ClickOutcome = Ignored | NotEnoughResources | Moved

  /** Each required amount (absent = 0) is at most what the player holds. */
  predicate MeetsRequirements(r: Resources, required: Delta)
  {
    OrZero(required.travelPoints) <= r.travelPoints
    && OrZero(required.money) <= r.money
    && OrZero(required.culturalKnowledge) <= r.culturalKnowledge
  }

  function Abs(x: int): nat
  {
    if x < 0 then -x else x
  }

  /** `handleDestinationClick`: which branch a click on `id` takes. */
  function Click(s: GameState, id: string): (o: ClickOutcome)
    ensures o != Ignored ==> GetDestinationById(id).Some?
    ensures o != Ignored ==> GetDestinationById(s.player.currentDestinationId).Some?
    ensures o == Moved ==> MeetsRequirements(s.player.resources, GetDestinationById(id).value.requiredResources)
    ensures o == NotEnoughResources ==> !MeetsRequirements(s.player.resources, GetDestinationById(id).value.requiredResources)
  {
    var clicked := GetDestinationById(id);
    var current := GetDestinationById(s.player.currentDestinationId);
    if clicked.None? || current.None? then Ignored
    else
      var isAdjacent := Abs(clicked.value.position - current.value.position) == 1;
      var isVisited := id in s.player.visitedDestinations;
      if !(isAdjacent || isVisited) then Ignored
      else if MeetsRequirements(s.player.resources, clicked.value.requiredResources) then Moved
      else NotEnoughResources
  }

  /** The store after the click: only a successful click runs `moveToDestination`. */
  function AfterClick(s: GameState, id: string): (t: GameState)
  {
    if Click(s, id) == Moved then Apply(s, MoveToDestination(id)) else s
  }

  /** `isAccessible`: the marker is clickable when visited or one position past the current stop. */
  predicate IsAccessible(s: GameState, d: Destination)
  {
    d.id in s.player.visitedDestinations
    || (GetDestinationById(s.player.currentDestinationId).Some?
        && GetDestinationById(s.player.currentDestinationId).value.position == d.position - 1)
  }

  /** The `onClick` of the marker for the i-th destination. */
  function MarkerClick(s: GameState, i: nat): GameState
    requires i < |destinations|
  {
    if IsAccessible(s, destinations[i]) then AfterClick(s, destinations[i].id) else s
  }

  /** A move happens exactly when both ids are known, the target is adjacent or visited, and
      every requirement is met. */
  lemma MoveIff(s: GameState, id: string)
    ensures Click(s, id) == Moved <==>
      GetDestinationById(id).Some? && GetDestinationById(s.player.currentDestinationId).Some?
      && (Abs(GetDestinationById(id).value.position
              - GetDestinationById(s.player.currentDestinationId).value.position) == 1
          || id in s.player.visitedDestinations)
      && MeetsRequirements(s.player.resources, GetDestinationById(id).value.requiredResources)
  {
  }

  /** A rejected click (unknown id, too far, or the resource alert) leaves the store unchanged. */
  lemma RejectedClickChangesNothing(s: GameState, id: string)
    requires Click(s, id) != Moved
    ensures AfterClick(s, id) == s
  {
  }

  /** The store's hard-coded route lists the catalogue's ids in catalogue order. */
  lemma RouteIsCatalogueOrder()
    ensures |route| == |destinations|
    ensures forall i :: 0 <= i < |route| ==> route[i] == destinations[i].id
  {
  }

  /** For a catalogue id the store's route index is the destination's position. */
  lemma RouteIndexIsPosition(id: string)
    requires GetDestinationById(id).Some?
    ensures IndexOf(route, id) == GetDestinationById(id).value.position
  {
    RouteIsCatalogueOrder();
    PositionIsIndex();
    IdsDistinct();
    var k := FindIndex(id);
    var r := IndexOf(route, id);
    assert id in route by { assert route[k] == id; }
    assert r == k;
  }

  /** A successful move only relocates the player: requirements are a threshold, not a cost,
      and the store's route index becomes the target's position. */
  lemma MoveKeepsResources(s: GameState, id: string)
    requires NoDuplicates(s.player.visitedDestinations)
    requires Click(s, id) == Moved
    ensures AfterClick(s, id).player.resources == s.player.resources
    ensures AfterClick(s, id).player.score == s.player.score
    ensures AfterClick(s, id).player.currentDestinationId == id
    ensures id in AfterClick(s, id).player.visitedDestinations
    ensures AfterClick(s, id).currentDestinationIndex == GetDestinationById(id).value.position
  {
    assert AfterClick(s, id) == Apply(s, MoveToDestination(id));
    MovedFacts(s, id);
  }

  /** What `moveToDestination` does for a known destination. */
  lemma MovedFacts(s: GameState, id: string)
    requires NoDuplicates(s.player.visitedDestinations)
    requires GetDestinationById(id).Some?
    ensures var t := Apply(s, MoveToDestination(id));
      && t.player.resources == s.player.resources
      && t.player.score == s.player.score
      && t.player.currentDestinationId == id
      && id in t.player.visitedDestinations
      && t.currentDestinationIndex == GetDestinationById(id).value.position
  {
    MoveUpdatesLocation(s, id);
    RouteIndexIsPosition(id);
  }

  /** The lookups the first moves rely on. */
  lemma FirstLookups()
    ensures GetDestinationById("amsterdam") == Some(destinations[0])
    ensures GetDestinationById("rotterdam") == Some(destinations[1])
    ensures GetDestinationById("cologne") == Some(destinations[2])
  {
    FindIndexOfEntry(0);
    FindIndexOfEntry(1);
    FindIndexOfEntry(2);
  }

  /** From the initial state a click on Cologne (two stops ahead, not visited) does nothing. */
  lemma CologneNotReachableFirst()
    ensures Click(initialGameState, "cologne") == Ignored
    ensures AfterClick(initialGameState, "cologne") == initialGameState
  {
    FirstLookups();
    assert "cologne" !in initialGameState.player.visitedDestinations;
  }

  /** From the initial state a click on Rotterdam (needs 10 travel points, the player holds 100)
      moves the player there and spends nothing. */
  lemma RotterdamReachableFirst()
    ensures Click(initialGameState, "rotterdam") == Moved
    ensures AfterClick(initialGameState, "rotterdam").player.currentDestinationId == "rotterdam"
    ensures AfterClick(initialGameState, "rotterdam").player.visitedDestinations == ["amsterdam", "rotterdam"]
    ensures AfterClick(initialGameState, "rotterdam").player.resources == Resources(100, 1000, 0)
    ensures AfterClick(initialGameState, "rotterdam").currentDestinationIndex == 1
  {
    RotterdamClickMoves();
    var t := Apply(initialGameState, MoveToDestination("rotterdam"));
    assert AfterClick(initialGameState, "rotterdam") == t;
    DedupOfDistinct(["amsterdam", "rotterdam"]);
    assert IndexOf(route, "rotterdam") == 1;
  }

  /** The gate lets the first click on Rotterdam through. */
  lemma RotterdamClickMoves()
    ensures Click(initialGameState, "rotterdam") == Moved
  {
    FirstLookups();
    assert MeetsRequirements(initialGameState.player.resources, destinations[1].requiredResources);
  }

  /** The visited list is the route up to some stop and holds the current location. */
  predicate VisitedIsRoutePrefix(s: GameState)
  {
    var v := s.player.visitedDestinations;
    1 <= |v| <= |route| && v == route[..|v|] && s.player.currentDestinationId in v
  }

  lemma RoutePrefixDistinct(k: nat)
    requires k <= |route|
    ensures NoDuplicates(route[..k])
  {
  }

  /** In a prefix state the current stop is a visited one, at its own route position. */
  lemma CurrentStopOnRoute(s: GameState) returns (j: nat)
    requires VisitedIsRoutePrefix(s)
    ensures j < |s.player.visitedDestinations|
    ensures s.player.visitedDestinations[j] == s.player.currentDestinationId
    ensures GetDestinationById(s.player.currentDestinationId) == Some(destinations[j])
    ensures destinations[j].position == j
  {
    var v := s.player.visitedDestinations;
    j :| 0 <= j < |v| && v[j] == s.player.currentDestinationId;
    RouteIsCatalogueOrder();
    PositionIsIndex();
    FindIndexOfEntry(j);
  }

  /** An accessible destination that is not yet visited is the one just past the visited prefix. */
  lemma UnvisitedAccessibleIsNext(s: GameState, i: nat)
    requires i < |destinations|
    requires VisitedIsRoutePrefix(s)
    requires destinations[i].id !in s.player.visitedDestinations
    requires IsAccessible(s, destinations[i])
    ensures i == |s.player.visitedDestinations|
  {
    var v := s.player.visitedDestinations;
    var j := CurrentStopOnRoute(s);
    PositionIsIndex();
    RouteIsCatalogueOrder();
    assert i == j + 1;
  }

  /** One marker click keeps the visited list a prefix of the route: an unvisited destination is
      reachable only one position past the current stop, which is then the furthest visited one. */
  lemma MarkerClickKeepsPrefix(s: GameState, i: nat)
    requires i < |destinations|
    requires VisitedIsRoutePrefix(s)
    ensures VisitedIsRoutePrefix(MarkerClick(s, i))
  {
    var id := destinations[i].id;
    if IsAccessible(s, destinations[i]) && Click(s, id) == Moved {
      if id !in s.player.visitedDestinations {
        UnvisitedAccessibleIsNext(s, i);
        RouteIsCatalogueOrder();
      }
      MoveExtendsPrefix(s, id);
    }
  }

  /** Moving to a visited stop, or to the stop just past the visited prefix, keeps the prefix shape. */
  lemma MoveExtendsPrefix(s: GameState, id: string)
    requires VisitedIsRoutePrefix(s)
    requires id in s.player.visitedDestinations
      || (|s.player.visitedDestinations| < |route| && id == route[|s.player.visitedDestinations|])
    ensures VisitedIsRoutePrefix(Apply(s, MoveToDestination(id)))
  {
    var v := s.player.visitedDestinations;
    var k := |v|;
    RoutePrefixDistinct(k);
    MoveUpdatesLocation(s, id);
    if id !in v {
      var w := Apply(s, MoveToDestination(id)).player.visitedDestinations;
      assert w == v + [id];
      PrefixStep(route, k);
      assert w == route[..k + 1];
      assert |w| == k + 1;
    }
  }

  lemma PrefixStep(r: seq<string>, k: nat)
    requires k < |r|
    ensures r[..k] + [r[k]] == r[..k + 1]
  {
  }

  /** Whatever markers are clicked from the start, the player has visited exactly the route up to
      the furthest stop reached, in order. */
  lemma {:induction false} MarkerClicksVisitRoutePrefix(s: GameState, clicks: seq<nat>)
    requires VisitedIsRoutePrefix(s)
    requires forall k :: 0 <= k < |clicks| ==> clicks[k] < |destinations|
    ensures VisitedIsRoutePrefix(MarkerClicks(s, clicks))
    decreases |clicks|
  {
    if clicks != [] {
      MarkerClickKeepsPrefix(s, clicks[0]);
      MarkerClicksVisitRoutePrefix(MarkerClick(s, clicks[0]), clicks[1..]);
    }
  }

  /** A run of marker clicks, in order. */
  function MarkerClicks(s: GameState, clicks: seq<nat>): GameState
    requires forall k :: 0 <= k < |clicks| ==> clicks[k] < |destinations|
    decreases |clicks|
  {
    if clicks == [] then s else MarkerClicks(MarkerClick(s, clicks[0]), clicks[1..])
  }

  lemma InitialIsRoutePrefix()
    ensures VisitedIsRoutePrefix(initialGameState)
  {
  }
}
