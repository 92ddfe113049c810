# Rhine River Cruise game: a verified model

The Rhine River Cruise game is a browser game about a river journey from Amsterdam to Basel.
This project models in Dafny the parts of it that carry rules, and proves what those rules
guarantee:

- **The progression engine.**
  - The store is one state record: name, level, resources triple, location, visited /
    completed / collected id lists, score and flags. Every action replaces the record
    (`GameStore`).
  - Three gated handlers use it:
    - the route map's move gate (`JourneyMap`);
    - the souvenir shop's purchase sequence (`SouvenirShop`);
    - the completion page (`GameComplete`): its precondition, rounded percentages, level and
      final score.
- **The static catalogues and their lookups.** Destinations, excursions, souvenirs and the
  trivia bank, with their facts (`Destinations`, `Excursions`, `Souvenirs`, `HistoricalTrivia`).
- **The arcade river game's frame step.** It covers:
  - strict rectangle overlap;
  - clamped movement;
  - timed spawning;
  - advance-and-cull;
  - collision resolution, with bullets before the ship;
  - power-ups: one per effect, expiry and a healing cap;
  - ports, with the completion bonus.

  Each phase is a loop proved against a recursive rule (`ArcadeRules`). The game object runs the
  phases in the loop's order (`ArcadeGame`).
- **The excursion challenges and the travel guide.** The trivia quiz, the etiquette scenarios,
  the riddle with hints, the photo tour, and the guide's keyword matcher (`TriviaChallenge`,
  `CulturalChallenge`, `PuzzleChallenge`, `PhotographyChallenge`, `AIGuide`).

Two modules are shared. `Resources` holds the resources triple and partial deltas. `Text`
holds ASCII `trim`, `toLowerCase` and `includes`.

**Form of the model.**
- Code that changes state becomes a class:
  - the store (`GameStore.Store`);
  - the arcade component (`ArcadeGame.CruiseGame`);
  - each challenge's state cells (`*.Challenge`, `TriviaChallenge.Quiz`);
  - the guide (`AIGuide.Guide`).
- Each state-changing method states its new state. The store's methods state it through the pure
  transition `GameStore.Apply`; the arcade step states it through `ArcadeGame.FrameStep`. The
  properties are lemmas about those functions.
- The arcade frame's filters and `forEach` loops, the etiquette challenge's `calculateScore` and
  the guide's topic loop are `while` loops, each proved equal to a recursive rule. The catalogue
  lookups, the shop's offer, the completion precondition and the power-up replacement filter are
  single expressions in the source, and they stay recursive functions.

**Behaviour of the code worth knowing:**
- `completeExcursion` is not idempotent. Completing an excursion twice lists it twice and pays
  twice (`GameStore.CompleteExcursionNotIdempotent`).
- The engine has no typed errors. A rejected move or purchase only raises an alert, and the
  store is left as it was.
- There is no name validation.
- The level is a stored field, and the completion page derives a displayed level from it.
- `visitedDestinations` is an ordered, de-duplicated list.
- With the shipped catalogue the final destination (Basel) has no excursions. So the completion
  precondition can never hold, and the completion page never calls `completeGame`
  (`GameComplete.CompletionUnreachable`).

## Model

| member | source | states |
|---|---|---|
| Resources.AddCommutes | src/store/gameStore.ts:59-68 | applying two resource deltas gives the same counters in either order |
| Resources.AddNonNegativeGrows | src/store/gameStore.ts:59-68 | a delta without negative amounts never lowers any of the three counters |
| Text.LowerChar | src/components/game/challenges/PuzzleChallenge.tsx:54 | a lowered character is never an upper-case ASCII letter |
| Text.Lower | src/components/game/AIGuide.tsx:72 | `toLowerCase` keeps the length and lowers each character in place |
| Text.LowerIdempotent | src/components/game/AIGuide.tsx:72 | lowering twice is lowering once |
| Text.LeadingSpaces | src/components/game/challenges/PuzzleChallenge.tsx:54 | the count of leading whitespace: all of those characters are whitespace and the next one is not |
| Text.TrailingCut | src/components/game/challenges/PuzzleChallenge.tsx:54 | the length left after the trailing whitespace: everything after it is whitespace and the last kept character is not |
| Text.Trim | src/components/game/challenges/PuzzleChallenge.tsx:54-55 | `trim` is the slice between the leading and the trailing whitespace; a non-empty result begins and ends with a non-space |
| Text.TrimEmptyIffBlank | src/components/game/AIGuide.tsx:65 | trimming leaves nothing exactly when every character is whitespace |
| Destinations.IndexFrom | src/data/destinations.ts:76-78 | the first index at or after `from` holding the id, or -1 when no later entry has it |
| Destinations.FindIndex | src/data/destinations.ts:76-78 | `findIndex` by id: the first entry with that id, or -1 when none has it |
| Destinations.GetDestinationById | src/data/destinations.ts:76-78 | a destination is found exactly when some entry has the id, and it is a catalogue entry with that id |
| Destinations.GetNextDestination | src/data/destinations.ts:80-86 | defined exactly for a known non-final id, and then it is the entry one index further |
| Destinations.PositionIsIndex | src/data/destinations.ts:3-74 | six destinations, each with position equal to its list index |
| Destinations.IdsDistinct | src/data/destinations.ts:3-74 | no two destinations share an id |
| Destinations.RequirementsRise | src/data/destinations.ts:9-70 | the first stop requires nothing; stop i requires 10·i travel points; knowledge and money requirements never fall along the route |
| Destinations.FindIndexOfEntry | src/data/destinations.ts:76-78 | looking up a catalogue entry's id finds it at its own index |
| Destinations.NextIsOneStepAhead | src/data/destinations.ts:80-86 | when the next destination exists, the current one is known and the next sits one position further |
| Excursions.ByDestination | src/data/excursions.ts:159-161 | the filter keeps exactly the entries with that destination id |
| Excursions.ByDestinationConcat | src/data/excursions.ts:159-161 | the filter keeps catalogue order: filtering a concatenation joins the filtered parts in order |
| Excursions.GetExcursionsByDestination | src/data/excursions.ts:159-161 | exactly the catalogue entries of that destination |
| Excursions.IndexFrom | src/data/excursions.ts:163-165 | the first index at or after `from` holding the id, or -1 |
| Excursions.GetExcursionById | src/data/excursions.ts:163-165 | the first catalogue entry with that id, or none exactly when no entry has it |
| Excursions.CatalogueFacts | src/data/excursions.ts:3-157 | ten excursions; every money reward is negative and every knowledge reward positive |
| Excursions.ExcursionIdsDistinct | src/data/excursions.ts:3-157 | no two excursions share an id |
| Excursions.NoBaselEntries | src/data/excursions.ts:3-157 | no excursion belongs to Basel |
| Excursions.NoBaselExcursions | src/data/excursions.ts:159-161 | the Basel lookup returns the empty list |
| Excursions.NoneMatching | src/data/excursions.ts:159-161 | filtering for a destination no entry has gives the empty list |
| Excursions.AdvertisedButMissing | src/data/excursions.ts:163-165 | ids that destinations advertise but the catalogue lacks (koblenz-wine-tasting, basel-old-town-tour) are not found |
| Souvenirs.ByDestination | src/data/souvenirs.ts:158-160 | the filter keeps exactly the entries with that destination id |
| Souvenirs.ByDestinationConcat | src/data/souvenirs.ts:158-160 | the filter keeps catalogue order: filtering a concatenation joins the filtered parts in order |
| Souvenirs.GetSouvenirsByDestination | src/data/souvenirs.ts:158-160 | exactly the catalogue entries of that destination |
| Souvenirs.IndexFrom | src/data/souvenirs.ts:162-164 | the first index at or after `from` holding the id, or -1 |
| Souvenirs.GetSouvenirById | src/data/souvenirs.ts:162-164 | a catalogue entry with that id, or none exactly when no entry has it |
| Souvenirs.CatalogueFacts | src/data/souvenirs.ts:3-156 | thirteen souvenirs; point value is 10/20/50 by rarity; no bonus component is negative |
| Souvenirs.IdsDistinct | src/data/souvenirs.ts:3-156 | no two souvenirs share an id |
| Souvenirs.OnlyOneSpecial | src/data/souvenirs.ts:144-155 | the Basel map is the one and only special souvenir |
| Souvenirs.OneCommonOneRarePerDestination | src/data/souvenirs.ts:5-140 | each of the six destinations sells one common and one rare souvenir, in route order |
| HistoricalTrivia.GetHistoricalTrivia | src/data/historical-trivia.ts:135-137 | the bank's list for a known key, the empty list otherwise; so a caller gets either nothing or three well-formed questions |
| HistoricalTrivia.KeysAreDestinations | src/data/historical-trivia.ts:13-132 | the keys are exactly the six destination ids |
| HistoricalTrivia.BankShape | src/data/historical-trivia.ts:13-132 | every key has three questions, each with four answers and a right index in 0..3 |
| GameStore.IndexOf | src/store/gameStore.ts:71-72 | `indexOf`: the first index holding the value, or -1 exactly when it is absent |
| GameStore.Dedup | src/store/gameStore.ts:78 | `Array.from(new Set(...))` has no duplicates and the same members |
| GameStore.DedupOfDistinct | src/store/gameStore.ts:78 | a duplicate-free list passes through the set unchanged, order included |
| GameStore.UpdateResourcesAdds | src/store/gameStore.ts:59-68 | each supplied amount is added (absent = 0) and nothing but the resources changes |
| GameStore.MoveUpdatesLocation | src/store/gameStore.ts:70-82 | the location becomes the target; the target is appended only when new; the index is its route index or -1; resources, score, lists, name, level and flags stay |
| GameStore.CompleteExcursionAwards | src/store/gameStore.ts:84-95 | the id is always appended, the rewards are added and the score rises by exactly 10; location, other lists and flags stay |
| GameStore.CompleteExcursionNotIdempotent | src/store/gameStore.ts:84-95 | completing the same excursion twice lists it twice, pays 20 points and the rewards twice, and differs from completing it once |
| GameStore.CollectSouvenirAwards | src/store/gameStore.ts:97-103 | the id is appended and the point value added; resources, location, other lists and flags stay |
| GameStore.ResetRestores | src/store/gameStore.ts:12-33 | reset gives name "", casual traveller, 100/1000/0, Amsterdam visited, empty lists, score 0, index 0 and both flags false |
| GameStore.SettersTouchOneField | src/store/gameStore.ts:106-110 | setPlayerName, startGame and completeGame each change only their own field, and completeGame is idempotent |
| GameStore.VisitedGrows | src/store/gameStore.ts:78 | between resets the visited list only grows (the old list stays a prefix) and never holds duplicates |
| GameStore.VisitedAlwaysDistinct | src/store/gameStore.ts:21 | from any duplicate-free state, every sequence of actions keeps the visited list duplicate-free |
| GameStore.Store.constructor | src/store/gameStore.ts:49-52 | the store starts at the initial record |
| GameStore.Store.SetPlayerName | src/store/gameStore.ts:55-57 | the new record is the transition for setPlayerName; the invariant holds |
| GameStore.Store.UpdateResources | src/store/gameStore.ts:59-68 | the new record is the transition for updateResources; the invariant holds |
| GameStore.Store.MoveToDestination | src/store/gameStore.ts:70-82 | the new record is the transition for moveToDestination; the visited list stays duplicate-free |
| GameStore.Store.CompleteExcursion | src/store/gameStore.ts:84-95 | the new record is the transition for completeExcursion; the invariant holds |
| GameStore.Store.CollectSouvenir | src/store/gameStore.ts:97-103 | the new record is the transition for collectSouvenir; the invariant holds |
| GameStore.Store.StartGame | src/store/gameStore.ts:106 | the new record is the transition for startGame |
| GameStore.Store.ResetGame | src/store/gameStore.ts:108 | the new record is the initial one, from any state |
| GameStore.Store.CompleteGame | src/store/gameStore.ts:110 | the new record is the transition for completeGame |
| JourneyMap.Click | src/components/game/JourneyMap.tsx:10-35 | a click that is not ignored has both ids known; a move meets every requirement; the alert fails one |
| JourneyMap.MoveIff | src/components/game/JourneyMap.tsx:14-29 | a move happens exactly when both ids are known, the target is adjacent or visited, and each requirement (absent = 0) is met |
| JourneyMap.RejectedClickChangesNothing | src/components/game/JourneyMap.tsx:31-33 | an unknown id, a target too far, or the resource alert leaves the store unchanged |
| JourneyMap.RouteIsCatalogueOrder | src/store/gameStore.ts:71 | the store's hard-coded route lists the catalogue ids in catalogue order |
| JourneyMap.RouteIndexIsPosition | src/store/gameStore.ts:72 | for a catalogue id the store's route index equals the destination's position |
| JourneyMap.MoveKeepsResources | src/components/game/JourneyMap.tsx:28-30 | a successful move keeps resources and score, sets the location, marks the target visited and sets the index to its position |
| JourneyMap.MovedFacts | src/store/gameStore.ts:70-82 | moving to a known destination keeps resources and score, sets the location, marks it visited and sets the index to the destination's position |
| JourneyMap.FirstLookups | src/data/destinations.ts:76-78 | the lookups of the first three stops give catalogue entries 0, 1, 2 |
| JourneyMap.CologneNotReachableFirst | src/components/game/JourneyMap.tsx:17-20 | from the initial state a click on Cologne is ignored and changes nothing |
| JourneyMap.RotterdamClickMoves | src/components/game/JourneyMap.tsx:17-29 | the first click on Rotterdam (adjacent, 10 travel points needed, 100 held) passes the gate |
| JourneyMap.RotterdamReachableFirst | src/components/game/JourneyMap.tsx:17-29 | from the initial state a click on Rotterdam moves there, visits [amsterdam, rotterdam], keeps 100/1000/0 and sets index 1 |
| JourneyMap.RoutePrefixDistinct | src/store/gameStore.ts:71 | every prefix of the route is duplicate-free |
| JourneyMap.CurrentStopOnRoute | src/components/game/JourneyMap.tsx:49-51 | when the visited list is a route prefix, the current stop is on it at its own position |
| JourneyMap.UnvisitedAccessibleIsNext | src/components/game/JourneyMap.tsx:49-51 | an accessible unvisited marker is the one just past the visited prefix |
| JourneyMap.MarkerClickKeepsPrefix | src/components/game/JourneyMap.tsx:60 | one marker click keeps the visited list a prefix of the route |
| JourneyMap.MoveExtendsPrefix | src/store/gameStore.ts:78 | moving to a visited stop, or to the stop just past the prefix, keeps the prefix shape |
| JourneyMap.MarkerClicksVisitRoutePrefix | src/components/game/JourneyMap.tsx:49-60 | after any sequence of marker clicks the player has visited exactly a prefix of the route, so no stop is ever skipped |
| JourneyMap.InitialIsRoutePrefix | src/store/gameStore.ts:20-21 | the initial state's visited list is a route prefix holding the location |
| SouvenirShop.Price | src/components/game/SouvenirShop.tsx:20-21 | the price is 50 for common, 150 for rare, 300 for special |
| SouvenirShop.Available | src/components/game/SouvenirShop.tsx:15-16 | the offered entries are exactly those not yet collected |
| SouvenirShop.AvailableSouvenirs | src/components/game/SouvenirShop.tsx:15-16 | the offer is exactly this destination's souvenirs minus the collected ones |
| SouvenirShop.HandlePurchaseSouvenir | src/components/game/SouvenirShop.tsx:18-37 | the purchase runs exactly when money covers the price, and is then deduct, collect, bonus in that order; otherwise the store is unchanged |
| SouvenirShop.PurchaseEffect | src/components/game/SouvenirShop.tsx:23-33 | money falls by the price and rises by the bonus money; points and knowledge rise by their bonus; the score rises by the point value; the id is appended; nothing else changes |
| SouvenirShop.CatalogueBonusNeverLowers | src/data/souvenirs.ts:22-154 | buying a catalogue souvenir never lowers points or knowledge and costs at most its price |
| SouvenirShop.ShopPurchaseNoDuplicate | src/components/game/SouvenirShop.tsx:15-16 | a souvenir bought from the offer keeps the collected list duplicate-free |
| SouvenirShop.ButtonMatchesHandler | src/components/game/SouvenirShop.tsx:102 | the button is enabled exactly when the handler's own check passes |
| GameComplete.CompletionEffect | src/pages/game-complete.tsx:13-36 | completeGame runs exactly when the game has started and the precondition holds; otherwise the store is unchanged; the redirect is home before the start and the journey while not completed |
| GameComplete.CompletionUnreachable | src/pages/game-complete.tsx:20-31 | with the shipped catalogue the precondition never holds |
| GameComplete.Percentage | src/pages/game-complete.tsx:48 | `Math.round(100·done/total)`: the nearest whole percentage with halves rounded up |
| GameComplete.PercentageBounds | src/pages/game-complete.tsx:46-52 | a percentage is at least 0, at most 100 for a count within the total, and 100 for a full count |
| GameComplete.PercentageMonotone | src/pages/game-complete.tsx:46-52 | a larger count never gives a smaller percentage |
| GameComplete.FinalLevel | src/pages/game-complete.tsx:55-60 | cruise veteran at ≥80% and ≥70%; else history buff at ≥50% and ≥40%; else the stored level |
| GameComplete.LevelThresholds | src/pages/game-complete.tsx:55-60 | with 10 excursions and 13 souvenirs: 8 and 9 give history buff, 8 and 10 give cruise veteran, 5 and 5 keep the stored level |
| GameComplete.FinalScore | src/pages/game-complete.tsx:63-67 | score + 15 per excursion + 20 per souvenir + 5 per full ten points of knowledge, rounded down |
| GameComplete.Floor10 | src/pages/game-complete.tsx:66 | `Math.floor(x/10)`: the q with 10q ≤ x < 10q+10 |
| GameComplete.FinalScoreAtLeastScore | src/pages/game-complete.tsx:63-67 | with non-negative knowledge the final score is at least the score |
| GameComplete.FinalScoreMonotone | src/pages/game-complete.tsx:63-67 | more score, excursions, souvenirs or knowledge never lower the final score |
| GameComplete.PlayAgain | src/pages/game-complete.tsx:69-72 | Play Again leaves the store at the initial record |
| ArcadeRules.OverlapsSymmetric | src/components/RhineCruiseGame.js:306-313 | the collision test does not depend on argument order |
| ArcadeRules.TouchingIsNotColliding | src/components/RhineCruiseGame.tsx:139-146 | rectangles that only share an edge, or lie apart on an axis, do not collide |
| ArcadeRules.SelfOverlap | src/components/RhineCruiseGame.tsx:139-146 | a rectangle of positive size collides with itself |
| ArcadeRules.Clamp | src/components/RhineCruiseGame.tsx:132-133 | the clamped value lies in [0, hi], is unchanged inside it and is the near bound outside |
| ArcadeRules.FindEffect | src/components/RhineCruiseGame.tsx:120 | the first held power-up with the effect, or none exactly when no held one has it |
| ArcadeRules.ValueOrOne | src/components/RhineCruiseGame.tsx:120 | the multiplier is never 0 and is 1 without a matching power-up |
| ArcadeRules.MovePlayer | src/components/RhineCruiseGame.js:124-141 | the ship always ends inside [0, 750] × [0, 550] |
| ArcadeRules.MovementRules | src/components/RhineCruiseGame.tsx:119-136 | opposite keys cancel; one key moves by base speed × boost × dt when the target is inside the area; no key leaves an in-bounds ship in place |
| ArcadeRules.SpawnObstacles | src/components/RhineCruiseGame.tsx:280-291 | a spawn round creates, at y = -30, exactly the templates whose draw is below their frequency |
| ArcadeRules.SpawnPowerUps | src/components/RhineCruiseGame.tsx:296-307 | the same for power-ups |
| ArcadeRules.SpawnPlacement | src/components/RhineCruiseGame.tsx:285-286 | spawns start above the area, horizontally inside it |
| ArcadeRules.AdvanceObstacles | src/components/RhineCruiseGame.tsx:313-321 | every obstacle falls by speed·dt and is kept exactly when it is above the bottom edge |
| ArcadeRules.AdvancePowerUps | src/components/RhineCruiseGame.tsx:324-331 | every power-up falls by 2·dt and is kept exactly when it is above the bottom edge |
| ArcadeRules.AdvanceBullets | src/components/RhineCruiseGame.tsx:343-351 | every bullet rises by the bullet speed·dt and is kept exactly when it is below the top edge |
| ArcadeRules.Expire | src/components/RhineCruiseGame.tsx:334-339 | a held power-up is kept exactly when it has no end time or the end time lies ahead |
| ArcadeRules.Surviving | src/components/RhineCruiseGame.tsx:169-182 | the bullets kept are exactly those that miss the obstacle; none removed exactly when none hits |
| ArcadeRules.BulletsTakePrecedence | src/components/RhineCruiseGame.js:229-271 | a bullet hit removes the obstacle for 10 points with no damage; otherwise a ship hit removes it with damage unless invulnerable; only an obstacle hitting nothing stays |
| ArcadeRules.SurvivingAll | src/components/RhineCruiseGame.tsx:169-182 | when no bullet hits, the bullet list is kept as it is |
| ArcadeRules.ResolveOneKeepsCleared | src/components/RhineCruiseGame.tsx:158-200 | one obstacle step keeps the pass free of contacts, only removes bullets, never lowers the score or raises health |
| ArcadeRules.ResolutionClears | src/components/RhineCruiseGame.tsx:158-200 | after the whole obstacle pass nothing left touches: no bullet meets an obstacle and no obstacle meets the ship; score only rises; health only falls, not at all while invulnerable |
| ArcadeRules.WithoutEffect | src/components/RhineCruiseGame.tsx:219 | the held power-ups kept are exactly those with another effect |
| ArcadeRules.InstallKeepsOnePerEffect | src/components/RhineCruiseGame.tsx:218-224 | installing keeps at most one power-up per effect, and the new one is held last |
| ArcadeRules.WithoutEffectOrder | src/components/RhineCruiseGame.tsx:219 | filtering keeps distinct effects distinct |
| ArcadeRules.PickupsKeepInvariants | src/components/RhineCruiseGame.tsx:203-231 | the power-up pass keeps health at or below 100, one power-up per effect, no repair kit held, and leaves only untouched power-ups in the river |
| ArcadeRules.PortProgress | src/components/RhineCruiseGame.js:316-356 | the port counter moves at most one step and never past the last port; each step collects one souvenir and its points × multiplier, plus 1000 exactly on reaching the last port |
| ArcadeRules.PortFacts | src/data/gameData.js:2-129 | nine ports from Basel to Amsterdam, each souvenir worth positive points |
| ArcadeRules.TemplateFacts | src/data/gameData.js:131-195 | template damages, speeds and values are positive; the repair kit heals with duration 0 |
| ArcadeGame.SpawnedFacts | src/data/gameData.js:131-195 | spawned obstacles deal non-negative damage and spawned power-ups have positive values |
| ArcadeGame.ExpireKeepsOnePerEffect | src/components/RhineCruiseGame.tsx:334-339 | expiry keeps at most one power-up per effect |
| ArcadeGame.SpawnPhaseKeepsValid | src/components/RhineCruiseGame.tsx:278-310 | spawning keeps the frame invariant and leaves score, port and souvenirs alone |
| ArcadeGame.AdvancePhaseKeepsValid | src/components/RhineCruiseGame.tsx:372-378 | advancing keeps the frame invariant and the score |
| ArcadeGame.ObstaclePhaseKeepsValid | src/components/RhineCruiseGame.tsx:158-200 | the obstacle pass keeps the invariant and never lowers the score |
| ArcadeGame.PickupPhaseKeepsValid | src/components/RhineCruiseGame.tsx:203-231 | the power-up pass keeps the invariant and the score |
| ArcadeGame.PortPhaseKeepsValid | src/components/RhineCruiseGame.tsx:235-275 | the port check keeps the invariant, moves the port by at most one and only appends souvenirs |
| ArcadeGame.FrameStepKeepsValid | src/components/RhineCruiseGame.tsx:366-390 | a frame keeps the invariant (port below 9 with one souvenir per port passed, health ≤ 100, ship in the area, one power-up per effect), never lowers the score and only appends souvenirs |
| ArcadeGame.MultiplierPositive | src/components/RhineCruiseGame.tsx:265 | the points multiplier is positive while every held value is |
| ArcadeGame.PickupValues | src/components/RhineCruiseGame.tsx:218-224 | the power-up pass installs only power-ups from the river, so held values stay positive |
| ArcadeGame.RamScenario | src/components/RhineCruiseGame.tsx:189-196 | a rock drifting into an unshielded ship with no bullets in flight is removed and takes 15 health, score unchanged |
| ArcadeGame.SpawnObstaclesLoop | src/components/RhineCruiseGame.tsx:281-291 | the `forEach` spawn round equals the obstacle spawn rule |
| ArcadeGame.SpawnPowerUpsLoop | src/components/RhineCruiseGame.tsx:297-307 | the `forEach` spawn round equals the power-up spawn rule |
| ArcadeGame.AdvanceObstaclesLoop | src/components/RhineCruiseGame.tsx:313-321 | the filter equals the obstacle advance rule |
| ArcadeGame.AdvancePowerUpsLoop | src/components/RhineCruiseGame.tsx:324-331 | the filter equals the power-up advance rule |
| ArcadeGame.ExpireLoop | src/components/RhineCruiseGame.js:190-206 | the filter equals the expiry rule |
| ArcadeGame.AdvanceBulletsLoop | src/components/RhineCruiseGame.tsx:343-351 | the filter equals the bullet advance rule |
| ArcadeGame.SurvivingLoop | src/components/RhineCruiseGame.tsx:168-182 | the nested bullet filter equals the surviving rule, and the `bulletHit` flag is set exactly when a bullet was removed |
| ArcadeGame.ResolveObstaclesLoop | src/components/RhineCruiseGame.tsx:158-200 | the obstacle filter equals the resolution rule |
| ArcadeGame.PickupsLoop | src/components/RhineCruiseGame.tsx:203-231 | the power-up filter equals the pickup rule |
| ArcadeGame.RunSpawn | src/components/RhineCruiseGame.tsx:278-310 | the spawn block equals the spawn phase, each round gated by its clock |
| ArcadeGame.RunAdvance | src/components/RhineCruiseGame.tsx:372-378 | the update block equals the advance phase |
| ArcadeGame.RunCollisions | src/components/RhineCruiseGame.tsx:149-232 | `checkCollisions` equals the obstacle pass followed by the power-up pass |
| ArcadeGame.RunFrame | src/components/RhineCruiseGame.tsx:360-394 | the loop body equals one frame step |
| ArcadeGame.CruiseGame.constructor | src/components/RhineCruiseGame.tsx:57-73 | the cells start at their initial values, not started |
| ArcadeGame.CruiseGame.Start | src/components/RhineCruiseGame.js:27-39 | a new run: score 0, ship at (50, 500), health 100, port 0, all lists empty; spawn clocks and keys stay |
| ArcadeGame.CruiseGame.KeyDown | src/components/RhineCruiseGame.tsx:92-103 | the key is held, and Space fires a bullet from the ship's centre exactly while a game runs |
| ArcadeGame.CruiseGame.KeyUp | src/components/RhineCruiseGame.tsx:105-107 | the key is released and nothing else changes |
| ArcadeGame.CruiseGame.Step | src/components/RhineCruiseGame.tsx:366-390 | one frame replaces the cells by the frame step and keeps the frame invariant |
| TriviaChallenge.PassScore | src/components/game/challenges/TriviaChallenge.tsx:68 | `Math.ceil(0.6·n)`: the least score that is at least three fifths of n |
| TriviaChallenge.PassScoreWithinQuiz | src/components/game/challenges/TriviaChallenge.tsx:68-69 | the pass mark never exceeds the quiz size and is positive for a non-empty quiz |
| TriviaChallenge.BankPassScore | src/data/historical-trivia.ts:135-137 | every destination's quiz is passed with 2 right answers |
| TriviaChallenge.Quiz.constructor | src/components/game/challenges/TriviaChallenge.tsx:25-30 | the quiz starts on the destination's bank, first question, score 0, no selection |
| TriviaChallenge.Quiz.SelectAnswer | src/components/game/challenges/TriviaChallenge.tsx:32-53 | ignored once an answer is selected or the result shows; otherwise the score rises by 1 exactly for the right index, and the quiz advances or shows the result; score ≤ answered ≤ questions is kept |
| TriviaChallenge.Quiz.Retry | src/components/game/challenges/TriviaChallenge.tsx:94-100 | back to index 0, score 0, no selection, result hidden |
| CulturalChallenge.PassMark | src/components/game/challenges/CulturalChallenge.tsx:78 | `Math.ceil(n/2)`: the least count that is at least half of n |
| CulturalChallenge.CountCorrect | src/components/game/challenges/CulturalChallenge.tsx:66-74 | the count of right choices is at most the number of choices |
| CulturalChallenge.AllRightScoresAll | src/components/game/challenges/CulturalChallenge.tsx:66-74 | choosing every right option scores every scenario |
| CulturalChallenge.PassMarkForScenarios | src/components/game/challenges/CulturalChallenge.tsx:78 | two right answers of three pass |
| CulturalChallenge.CalculateScore | src/components/game/challenges/CulturalChallenge.tsx:66-74 | the counting loop gives the count of right choices |
| CulturalChallenge.Challenge.constructor | src/components/game/challenges/CulturalChallenge.tsx:10-12 | first scenario, no choices, not completed |
| CulturalChallenge.Challenge.SelectOption | src/components/game/challenges/CulturalChallenge.tsx:51-64 | a scenario with a recorded choice ignores clicks; otherwise only the entry at the current step is written, then the step advances or the challenge completes |
| CulturalChallenge.Challenge.Passed | src/components/game/challenges/CulturalChallenge.tsx:76-78 | passed exactly when completed with at least the pass mark of right choices |
| CulturalChallenge.Challenge.Retry | src/components/game/challenges/CulturalChallenge.tsx:105-109 | back to the first scenario with no choices, not completed |
| PuzzleChallenge.Normalize | src/components/game/challenges/PuzzleChallenge.tsx:54-55 | trim-then-lower: no longer than the input, no whitespace at either end, no capital letters |
| PuzzleChallenge.PaddingIgnored | src/components/game/challenges/PuzzleChallenge.tsx:54-57 | padding the answer with any whitespace on either side never changes the verdict |
| PuzzleChallenge.TrimPadded | src/components/game/challenges/PuzzleChallenge.tsx:54 | trimming a string padded with whitespace on both sides gives the trim of the string |
| PuzzleChallenge.SliceTrimUnique | src/components/game/challenges/PuzzleChallenge.tsx:54 | a non-empty slice with non-space ends and only whitespace around it is the trim |
| PuzzleChallenge.PaddedCapitalisedAnswerAccepted | src/components/game/challenges/PuzzleChallenge.tsx:34 | "  Deutsches ECK " is accepted for the solution "deutsches eck" |
| PuzzleChallenge.Challenge.constructor | src/components/game/challenges/PuzzleChallenge.tsx:19-25 | nothing loaded, empty input, no feedback, hint 0 hidden |
| PuzzleChallenge.Challenge.Load | src/components/game/challenges/PuzzleChallenge.tsx:27-49 | the riddle and its three hints are installed and nothing else changes |
| PuzzleChallenge.Challenge.Type | src/components/game/challenges/PuzzleChallenge.tsx:109 | the input holds the typed text and nothing else changes |
| PuzzleChallenge.Challenge.Submit | src/components/game/challenges/PuzzleChallenge.tsx:51-68 | no-op without a puzzle; success and one completion exactly when the normalised answers agree; error otherwise |
| PuzzleChallenge.Challenge.ShowHint | src/components/game/challenges/PuzzleChallenge.tsx:70-74 | the hint box opens only while the index is on a hint |
| PuzzleChallenge.Challenge.NextHint | src/components/game/challenges/PuzzleChallenge.tsx:76-80 | the index moves on only while a later hint exists, so it stays on a hint |
| PhotographyChallenge.Challenge.constructor | src/components/game/challenges/PhotographyChallenge.tsx:10-12 | first target, no photo, not completed |
| PhotographyChallenge.Challenge.TakePhoto | src/components/game/challenges/PhotographyChallenge.tsx:45-49 | the photo is taken and nothing else changes, so a second press changes nothing |
| PhotographyChallenge.Challenge.Next | src/components/game/challenges/PhotographyChallenge.tsx:36-43 | offered only after a photo: the next target with a fresh camera, or completion after the last; the step stays on a target |
| PhotographyChallenge.Challenge.CompletionTakesEveryRound | src/components/game/challenges/PhotographyChallenge.tsx:126-133 | completion takes one photo-then-next round per target |
| AIGuide.FirstTopicFrom | src/components/game/AIGuide.tsx:76-82 | the first help topic whose id or lowered title occurs, or the fallback exactly when none does |
| AIGuide.AnswerQuestion | src/components/game/AIGuide.tsx:70-100 | the topic loop with its break and the keyword chain give the reply to the lowered question |
| AIGuide.EatingWins | src/components/game/AIGuide.tsx:85-86 | a question containing "eat" gets the food answer, whatever else it contains |
| AIGuide.TopicsDecideWithoutKeyword | src/components/game/AIGuide.tsx:73-82 | without a keyword the topics decide in order, and the fallback comes exactly when no topic matches |
| AIGuide.GreatHistoryIsFood | src/components/game/AIGuide.tsx:85-86 | "great history" gets the food answer because "eat" occurs in "great" |
| AIGuide.Guide.constructor | src/components/game/AIGuide.tsx:9-10 | no question and no reply yet |
| AIGuide.Guide.Type | src/components/game/AIGuide.tsx:155 | the question holds the typed text |
| AIGuide.Guide.Submit | src/components/game/AIGuide.tsx:64-101 | a blank question changes nothing; otherwise the reply to the lowered question is shown |
| AIGuide.Guide.HelpTopicClick | src/components/game/AIGuide.tsx:103-105 | the clicked topic's answer is shown directly |

## Left out

- Rendering, styling, routing and images. Router redirects appear only as the `Redirect` value
  of `GameComplete.CompletionEffect`.
- Descriptive text is left out as presentation: names beyond ids, descriptions, trivia
  explanations, the guide's answer prose, the riddle's title, text and facts, and the
  photography hints.
- Alerts are left out. A rejected move or purchase is modelled as "no store action runs".
- Persistence of the store in local storage (src/store/gameStore.ts:112-114) is storage I/O.
- Randomness and clocks are parameters:
  - `Math.random` is one `Draw` (chance, offset) per template;
  - `Date.now` is `now`;
  - the animation frame time is `timestamp`.
  - The arcade entities' ids, drawn from the clock, are only React keys and are left out.
- Positions, speeds, health and arcade scores are exact reals. Percentages and the pass marks
  are exact integer rounding. Floating-point rounding is not modelled.
- `toLowerCase` and `trim` are modelled on ASCII only.
- React scheduling is not modelled. Each timed delay is taken as immediate:
  - the trivia and scenario advances;
  - the puzzle's `onComplete`;
  - the guide's answer.

  `ArcadeGame.FrameStep` runs the phases one after another over one explicit record. This
  departs from React's behaviour in four ways:
  - Each handler reads its own render's closure, so the source checks health for game over
    before the frame's damage. The model checks it after the frame.
  - The source reads held power-ups as they were before the frame's expiry and pickups. The
    model reads them as they are in the model's sequence.
  - The source updates the bullet list inside the obstacle filter through a deferred updater,
    so `bulletHit` may still be false when it is read. The model takes the code's evident
    reading: the nested filter runs at once.
  - The source builds the ship's rectangle for collisions, pickups and ports from the closure's
    position, which is the position from before this frame's move. The model tests them against
    the moved ship.
- The loop's local `lastTimestamp` is restarted whenever the effect re-runs, which happens when
  one of its dependencies changes. The model keeps it in the record between frames and resets
  it only in `Start`.
- Key listeners and animation frames are host scheduling. `KeyDown`, `KeyUp` and `Step` are
  called directly.
- `ArcadeGame.CruiseGame` holds the component's twelve state cells, the two spawn clocks and
  the loop's timestamp in one `Frame` record that each method replaces. It does not keep one
  class field per cell, so the model does not capture cells being replaced one at a time.
- The trivia bank is reloaded when the excursion's destination changes. Only the load at mount
  is modelled (`TriviaChallenge.Quiz.constructor`).
- `PuzzleChallenge.Challenge.Load` requires that nothing is loaded yet. The effect runs on
  mount and when the destination changes, and always installs the same riddle.
- The guide's `isLoading` and `showGuide` flags are left out. So is the lookup of an unknown
  destination in the guide's answers, which would fail.
- The excursion-start link in `DestinationInfo.tsx` hides completed excursions. It is the only
  guard against completing an excursion twice, and it is presentation, so it is not modelled.
  The store itself has no such guard.
- Trivia and scenario options are modelled as indices. The scenario's string choices are
  parsed back to the same integers.
- `src/types/game.types.tsx` appears only as datatypes. The non-core data in
  `src/data/gameData.js` (river segments) is not part of this model.
