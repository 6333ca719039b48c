/** The coin-field rules of the game screen, stated on values.

    A game state is the score and the ordered list of marker slots. The
    functions below say what one call of each operation does to such a state;
    the class in module Ingress is proved to follow them, and the lemmas at the
    end state what the game promises about one update and about any sequence
    of updates.

    Everything the device or the map SDK decides is an input:
    - the geodesic distance the location service computes is a `Distance`;
    - the marker the map returns for the i-th coin one placement call adds
      around a centre (its random position, or null when placement fails) is
      given by a `Spawner`;
    - whether the map currently knows the player's location, and where, is an
      `Option<LatLng>` called `myLocation`, distinct from the location that the
      change callback receives.
 */
module CoinRules {

  datatype Option<+T> = None | Some(value: T)

  /** Java's `int`, the type of the score. */
  newtype int32 = x: int | -0x8000_0000 <= x < 0x8000_0000

  const INT32_MAX: int32 := 0x7fff_ffff
  const INT32_MIN: int32 := -0x8000_0000

  /** The most coins the map holds after a refill. */
  const MAX_COINS: int := 5

  /** A coin closer than this many metres to the player is collected. */
  const COLLECT_RADIUS: real := 10.0

  datatype LatLng = LatLng(latitude: real, longitude: real)

  /** A coin marker on the map: where it is and whether it is shown. */
  datatype Marker = Marker(position: LatLng, visible: bool)

  /** One entry of the marker list; `None` is a null marker. */
  type Slot = Option<Marker>

  /** Distance in metres between the player and a position, as the location
      service reports it. */
  type Distance = (LatLng, LatLng) -> real

  /** What the map returns when a placement call adds its i-th coin around
      the given centre. */
  type Spawner = (LatLng, nat) -> Slot

  datatype Game = Game(score: int32, coinMarkers: seq<Slot>)

  /** Java's `score++`: two's-complement increment. */
  function Inc(x: int32): (r: int32)
    ensures (r as int - x as int - 1) % 0x1_0000_0000 == 0
    ensures x < INT32_MAX ==> r as int == x as int + 1
  {
    if x == INT32_MAX then INT32_MIN else x + 1
  }

  /** A slot the scan collects: a visible marker within the radius. */
  predicate Collectible(slot: Slot, player: LatLng, distance: Distance)
  {
    slot.Some? && slot.value.visible && distance(player, slot.value.position) < COLLECT_RADIUS
  }

  /** The index the scan stops at: the lowest collectible slot, if any. */
  function FirstCollectible(slots: seq<Slot>, player: LatLng, distance: Distance): (r: Option<nat>)
    ensures r.Some? ==> r.value < |slots| && Collectible(slots[r.value], player, distance)
    ensures r.Some? ==> forall j :: 0 <= j < r.value ==> !Collectible(slots[j], player, distance)
    ensures r.None? <==> forall j :: 0 <= j < |slots| ==> !Collectible(slots[j], player, distance)
  {
    if slots == [] then None
    else if Collectible(slots[0], player, distance) then Some(0)
    else match FirstCollectible(slots[1..], player, distance)
      case None => None
      case Some(k) => Some(k + 1)
  }

  /** Java's `List.remove(int)`: drop the slot at index i. */
  function RemoveAt(slots: seq<Slot>, i: nat): (r: seq<Slot>)
    requires i < |slots|
    ensures |r| == |slots| - 1
    ensures forall j :: 0 <= j < i ==> r[j] == slots[j]
    ensures forall j :: i <= j < |r| ==> r[j] == slots[j + 1]
    ensures multiset(r) + multiset{slots[i]} == multiset(slots)
  {
    assert slots == slots[..i] + [slots[i]] + slots[i + 1..];
    slots[..i] + slots[i + 1..]
  }

  /** How often the test `i < n` of a counting loop succeeds when `i` starts
      at `from` and goes up by one each time. */
  function LoopRuns(from: int, n: int): (r: nat)
    decreases n - from
  {
    if from < n then 1 + LoopRuns(from + 1, n) else 0
  }

  /** The number of times `for (int i = 0; i < n; i++)` runs. */
  function Iterations(n: int): (r: nat)
    ensures r == LoopRuns(0, n)
  {
    RunsToBound(0, n);
    if n < 0 then 0 else n
  }

  /** A counting loop from `from` runs up to its bound n, never below it. */
  lemma {:induction false} RunsToBound(from: int, n: int)
    ensures LoopRuns(from, n) == if from < n then n - from else 0
    decreases n - from
  {
    if from < n {
      RunsToBound(from + 1, n);
    }
  }

  /** The markers the first n iterations of one placement call add. */
  function Spawned(center: LatLng, n: nat, spawn: Spawner): (r: seq<Slot>)
    ensures |r| == n
    ensures forall i :: 0 <= i < n ==> r[i] == spawn(center, i)
  {
    if n == 0 then [] else Spawned(center, n - 1, spawn) + [spawn(center, n - 1)]
  }

  /** The marker list after a placement call asked for numCoins coins. */
  function WithPlacedCoins(slots: seq<Slot>, numCoins: int, myLocation: Option<LatLng>, spawn: Spawner): (r: seq<Slot>)
    ensures myLocation.None? ==> r == slots
    ensures myLocation.Some? ==> |r| == |slots| + Iterations(numCoins)
    ensures r[..|slots|] == slots
    ensures myLocation.Some? ==>
      forall i :: 0 <= i < Iterations(numCoins) ==> r[|slots| + i] == spawn(myLocation.value, i)
  {
    if myLocation.None? then slots
    else slots + Spawned(myLocation.value, Iterations(numCoins), spawn)
  }

  /** The state after the collection scan for a player at `player`. */
  function AfterCollection(g: Game, player: LatLng, myLocation: Option<LatLng>,
                           distance: Distance, spawn: Spawner): (r: Game)
    ensures FirstCollectible(g.coinMarkers, player, distance).None? ==> r == g
    ensures FirstCollectible(g.coinMarkers, player, distance).Some? ==>
      r.score == Inc(g.score) &&
      |r.coinMarkers| == |g.coinMarkers| - 1 + (if myLocation.Some? then 1 else 0) &&
      r.coinMarkers[..|g.coinMarkers| - 1] ==
        RemoveAt(g.coinMarkers, FirstCollectible(g.coinMarkers, player, distance).value) &&
      (myLocation.Some? ==> r.coinMarkers[|g.coinMarkers| - 1] == spawn(myLocation.value, 0))
  {
    match FirstCollectible(g.coinMarkers, player, distance)
    case None => g
    case Some(i) =>
      Game(Inc(g.score), WithPlacedCoins(RemoveAt(g.coinMarkers, i), 1, myLocation, spawn))
  }

  /** The top-up after the scan: when fewer than MAX_COINS slots are left and
      the map has a location, the map's first results fill the gap. */
  function ToppedUp(c: Game, myLocation: Option<LatLng>, refill: Spawner): (r: Game)
    ensures r.score == c.score
    ensures myLocation.Some? && |c.coinMarkers| < MAX_COINS ==>
      r.coinMarkers == c.coinMarkers + Spawned(myLocation.value, MAX_COINS - |c.coinMarkers|, refill)
    ensures myLocation.None? || |c.coinMarkers| >= MAX_COINS ==> r == c
  {
    if |c.coinMarkers| < MAX_COINS then
      Game(c.score, WithPlacedCoins(c.coinMarkers, MAX_COINS - |c.coinMarkers|, myLocation, refill))
    else c
  }

  /** The state after one location callback: the scan, then the top-up. */
  function AfterLocationChange(g: Game, location: Option<LatLng>, myLocation: Option<LatLng>,
                               distance: Distance, replacement: Spawner, refill: Spawner): (r: Game)
    ensures location.None? ==> r == g
    ensures r.score == g.score || r.score == Inc(g.score)
    ensures |g.coinMarkers| <= MAX_COINS ==> |r.coinMarkers| <= MAX_COINS
    ensures location.Some? && myLocation.Some? ==>
      |r.coinMarkers| == if |g.coinMarkers| < MAX_COINS then MAX_COINS else |g.coinMarkers|
    ensures location.Some? && myLocation.None? ==> r.coinMarkers == Survivors(g, location, distance)
    ensures (location.Some? && myLocation.Some? &&
             FirstCollectible(g.coinMarkers, location.value, distance).None?) ==>
      r.coinMarkers == g.coinMarkers + TopUpCoins(|g.coinMarkers|, myLocation.value, refill)
  {
    if location.None? then g
    else
      ToppedUp(AfterCollection(g, location.value, myLocation, distance, replacement), myLocation, refill)
  }

  /** The slots an update keeps from the old list, in their old order. */
  function Survivors(g: Game, location: Option<LatLng>, distance: Distance): (s: seq<Slot>)
  {
    if location.None? then g.coinMarkers
    else match FirstCollectible(g.coinMarkers, location.value, distance)
      case None => g.coinMarkers
      case Some(i) => RemoveAt(g.coinMarkers, i)
  }

  /** Some update collects a coin exactly when the callback has a location and
      a visible coin is in range; then the score goes up by one, and otherwise
      it is unchanged. */
  lemma ScoreCountsCollection(g: Game, location: Option<LatLng>, myLocation: Option<LatLng>,
                              distance: Distance, replacement: Spawner, refill: Spawner)
    ensures var r := AfterLocationChange(g, location, myLocation, distance, replacement, refill);
      (r.score == Inc(g.score) <==>
         location.Some? && exists j :: 0 <= j < |g.coinMarkers| && Collectible(g.coinMarkers[j], location.value, distance)) &&
      (r.score == g.score <==>
         location.None? || forall j :: 0 <= j < |g.coinMarkers| ==> !Collectible(g.coinMarkers[j], location.value, distance))
  {

  }

  /** Below the largest `int`, the score never goes down and rises by at most
      one per update, however many coins are in range. */
  lemma ScoreNeverDecreases(g: Game, location: Option<LatLng>, myLocation: Option<LatLng>,
                            distance: Distance, replacement: Spawner, refill: Spawner)
    requires g.score < INT32_MAX
    ensures var r := AfterLocationChange(g, location, myLocation, distance, replacement, refill);
      g.score <= r.score <= g.score + 1
  {
  }

  /** An update keeps every old slot but at most the first collectible one, in
      its old order, and only appends after them. */
  lemma SurvivorsKeepOrder(g: Game, location: Option<LatLng>, myLocation: Option<LatLng>,
                           distance: Distance, replacement: Spawner, refill: Spawner)
    ensures var r := AfterLocationChange(g, location, myLocation, distance, replacement, refill);
      var s := Survivors(g, location, distance);
      |s| <= |r.coinMarkers| && r.coinMarkers[..|s|] == s
  {

  }

  /** The scan's choice, when slot i is the lowest collectible one. */
  lemma ScanPicks(g: Game, player: LatLng, distance: Distance, i: nat)
    requires i < |g.coinMarkers|
    requires Collectible(g.coinMarkers[i], player, distance)
    requires forall j :: 0 <= j < i ==> !Collectible(g.coinMarkers[j], player, distance)
    ensures FirstCollectible(g.coinMarkers, player, distance) == Some(i)
  {
    var f := FirstCollectible(g.coinMarkers, player, distance);
    assert f.Some?;
    assert !(f.value < i) && !(i < f.value);
  }

  /** Collection of slot i when the map has no location: nothing is placed. */
  lemma CollectsWithoutMapLocation(g: Game, player: LatLng, distance: Distance,
                                   replacement: Spawner, refill: Spawner, i: nat)
    requires FirstCollectible(g.coinMarkers, player, distance) == Some(i)
    ensures AfterLocationChange(g, Some(player), None, distance, replacement, refill).coinMarkers ==
      RemoveAt(g.coinMarkers, i)
  {
    var c := AfterCollection(g, player, None, distance, replacement);
    assert c.coinMarkers == RemoveAt(g.coinMarkers, i);
  }

  /** After collecting slot i with the map's location known, the scan's list
      is the survivors followed by the replacement. */
  lemma ReplacementFollowsSurvivors(g: Game, player: LatLng, center: LatLng, distance: Distance,
                                    replacement: Spawner, i: nat)
    requires FirstCollectible(g.coinMarkers, player, distance) == Some(i)
    ensures AfterCollection(g, player, Some(center), distance, replacement).coinMarkers ==
      RemoveAt(g.coinMarkers, i) + [replacement(center, 0)]
  {
    assert Spawned(center, 1, replacement) == [replacement(center, 0)];
  }

  /** The coins the top-up places after a field of `size` slots. */
  function TopUpCoins(size: int, center: LatLng, refill: Spawner): (t: seq<Slot>)
    ensures |t| == if size < MAX_COINS then MAX_COINS - size else 0
  {
    if size < MAX_COINS then Spawned(center, MAX_COINS - size, refill) else []
  }

  /** Collection of slot i when the map has a location: the survivors, then
      the replacement, then the top-up. */
  lemma CollectsWithMapLocation(g: Game, player: LatLng, center: LatLng, distance: Distance,
                                replacement: Spawner, refill: Spawner, i: nat)
    requires FirstCollectible(g.coinMarkers, player, distance) == Some(i)
    ensures AfterLocationChange(g, Some(player), Some(center), distance, replacement, refill).coinMarkers ==
      RemoveAt(g.coinMarkers, i) + [replacement(center, 0)] + TopUpCoins(|g.coinMarkers|, center, refill)
  {
    ReplacementFollowsSurvivors(g, player, center, distance, replacement, i);
  }

  /** When a coin is collected, the removed slot is the lowest collectible
      one. When the map has no location, nothing else changes; otherwise the
      survivors are followed by the replacement and then by the top-up. */
  lemma CollectsFirstMatch(g: Game, player: LatLng, myLocation: Option<LatLng>,
                           distance: Distance, replacement: Spawner, refill: Spawner, i: nat)
    requires i < |g.coinMarkers|
    requires Collectible(g.coinMarkers[i], player, distance)
    requires forall j :: 0 <= j < i ==> !Collectible(g.coinMarkers[j], player, distance)
    ensures myLocation.None? ==>
      AfterLocationChange(g, Some(player), myLocation, distance, replacement, refill).coinMarkers ==
      RemoveAt(g.coinMarkers, i)
    ensures myLocation.Some? ==>
      AfterLocationChange(g, Some(player), myLocation, distance, replacement, refill).coinMarkers ==
      RemoveAt(g.coinMarkers, i) + [replacement(myLocation.value, 0)] +
      TopUpCoins(|g.coinMarkers|, myLocation.value, refill)
  {
    ScanPicks(g, player, distance, i);
    if myLocation.Some? {
      CollectsWithMapLocation(g, player, myLocation.value, distance, replacement, refill, i);
    } else {
      CollectsWithoutMapLocation(g, player, distance, replacement, refill, i);
    }
  }

  /** What a list keeps beyond `extra` of an old list, as a prefix, loses
      at most `extra` of it. */
  lemma PrefixLosesAtMost(before: seq<Slot>, kept: seq<Slot>, after: seq<Slot>, extra: multiset<Slot>)
    requires multiset(before) == multiset(kept) + extra
    requires |kept| <= |after| && after[..|kept|] == kept
    ensures multiset(before) - multiset(after) <= extra
  {
    assert after == kept + after[|kept|..];
    assert multiset(after) == multiset(kept) + multiset(after[|kept|..]);
  }

  /** Part of a one-element multiset is empty or the whole of it. */
  lemma WithinSingleton(a: multiset<Slot>, x: Slot)
    requires a <= multiset{x}
    ensures a == multiset{} || a == multiset{x}
  {

  }

  /** Every slot an update removes was a visible coin within range of the
      callback's location, and an update removes at most one slot: null and
      invisible markers are never removed. */
  lemma OnlyOneCollectibleSlotDisappears(g: Game, location: Option<LatLng>, myLocation: Option<LatLng>,
                                         distance: Distance, replacement: Spawner, refill: Spawner)
    ensures var r := AfterLocationChange(g, location, myLocation, distance, replacement, refill);
      var gone := multiset(g.coinMarkers) - multiset(r.coinMarkers);
      |gone| <= 1 &&
      forall s :: s in gone ==> location.Some? && Collectible(s, location.value, distance)
  {
    var r := AfterLocationChange(g, location, myLocation, distance, replacement, refill);
    var s := Survivors(g, location, distance);
    SurvivorsKeepOrder(g, location, myLocation, distance, replacement, refill);
    var gone := multiset(g.coinMarkers) - multiset(r.coinMarkers);
    if location.Some? && FirstCollectible(g.coinMarkers, location.value, distance).Some? {
      var i := FirstCollectible(g.coinMarkers, location.value, distance).value;
      var x := g.coinMarkers[i];
      assert s == RemoveAt(g.coinMarkers, i);
      PrefixLosesAtMost(g.coinMarkers, s, r.coinMarkers, multiset{x});
      WithinSingleton(gone, x);
    } else {
      assert s == g.coinMarkers;
      PrefixLosesAtMost(g.coinMarkers, s, r.coinMarkers, multiset{});
    }
  }

  /** A visible coin that the location service puts 5 m from the player, in
      the first slot of a full field, is collected and replaced. */
  lemma CoinFiveMetresAwayIsCollected(g: Game, player: LatLng, myLocation: Option<LatLng>,
                                      distance: Distance, replacement: Spawner, refill: Spawner)
    requires |g.coinMarkers| == MAX_COINS
    requires g.coinMarkers[0].Some? && g.coinMarkers[0].value.visible
    requires distance(player, g.coinMarkers[0].value.position) == 5.0
    requires myLocation.Some?
    ensures var r := AfterLocationChange(g, Some(player), myLocation, distance, replacement, refill);
      r.score == Inc(g.score) &&
      |r.coinMarkers| == MAX_COINS &&
      r.coinMarkers == g.coinMarkers[1..] + [replacement(myLocation.value, 0)]
  {

  }

  /** When every coin is 50 m away, an update collects nothing. */
  lemma CoinsFiftyMetresAwayAreKept(g: Game, player: LatLng, myLocation: Option<LatLng>,
                                    distance: Distance, replacement: Spawner, refill: Spawner)
    requires |g.coinMarkers| == MAX_COINS
    requires forall j :: 0 <= j < |g.coinMarkers| && g.coinMarkers[j].Some? ==>
      distance(player, g.coinMarkers[j].value.position) == 50.0
    ensures var r := AfterLocationChange(g, Some(player), myLocation, distance, replacement, refill);
      r == g
  {

  }

  /** One location callback, with everything the environment decides for it. */
  datatype LocationUpdate = LocationUpdate(
    location: Option<LatLng>,
    myLocation: Option<LatLng>,
    distance: Distance,
    replacement: Spawner,
    refill: Spawner)

  function Step(g: Game, u: LocationUpdate): (r: Game)
  {
    AfterLocationChange(g, u.location, u.myLocation, u.distance, u.replacement, u.refill)
  }

  /** The state after a sequence of callbacks, delivered one at a time. */
  function Run(g: Game, us: seq<LocationUpdate>): (r: Game)
    decreases |us|
  {
    if us == [] then g else Run(Step(g, us[0]), us[1..])
  }

  /** No sequence of updates grows the field beyond MAX_COINS. */
  lemma {:induction false} RunKeepsCoinBound(g: Game, us: seq<LocationUpdate>)
    requires |g.coinMarkers| <= MAX_COINS
    ensures |Run(g, us).coinMarkers| <= MAX_COINS
    decreases |us|
  {
    if us != [] {
      RunKeepsCoinBound(Step(g, us[0]), us[1..]);
    }
  }

  /** As long as the score cannot reach the largest `int`, it never goes down
      over a sequence of updates and rises at most once per update. */
  lemma {:induction false} RunScoreMonotone(g: Game, us: seq<LocationUpdate>)
    requires g.score as int + |us| <= INT32_MAX as int
    ensures g.score <= Run(g, us).score
    ensures Run(g, us).score as int <= g.score as int + |us|
    decreases |us|
  {
    if us != [] {
      var g' := Step(g, us[0]);
      assert g'.score == g.score || g'.score as int == g.score as int + 1;
      RunScoreMonotone(g', us[1..]);
    }
  }

  /** An update where neither the callback nor the map has lost the location
      leaves exactly MAX_COINS slots, from any field of at most that many. */
  lemma {:induction false} RunFillsField(g: Game, us: seq<LocationUpdate>)
    requires |g.coinMarkers| <= MAX_COINS
    requires us != []
    requires us[|us| - 1].location.Some? && us[|us| - 1].myLocation.Some?
    ensures |Run(g, us).coinMarkers| == MAX_COINS
    decreases |us|
  {
    if |us| > 1 {
      RunFillsField(Step(g, us[0]), us[1..]);
    }
  }
}
