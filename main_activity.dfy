/** The game screen's coin-field state: the score and the list of coin
    markers, changed in place by the placement, the collection scan and the
    location callback. Each method is proved to leave the state that the
    matching function of CoinRules computes from the old one. */
module Ingress {
  import opened CoinRules

  class MainActivity {
    /** The player's score, a Java `int`. */
    var score: int32
    /** The markers placed on the map, null results of `addMarker` included. */
    var coinMarkers: seq<Slot>

    /** The state as a value. */
    function State(): Game
      reads this
    {
      Game(score, coinMarkers)
    }

    /** A new screen starts with no coins and a score of zero. */
    constructor ()
      ensures score == 0 && coinMarkers == []
    {
      score := 0;
      coinMarkers := [];
    }

    /** Places numCoins coins around the map's own location; does nothing
        when the map has no location yet. Each `addMarker` result is appended,
        null or not. */
    method PlaceRandomCoins(numCoins: int, myLocation: Option<LatLng>, spawn: Spawner)
      modifies this`coinMarkers
      ensures coinMarkers == WithPlacedCoins(old(coinMarkers), numCoins, myLocation, spawn)
    {
      if myLocation.None? {
        return;
      }
      var playerLatLng := myLocation.value;
      var i := 0;
      while i < numCoins
        invariant 0 <= i <= Iterations(numCoins)
        invariant coinMarkers == old(coinMarkers) + Spawned(playerLatLng, i, spawn)
      {
        var coinMarker := spawn(playerLatLng, i);
        coinMarkers := coinMarkers + [coinMarker];
        i := i + 1;
      }
    }

    /** Scans the markers in order and collects the first visible one within
        range: removes its slot, adds one to the score, places one
        replacement and stops. */
    method CheckForCollectedCoins(playerPosition: LatLng, myLocation: Option<LatLng>,
                                  distance: Distance, spawn: Spawner)
      modifies this
      ensures State() == AfterCollection(old(State()), playerPosition, myLocation, distance, spawn)
    {
      var i := 0;
      while i < |coinMarkers|
        invariant 0 <= i <= |coinMarkers|
        invariant coinMarkers == old(coinMarkers) && score == old(score)
        invariant forall j :: 0 <= j < i ==> !Collectible(coinMarkers[j], playerPosition, distance)
      {
        var coinMarker := coinMarkers[i];
        if coinMarker.Some? && coinMarker.value.visible {
          if distance(playerPosition, coinMarker.value.position) < COLLECT_RADIUS {
            assert FirstCollectible(coinMarkers, playerPosition, distance) == Some(i) by {
              var f := FirstCollectible(coinMarkers, playerPosition, distance);
              assert Collectible(coinMarkers[i], playerPosition, distance);
              assert f.Some? && !(f.value < i) && !(i < f.value);
            }
            coinMarkers := RemoveAt(coinMarkers, i);
            score := Inc(score);
            PlaceRandomCoins(1, myLocation, spawn);
            break;
          }
        }
        i := i + 1;
      }
    }

    /** The location callback: ignores a null location; otherwise runs the
        collection scan and tops the field up to MAX_COINS coins. */
    method OnMyLocationChange(location: Option<LatLng>, myLocation: Option<LatLng>,
                              distance: Distance, replacement: Spawner, refill: Spawner)
      modifies this
      ensures State() == AfterLocationChange(old(State()), location, myLocation, distance, replacement, refill)
    {
      if location.Some? {
        var playerPosition := location.value;
        CheckForCollectedCoins(playerPosition, myLocation, distance, replacement);
        if |coinMarkers| < MAX_COINS {
          PlaceRandomCoins(MAX_COINS - |coinMarkers|, myLocation, refill);
        }
      }
    }
  }
}
