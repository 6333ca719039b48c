# Ingress coin field: a Dafny model

Ingress is a small location-based Android game. One screen, `MainActivity`, shows a map with up to five
"coin" markers scattered around the player. Whenever the device reports a new position, the screen
collects the first visible coin within 10 m: it removes the marker, adds one point to the score and places
a replacement. Then it tops the field back up to five coins.

This project models that coin-field state machine and proves its properties.

- `coin_rules.dfy` (module `CoinRules`) holds the rules as functions on values, plus the lemmas. A game
  state `Game(score, coinMarkers)` is a Java `int` score and an ordered list of marker slots. A slot is
  `Option<Marker>`, where `None` is a null marker and a `Marker` has a position and a visibility flag.
- `main_activity.dfy` (module `Ingress`) holds the class `MainActivity`. Its fields `score` and
  `coinMarkers` are changed in place by `PlaceRandomCoins`, `CheckForCollectedCoins` and
  `OnMyLocationChange`, with the same loops, the same early `break` and the same index removal as the
  Java code. Each method is proved to leave exactly the state that the matching `CoinRules` function
  computes from the old state.

What the device and the map SDK decide is passed in as inputs:
- `Location.distanceBetween` is a `Distance` function. A coin counts as within range when the reported
  distance is below `10.0`, as in the Java code.
- The random offset plus `aMap.addMarker` is a `Spawner`. For the i-th iteration of one placement call
  around a centre, it gives the marker the map returns, or `None` for a null result.
- `aMap.getMyLocation()` is an `Option<LatLng>` input named `myLocation`. It is separate from the location
  the callback receives, because placement centres on the map's own location.

The Java code appends whatever `addMarker` returns. A null result still takes a slot, and the scan
skips it.

`score` is a Java `int`, so `score++` wraps from 2^31-1 to -2^31. The model keeps that wrap-around
(`CoinRules.Inc`). The score properties are proved as far as the wrap allows.

## Model

| member | source | states |
|---|---|---|
| CoinRules.Inc | app/src/main/java/com/example/ingress/MainActivity.java:145 | `score++` on a Java `int`: the result is one more than the input modulo 2^32, and exactly one more below the largest `int` |
| CoinRules.Iterations | app/src/main/java/com/example/ingress/MainActivity.java:109 | the number of coins one placement call adds is the number of times the loop test `i < numCoins` succeeds from `i = 0`, which is none for `numCoins ≤ 0` |
| CoinRules.FirstCollectible | app/src/main/java/com/example/ingress/MainActivity.java:135-142 | the index the scan stops at is a collectible slot, and every earlier slot is not collectible; `None` exactly when no slot is collectible. A slot is collectible (`Collectible`) when it is non-null, visible and reported less than 10 m away, the test at lines 137 and 142 |
| CoinRules.RemoveAt | app/src/main/java/com/example/ingress/MainActivity.java:144 | `List.remove(int)` drops exactly slot i: earlier slots keep their index, later ones shift down by one, and the multiset loses only that slot |
| CoinRules.Spawned | app/src/main/java/com/example/ingress/MainActivity.java:109-128 | the n markers one placement call adds are, in order, the map's results for iterations 0 to n-1 around the centre |
| CoinRules.WithPlacedCoins | app/src/main/java/com/example/ingress/MainActivity.java:99-129 | a placement leaves the list unchanged when the map has no location; otherwise it keeps the old list as a prefix and appends exactly n slots (none for n ≤ 0), the i-th being the map's i-th result around the map's location |
| CoinRules.AfterCollection | app/src/main/java/com/example/ingress/MainActivity.java:134-155 | with no collectible coin the state is unchanged; otherwise the score is incremented once, the list begins with the old list minus exactly the first collectible slot, and one replacement from the map follows when the map has a location |
| CoinRules.AfterLocationChange | app/src/main/java/com/example/ingress/MainActivity.java:158-171 | a null location changes nothing; the score stays or goes up by one; a field of at most MAX_COINS stays within MAX_COINS; with both locations known the field ends with exactly max(MAX_COINS, old size) slots; with the callback's location but none on the map, the list is just the old list minus the collected slot, if any; with both locations and nothing collected, the list is the old list followed by exactly the map's first MAX_COINS - size top-up results (none for a full field) |
| CoinRules.ToppedUp | app/src/main/java/com/example/ingress/MainActivity.java:167-168 | the top-up never changes the score; with the map's location and fewer than MAX_COINS slots it appends exactly MAX_COINS - size results of the map, and otherwise it changes nothing |
| CoinRules.ScoreCountsCollection | app/src/main/java/com/example/ingress/MainActivity.java:135-152 | an update increments the score iff the callback has a location and some slot is a visible coin within range, and leaves it unchanged iff not |
| CoinRules.ScoreNeverDecreases | app/src/main/java/com/example/ingress/MainActivity.java:142-152 | below the largest `int` an update never lowers the score and raises it by at most one, however many coins are in range |
| CoinRules.SurvivorsKeepOrder | app/src/main/java/com/example/ingress/MainActivity.java:134-171 | after an update, the old slots minus the collected one come first, in their old order; new slots only follow them |
| CoinRules.CollectsFirstMatch | app/src/main/java/com/example/ingress/MainActivity.java:135-151 | when slot i is the lowest collectible one, the update removes exactly slot i; if the map has no location the list is the old list minus slot i, otherwise it is exactly the old list minus slot i, then the replacement, then the map's first MAX_COINS - old size top-up results |
| CoinRules.OnlyOneCollectibleSlotDisappears | app/src/main/java/com/example/ingress/MainActivity.java:137-151 | at most one slot disappears per update, and any slot that disappears was a visible coin within range: null and invisible slots are never removed |
| CoinRules.CoinFiveMetresAwayIsCollected | app/src/main/java/com/example/ingress/MainActivity.java:142-150 | a visible coin reported 5 m away in the first slot of a full field is collected: the score goes up by one and the field is the other four coins plus the replacement |
| CoinRules.CoinsFiftyMetresAwayAreKept | app/src/main/java/com/example/ingress/MainActivity.java:137-142 | when every coin is reported 50 m away, a full field and the score are left unchanged |
| CoinRules.RunKeepsCoinBound | app/src/main/java/com/example/ingress/MainActivity.java:158-171 | over any sequence of updates, a field of at most MAX_COINS never grows beyond MAX_COINS |
| CoinRules.RunScoreMonotone | app/src/main/java/com/example/ingress/MainActivity.java:142-152 | over a sequence of updates that cannot reach the largest `int`, the score never decreases and rises at most once per update |
| CoinRules.RunFillsField | app/src/main/java/com/example/ingress/MainActivity.java:166-169 | after a sequence of updates starting from at most MAX_COINS coins, if the last update had both the callback's and the map's location, the field holds exactly MAX_COINS slots |
| Ingress.MainActivity.constructor | app/src/main/java/com/example/ingress/MainActivity.java:36-38 | a new screen starts with a score of 0 and no markers |
| Ingress.MainActivity.PlaceRandomCoins | app/src/main/java/com/example/ingress/MainActivity.java:99-129 | the counting loop changes only the marker list, and leaves it equal to `WithPlacedCoins` of the old list |
| Ingress.MainActivity.CheckForCollectedCoins | app/src/main/java/com/example/ingress/MainActivity.java:134-155 | the index scan with `remove(i)`, `score++`, one replacement and `break` leaves exactly the state `AfterCollection` computes |
| Ingress.MainActivity.OnMyLocationChange | app/src/main/java/com/example/ingress/MainActivity.java:157-171 | the callback leaves exactly the state `AfterLocationChange` computes, so all the lemmas above hold of the object |

## Left out

- Android lifecycle, permissions, the privacy set-up and the location blue dot (`onCreate`, `setupLocationBlueDot`, `checkAndRequestPermissions`, `onRequestPermissionsResult`) are left out. They only configure the OS and the SDK.
- The score text (`updateScore`) and the "Collected a coin!" toast are left out. They only change the view.
- `marker.remove()` on the map surface is left out. The model tracks the marker list, not which markers the map still draws.
- `Location.distanceBetween` is an input `Distance` function. It is a floating-point geodesic computation in a foreign library.
- The random offset is not modelled. It is drawn within ±500/111000 degrees of the map's location (the source comment says 1000 m, the code uses 500). It uses `java.util.Random` and float/double arithmetic, so new coin positions are left arbitrary through the `Spawner` input.
- The marker style (`MarkerOptions` with the coin icon, title and snippet) is left out. It is SDK configuration.
- `aMap.getMyLocation()` is assumed to return the same value for both placement calls in one callback. It is one `myLocation` input per update.
- CoinRules.ScoreNeverDecreases: holds only while the score is below 2^31-1, because at that value Java's `score++` wraps to -2^31.
- CoinRules.RunScoreMonotone: holds only for sequences too short to reach 2^31-1, for the same wrap-around reason.
