# Plane Wars gameplay rules in Dafny

This project models the gameplay rule layer of the Plane Wars vertical shooter, the part
that sits on top of the Phaser arcade engine. It covers two scripts.

- `js/player.js` gates fire requests with a 200 ms cooldown and fires either one bullet
  or a three-way spread. It nudges the ship with a recoil that cannot stack. It steers
  the ship from the arrow keys, with left winning over right. It destroys bullets that
  have left the top of the screen. It plays a hit animation (a shake and a red blink)
  that cannot stack either.
- `js/enemy.js` turns an enemy type into spawn parameters: the top row, a random column
  in [30, 270] and a per-type fall speed. It destroys enemies that have fallen below the
  screen. It runs a self-rescheduling timer chain that spawns one enemy per firing.

The engine is abstracted as follows.

- Time is a `nat` of milliseconds.
- Positions and velocities are whole numbers.
- A physics group is a class whose `entries` field is its live child array.
- Random draws are parameters whose inclusive bounds are preconditions.
- Each engine callback is a method the engine invokes when it is due: a tween's
  `onComplete`, a timer tick, a delayed call.

Files:

- `culling.dfy` (module `Culling`): `LiveCull`, the outcome of one cleanup pass, with
  lemmas about what it keeps and what it may miss.
- `arcade.dfy` (module `Arcade`): bodies, the player sprite, and `Group` with the
  in-place cleanup loop.
- `player.dfy` (module `Player`): the volley and steering rules, the cooldown over a run
  of requests, and `PlayerController`, which holds the script's module-level state.
- `enemy.dfy` (module `Enemy`): spawn parameters, enemy cleanup, and `EnemySpawner`.

Both cleanup routines call `destroy()` inside `forEach` over the group's live array.
`destroy()` splices that same array, so the entry that slides into a destroyed entry's
slot is skipped for that pass. The model follows the code here, not the "destroy all
matching" reading. `LiveCull` is what one pass really leaves. The lemmas show four
things about a pass:

- every on-screen entry survives, in order;
- only off-screen entries are removed;
- at least half of the off-screen entries go, and at least one whenever there is one;
- it removes all of them exactly when no two off-screen entries are neighbours
  (`LiveCullClearsAllIff`). Wherever a pair of neighbours sits, some off-screen entry
  survives, though not always the second of the pair: of three in a row, the middle
  one stays.

## Model

| member | source | states |
|---|---|---|
| `Culling.LiveCull` | js/player.js:120-124 | One pass never grows the array and keeps only entries that were there (multiset inclusion). A leading on-screen entry stays first. |
| `Culling.LiveCullKeepsOnScreen` | js/player.js:119-125 | The on-screen entries after a pass are exactly those before it, in the same order. With the multiset inclusion, everything removed was off-screen. |
| `Culling.LiveCullHalvesOffScreen` | js/enemy.js:37-41 | A pass leaves at most half of the off-screen entries (rounded down). |
| `Culling.LiveCullMakesProgress` | js/enemy.js:37-41 | A pass removes at least one off-screen entry whenever there is one. |
| `Culling.LiveCullIsFilterWhenSparse` | js/player.js:120-124 | When no two off-screen entries are neighbours, a pass removes exactly the off-screen entries, as a pass over a snapshot would. |
| `Culling.LiveCullMissesNeighbour` | js/enemy.js:37-41 | With two neighbouring off-screen entries at the front of the array, the first is removed and the second is kept unseen. So an off-screen entry outlives the pass. |
| `Culling.LiveCullMissesSomeNeighbour` | js/enemy.js:37-41 | With two neighbouring off-screen entries anywhere in the array, at least one off-screen entry outlives the pass. |
| `Culling.LiveCullClearsAllIff` | js/player.js:120-124 | A pass leaves no off-screen entry if and only if no two off-screen entries are neighbours. |
| `Arcade.Group.CullLive` | js/player.js:120-124 | The in-place loop (splice at index i, then i moves on) leaves exactly `LiveCull` of the entries before it. |
| `Player.Volley` | js/player.js:38-61 | A shot adds 1 bullet, or 3 with triple shot. All bullets are "fire" bullets above the ship, moving up at 400. The centre bullet is at (x, y-20) with no sideways speed. The side bullets are at (x∓20, y-10) with x-velocity ∓50. |
| `Player.VolleySpreadIsSymmetric` | js/player.js:38-61 | The single shot is the centre bullet of the spread. The side bullets mirror each other about the ship's axis and start behind the centre one. |
| `Player.HorizontalVelocity` | js/player.js:104-110 | The x-velocity is negative exactly when left is held, even if right is held too. It is positive exactly when only right is held. Its value is -400, 0 or 400. |
| `Player.ShotsAreSpaced` | js/player.js:31-64 | Every shot answers a request. The first shot comes at least 200 ms after the initial last-fire time, so none before 200 from the start value 0. Consecutive shots are at least 200 ms apart. |
| `Player.ShotsSnoc` | js/player.js:31-64 | A new request fires exactly when it is at least 200 ms after the last shot so far. A request at exactly last + 200 fires. |
| `Player.CleanUpFires` | js/player.js:119-125 | The bullet group after cleanup is `LiveCull` of the group before, with the test y < -50. |
| `Player.StrayNeighboursOutliveCleanup` | js/player.js:120-123 | With two neighbouring stray bullets (y < -50) anywhere in the group, some stray bullet is still in the group after the pass. |
| `Player.PlayerController.constructor` | js/player.js:3-6 | Initial state: last fire time 0, no recoil, no hit, triple shot off, no shots. |
| `Player.PlayerController.CreateFire` | js/player.js:30-68 | Inside the cooldown, nothing changes except the request log. Otherwise it appends `Volley` for the ship's position, sets the last fire time to `now` and records the shot. It starts a recoil only if none is running. The invariant ties the shot log to `Shots(0, requests)`. |
| `Player.PlayerController.AddRecoilEffect` | js/player.js:71-79 | A second request while recoiling changes nothing. Otherwise the push tween starts from the ship's current y. |
| `Player.PlayerController.RecoilTweenComplete` | js/player.js:81-98 | After the push, the ship is at originalY + 5 and the return tween runs. After the return, the ship is at originalY and only then is `isRecoiling` cleared. |
| `Player.PlayerController.PlayerMove` | js/player.js:102-116 | The x-velocity becomes `HorizontalVelocity(left, right)`. A fire request (with `CreateFire`'s effect) is made exactly when up is held. |
| `Player.PlayerController.PlayerHitAnimation` | js/player.js:128-136 | While a hit animation plays, a new hit changes nothing. Otherwise it records the ship's x and starts the shake, the blink timer and the recovery call. |
| `Player.PlayerController.ShakeComplete` | js/player.js:139-148 | When the shake finishes, the ship's x is the x it had when struck. |
| `Player.PlayerController.BlinkTick` | js/player.js:151-163 | Each tick raises the blink count by one. The ship is red exactly when the count is odd (kept as an invariant between ticks). |
| `Player.PlayerController.HitRecover` | js/player.js:166-169 | After 600 ms the tint is cleared, `isHit` is false and no hit effect is pending. |
| `Player.PlayerController.ActivateTripleShot` | js/player.js:173-175 | Afterwards `IsTripleShotActive()` holds. Nothing else changes, so a repeat call has no further effect. |
| `Player.PlayerController.DeactivateTripleShot` | js/player.js:178-185 | Afterwards `IsTripleShotActive()` is false. Nothing else changes. |
| `Enemy.SpawnEnemy` | js/enemy.js:11-31 | A known type ("enemy", "enemy2") gives one enemy with that texture. It starts at y = -50 at the drawn column x in [30, 270] and falls at 300 or 350. Any other type gives none. |
| `Enemy.CreateEnemy` | js/enemy.js:11-31 | Returns `SpawnEnemy`'s result and appends that enemy to the group. An unknown type leaves the group unchanged. The default type is "enemy". |
| `Enemy.CleanUpEnemies` | js/enemy.js:34-42 | A missing group is left alone. Otherwise the group becomes `LiveCull` of itself with the test y > 550. |
| `Enemy.CleanUpKeepsVisibleEnemies` | js/enemy.js:37-41 | Every enemy at y <= 550 survives cleanup, in order. Everything removed had fallen below the screen. |
| `Enemy.SpawnType` | js/enemy.js:50-52 | The drawn index picks "enemy" (index 0) or "enemy2" (index 1), always a known type. |
| `Enemy.SpawnAlwaysCreates` | js/enemy.js:50-54 | Every spawner firing creates an enemy. |
| `Enemy.EnemySpawner.Start` | js/enemy.js:45-64 | Starting arms one spawn event 200–700 ms ahead. |
| `Enemy.EnemySpawner.Fire` | js/enemy.js:48-60 | A firing appends exactly one enemy of the drawn type to the module's enemy group and logs its time. It arms the delayed restart 200–700 ms ahead. The invariant keeps the first spawn 200–700 ms after the start and each gap in [400, 1400] ms. |
| `Enemy.EnemySpawner.Restart` | js/enemy.js:58-60 | The delayed call re-arms the spawn event 200–700 ms ahead. So the next spawn is 400–1400 ms after the last. |
| `Enemy.SpawnTimesBounded` | js/enemy.js:57-62 | For spawns k firings apart, the time between them lies in [400·k, 1400·k] ms. |

## Left out

- `js/load.js` (asset loading, animation registration, the explosion effect) and
  `js/game.js` (engine configuration) hold engine glue and rendering numerics. They are
  not part of this model.
- `createPlayer`, `createFireGroup` and `createEnemyGroup` only ask the engine for a
  sprite or a group. The `Sprite` and `Group` constructors stand for them.
- Engine physics: bodies are not moved between calls. Positions are whole pixels where
  the engine uses floating point.
- Tween easing and the intermediate positions of the recoil and shake tweens. Only each
  tween's end position is modelled. The scale factor, the tint colour (only tinted or
  not) and the "enemy2-fly" animation are also left out.
- Frame timing: timers and delayed calls are taken to fire exactly at their due time,
  not at the first frame after it.
- `Player.PlayerController.HitRecover` requires that the six blink ticks and the shake
  have finished. This is the engine's order: the 600 ms call was registered after the
  blink timer, whose last tick is due at the same moment, and the shake ends at 400 ms.
- `Enemy.EnemySpawner.Start` requires a stopped spawner, so the model has one timer
  chain. A second call to `startEnemySpawner` would run a second, independent chain.
- `Enemy.EnemySpawner.Fire` and `Enemy.EnemySpawner.Restart` require `now` to be the
  due time, because frame lateness is not modelled.
- `Enemy.CreateEnemy` takes the enemy group as a parameter. The script uses its
  module-level group, which throws if `createEnemyGroup` has not run; that error is not
  modelled. `startEnemySpawner`'s own group parameter is only passed on to the next call.
- Random draws are modelled only by their inclusive bounds, not by their distribution.
