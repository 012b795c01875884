/** Enemy spawning and cleanup: the enemy type decides the fall speed, every enemy
    starts just above the screen at a random column, enemies that fall past the bottom
    are destroyed, and a self-rescheduling timer chain spawns one enemy per firing.

    Random draws (`Phaser.Math.Between`, inclusive on both ends) are parameters whose
    bounds are stated as preconditions. */
module Enemy {
  import opened Culling
  import opened Arcade

  /** JavaScript's `undefined` or a value. */
  datatype Option<T> = None | Some(value: T)

  /** The enemy types the spawner picks from, indexed by a draw in [0, 1]. */
  const EnemyTypes: seq<string> := ["enemy", "enemy2"]
  /** The row every enemy starts at, just above the top of the screen. */
  const StartY: int := -50
  /** Bounds of the random start column. */
  const MinX: int := 30
  const MaxX: int := 270
  /** Bounds of each random delay in the spawner chain, in milliseconds. */
  const MinDelay: nat := 200
  const MaxDelay: nat := 700

  /** The enemy `createEnemy` adds for `enemyType` when the column draw is `randomX`, or
      `None` for a type it does not know. */
  function SpawnEnemy(enemyType: string, randomX: int): (r: Option<Body>)
    requires MinX <= randomX <= MaxX
    ensures r.Some? <==> enemyType in EnemyTypes
    ensures r.Some? ==>
      r.value.key == enemyType && r.value.y == StartY && r.value.x == randomX && MinX <= r.value.x <= MaxX &&
      r.value.vx == 0 && r.value.vy == (if enemyType == "enemy" then 300 else 350)
  {
    match enemyType
    case "enemy" => Some(Body("enemy", randomX, StartY, 0, 300))
    case "enemy2" => Some(Body("enemy2", randomX, StartY, 0, 350))
    case _ => None
  }

  /** `createEnemy(scene, enemyType = "enemy")`: adds the enemy `SpawnEnemy` describes to
      the enemy group and returns it; an unknown type adds nothing and returns `None`. */
  method CreateEnemy(enemyGroup: Group, randomX: int, enemyType: string := "enemy") returns (enemy: Option<Body>)
    requires MinX <= randomX <= MaxX
    modifies enemyGroup
    ensures enemy == SpawnEnemy(enemyType, randomX)
    ensures enemyGroup.entries == old(enemyGroup.entries) + (if enemy.Some? then [enemy.value] else [])
  {
    enemy := None;
    if enemyType == "enemy" {
      enemy := Some(Body("enemy", randomX, StartY, 0, 300));
      enemyGroup.Create(enemy.value);
    } else if enemyType == "enemy2" {
      enemy := Some(Body("enemy2", randomX, StartY, 0, 350));
      enemyGroup.Create(enemy.value);
    }
  }

  /** An enemy that has fallen past the bottom of the screen. */
  predicate IsEnemyOffScreen(b: Body)
  {
    b.y > 550
  }

  /** `cleanUpEnemies(enemyGroup)`: nothing for a missing group, otherwise one pass that
      destroys enemies below the screen. */
  method CleanUpEnemies(enemyGroup: Group?)
    modifies enemyGroup
    ensures enemyGroup != null ==> enemyGroup.entries == LiveCull(old(enemyGroup.entries), IsEnemyOffScreen)
  {
    if enemyGroup == null {
      return;
    }
    enemyGroup.CullLive(IsEnemyOffScreen);
  }

  /** Every enemy still on screen survives a cleanup pass, in order, and whatever the
      pass removed had fallen below the screen. */
  lemma CleanUpKeepsVisibleEnemies(enemies: seq<Body>)
    ensures Kept(LiveCull(enemies, IsEnemyOffScreen), IsEnemyOffScreen) == Kept(enemies, IsEnemyOffScreen)
    ensures multiset(LiveCull(enemies, IsEnemyOffScreen)) <= multiset(enemies)
  {
    LiveCullKeepsOnScreen(enemies, IsEnemyOffScreen);
  }

  /** The type one spawner firing asks for, given its index draw. */
  function SpawnType(randomIndex: int): (t: string)
    requires 0 <= randomIndex <= 1
    ensures t in EnemyTypes && (t == "enemy" <==> randomIndex == 0)
  {
    EnemyTypes[randomIndex]
  }

  /** Every spawner firing produces an enemy: the type it picks is always known. */
  lemma SpawnAlwaysCreates(randomIndex: int, randomX: int)
    requires 0 <= randomIndex <= 1 && MinX <= randomX <= MaxX
    ensures SpawnEnemy(SpawnType(randomIndex), randomX).Some?
  {
  }

  /** The engine timer behind the spawner chain. */
  datatype SpawnTimer =
    | Stopped
    | Armed(due: nat)      // the spawn event added by `startEnemySpawner`
    | Rearming(due: nat)   // the delayed call that runs `startEnemySpawner` again

  /** Consecutive spawn times are at least `2 * MinDelay` (400 ms) and at most
      `2 * MaxDelay` (1400 ms) apart: each gap is the sum of two delay draws. */
  ghost predicate GapsBounded(times: seq<nat>)
  {
    forall i :: 0 < i < |times| ==> times[i - 1] + 2 * MinDelay <= times[i] <= times[i - 1] + 2 * MaxDelay
  }

  /** `startEnemySpawner` and the timer chain it sets up. `group` is the module's enemy
      group, the one `createEnemy` adds to. */
  class EnemySpawner {
    const group: Group
    var timer: SpawnTimer
    /** When the chain was started, and the times of all spawns so far. */
    ghost var startedAt: nat
    ghost var spawnTimes: seq<nat>

    /** The first spawn comes 200 to 700 ms after the start, each later one 400 to
        1400 ms after the one before, and the pending timer keeps to the same bounds. */
    ghost predicate Valid()
      reads this
    {
      (timer.Stopped? ==> spawnTimes == []) &&
      (spawnTimes != [] ==> startedAt + MinDelay <= spawnTimes[0] <= startedAt + MaxDelay) &&
      GapsBounded(spawnTimes) &&
      (timer.Armed? && spawnTimes == [] ==> startedAt + MinDelay <= timer.due <= startedAt + MaxDelay) &&
      (timer.Armed? && spawnTimes != [] ==>
        spawnTimes[|spawnTimes| - 1] + 2 * MinDelay <= timer.due <= spawnTimes[|spawnTimes| - 1] + 2 * MaxDelay) &&
      (timer.Rearming? ==>
        spawnTimes != [] &&
        spawnTimes[|spawnTimes| - 1] + MinDelay <= timer.due <= spawnTimes[|spawnTimes| - 1] + MaxDelay)
    }

    constructor (enemyGroup: Group)
      ensures Valid() && group == enemyGroup && timer == Stopped && spawnTimes == []
    {
      group := enemyGroup;
      timer := Stopped;
      startedAt, spawnTimes := 0, [];
    }

    /** `startEnemySpawner(scene, enemyGroup)` at time `now`: arm a one-shot spawn event
        `delay` ms ahead. */
    method Start(now: nat, delay: nat)
      requires Valid() && timer.Stopped?
      requires MinDelay <= delay <= MaxDelay
      modifies this`timer, this`startedAt
      ensures Valid()
      ensures timer == Armed(now + delay) && startedAt == now && spawnTimes == []
    {
      startedAt := now;
      timer := Armed(now + delay);
    }

    /** The spawn event fires at its due time `now`: one enemy of the drawn type joins the
        group, and a delayed call is set `nextDelay` ms ahead. */
    method Fire(now: nat, randomIndex: int, randomX: int, nextDelay: nat)
      requires Valid() && timer == Armed(now)
      requires 0 <= randomIndex <= 1 && MinX <= randomX <= MaxX
      requires MinDelay <= nextDelay <= MaxDelay
      modifies this`timer, this`spawnTimes, group
      ensures Valid()
      ensures group.entries == old(group.entries) + [SpawnEnemy(SpawnType(randomIndex), randomX).value]
      ensures spawnTimes == old(spawnTimes) + [now] && timer == Rearming(now + nextDelay)
    {
      var enemyType := EnemyTypes[randomIndex];
      var enemy := CreateEnemy(group, randomX, enemyType);
      spawnTimes := spawnTimes + [now];
      timer := Rearming(now + nextDelay);
    }

    /** The delayed call fires at its due time `now` and runs `startEnemySpawner` again,
        arming the next spawn event `delay` ms ahead. */
    method Restart(now: nat, delay: nat)
      requires Valid() && timer == Rearming(now)
      requires MinDelay <= delay <= MaxDelay
      modifies this`timer
      ensures Valid()
      ensures timer == Armed(now + delay)
    {
      timer := Armed(now + delay);
    }
  }

  /** From the bounds on consecutive gaps: two spawns `j - i` firings apart are at least
      400 ms and at most 1400 ms per firing apart. */
  lemma {:induction false} SpawnTimesBounded(times: seq<nat>, i: nat, j: nat)
    requires GapsBounded(times)
    requires i <= j < |times|
    ensures times[i] + 2 * MinDelay * (j - i) <= times[j] <= times[i] + 2 * MaxDelay * (j - i)
    decreases j - i
  {
    if i < j {
      SpawnTimesBounded(times, i, j - 1);
    }
  }
}
