/** The player's firing and status rules: a 200 ms fire cooldown, single or three-way
    volleys, a recoil nudge that cannot stack, keyboard steering, cleanup of stray
    bullets, and a hit animation (shake and red blink) that cannot stack either.

    The script keeps four module-level variables (the time of the last shot and three
    flags); `PlayerController` holds them as fields. The engine's tweens and timers call
    back into the script later; each such callback is a method of the controller that
    the engine invokes, and the controller remembers which callbacks are pending. */
module Player {
  import opened Culling
  import opened Arcade

  /** Minimum time between two shots, in milliseconds. */
  const FireCooldown: nat := 200
  /** How far the ship is pushed down by a shot's recoil, in pixels. */
  const RecoilDistance: int := 5
  /** Upward speed of every bullet, in pixels per second. */
  const BulletSpeed: int := 400
  /** Horizontal speed of the ship while an arrow key is held. */
  const ShipSpeed: int := 400
  /** Number of blink ticks in a hit animation (one timer firing plus five repeats). */
  const BlinkTicks: nat := 6

  /** The cooldown gate: a request at `now` fires unless it comes less than
      `FireCooldown` ms after the last shot. */
  predicate CanFire(now: int, lastFireTime: int)
  {
    now - lastFireTime >= FireCooldown
  }

  /** The bullets one successful shot adds to the bullet group, for a ship at (x, y). */
  function Volley(x: int, y: int, tripleShot: bool): (r: seq<Body>)
    ensures |r| == if tripleShot then 3 else 1
    ensures forall b <- r :: b.key == "fire" && b.vy == -BulletSpeed && b.y < y
    ensures r[0] == Body("fire", x, y - 20, 0, -BulletSpeed)
    ensures tripleShot ==>
      r[1].x == x - 20 && r[2].x == x + 20 && r[1].y == y - 10 && r[2].y == y - 10 &&
      r[1].vx == -50 && r[2].vx == 50
  {
    var centre := Body("fire", x, y - 20, 0, -BulletSpeed);
    if tripleShot then
      [centre, Body("fire", x - 20, y - 10, -50, -BulletSpeed), Body("fire", x + 20, y - 10, 50, -BulletSpeed)]
    else
      [centre]
  }

  /** The single shot is the centre bullet of the spread, and the two side bullets of the
      spread are mirror images of each other about the ship's vertical axis. */
  lemma VolleySpreadIsSymmetric(x: int, y: int)
    ensures Volley(x, y, false) == Volley(x, y, true)[..1]
    ensures Volley(x, y, true)[1].x - x == x - Volley(x, y, true)[2].x
    ensures Volley(x, y, true)[1].vx == -Volley(x, y, true)[2].vx
    ensures Volley(x, y, true)[1].y == Volley(x, y, true)[2].y > Volley(x, y, true)[0].y
  {
  }

  /** The ship's horizontal velocity for the arrow keys held: left wins over right. */
  function HorizontalVelocity(left: bool, right: bool): (vx: int)
    ensures vx < 0 <==> left
    ensures vx > 0 <==> !left && right
    ensures vx == 0 || vx == ShipSpeed || vx == -ShipSpeed
  {
    if left then -ShipSpeed else if right then ShipSpeed else 0
  }

  /** The arrow keys the script reads. */
  datatype Keys = Keys(left: bool, right: bool, up: bool)

  /** A bullet that has flown off the top of the screen. */
  predicate IsFireOffScreen(b: Body)
  {
    b.y < -50
  }

  // ---------------------------------------------------------------------------
  // The cooldown over a run of fire requests

  /** The last shot time after `shots`, or `lastFireTime` if there were none. */
  function LastShot(lastFireTime: int, shots: seq<nat>): int
  {
    if shots == [] then lastFireTime else shots[|shots| - 1]
  }

  /** The times, among fire requests made at `requests`, at which a shot actually goes
      off, when the previous shot was at `lastFireTime`. */
  function Shots(lastFireTime: int, requests: seq<nat>): seq<nat>
    decreases |requests|
  {
    if requests == [] then []
    else if CanFire(requests[0], lastFireTime) then [requests[0]] + Shots(requests[0], requests[1..])
    else Shots(lastFireTime, requests[1..])
  }

  /** Every shot answers a request, comes at least `FireCooldown` ms after the shot
      before it (or after `lastFireTime` for the first), and the shots are in order. In
      particular, starting from the initial `lastFireTime` of 0, no shot fires before 200. */
  lemma {:induction false} ShotsAreSpaced(lastFireTime: int, requests: seq<nat>)
    ensures forall t <- Shots(lastFireTime, requests) :: t in requests && t >= lastFireTime + FireCooldown
    ensures forall i :: 0 < i < |Shots(lastFireTime, requests)| ==>
      Shots(lastFireTime, requests)[i - 1] + FireCooldown <= Shots(lastFireTime, requests)[i]
    decreases |requests|
  {
    if requests != [] {
      var t := requests[0];
      if CanFire(t, lastFireTime) {
        ShotsAreSpaced(t, requests[1..]);
        var rest := Shots(t, requests[1..]);
        assert Shots(lastFireTime, requests) == [t] + rest;
        assert forall i :: 0 < i < |[t] + rest| ==> ([t] + rest)[i] == rest[i - 1];
        if rest != [] {
          assert rest[0] in rest;
        }
      } else {
        ShotsAreSpaced(lastFireTime, requests[1..]);
      }
    }
  }

  /** Adding one more request at the end: it fires exactly when the cooldown since the
      last shot so far has passed. */
  lemma {:induction false} ShotsSnoc(lastFireTime: int, requests: seq<nat>, t: nat)
    ensures Shots(lastFireTime, requests + [t]) ==
      Shots(lastFireTime, requests) +
      (if CanFire(t, LastShot(lastFireTime, Shots(lastFireTime, requests))) then [t] else [])
    decreases |requests|
  {
    if requests == [] {
      assert [] + [t] == [t];
    } else {
      var r := requests[0];
      assert (requests + [t])[0] == r && (requests + [t])[1..] == requests[1..] + [t];
      if CanFire(r, lastFireTime) {
        ShotsSnoc(r, requests[1..], t);
        AppendAssoc([r], Shots(r, requests[1..]),
          if CanFire(t, LastShot(r, Shots(r, requests[1..]))) then [t] else []);
      } else {
        ShotsSnoc(lastFireTime, requests[1..], t);
      }
    }
  }

  // ---------------------------------------------------------------------------
  // The controller

  /** The recoil tweens the engine is running on the ship, if any. */
  datatype Recoil =
    | Resting
    | Pushing(target: Sprite, originalY: int)    // moving down to originalY + RecoilDistance
    | Returning(target: Sprite, originalY: int)  // moving back up to originalY

  /** The hit effects the engine is running on the ship, if any: the shake tween (until it
      completes), the blink timer (`blinkCount` ticks so far) and the 600 ms recovery call. */
  datatype HitAnimation =
    | Calm
    | Hit(target: Sprite, originalX: int, blinkCount: nat, shaking: bool)

  /** `bulletGroup.children.entries.forEach(...)` with the bullets' off-screen test. */
  method CleanUpFires(fireGroup: Group)
    modifies fireGroup
    ensures fireGroup.entries == LiveCull(old(fireGroup.entries), IsFireOffScreen)
  {
    fireGroup.CullLive(IsFireOffScreen);
  }

  /** Two stray bullets next to each other anywhere in the group: the cleanup pass leaves
      at least one stray bullet behind, for a later pass to remove. */
  lemma StrayNeighboursOutliveCleanup(fires: seq<Body>, k: nat)
    requires k + 1 < |fires| && IsFireOffScreen(fires[k]) && IsFireOffScreen(fires[k + 1])
    ensures exists b <- LiveCull(fires, IsFireOffScreen) :: IsFireOffScreen(b)
  {
    LiveCullMissesSomeNeighbour(fires, k, IsFireOffScreen);
    StrayIsInGroup(LiveCull(fires, IsFireOffScreen));
  }

  lemma {:induction false} StrayIsInGroup(fires: seq<Body>)
    requires CountOff(fires, IsFireOffScreen) > 0
    ensures exists b <- fires :: IsFireOffScreen(b)
    decreases |fires|
  {
    if !IsFireOffScreen(fires[0]) {
      StrayIsInGroup(fires[1..]);
      var b :| b in fires[1..] && IsFireOffScreen(b);
      assert b in fires;
    } else {
      assert fires[0] in fires;
    }
  }

  class PlayerController {
    var lastFireTime: nat
    var isRecoiling: bool
    var isHit: bool
    var tripleShotActive: bool
    var recoil: Recoil
    var hit: HitAnimation
    /** The times of all fire requests so far, and of those that fired. */
    ghost var fireRequests: seq<nat>
    ghost var shots: seq<nat>

    ghost function HitTarget(): set<object>
      reads this
    {
      if hit.Hit? then {hit.target} else {}
    }

    /** The flags agree with the pending engine work, the shot history is what the
        cooldown makes of the requests, and a blinking ship is red exactly after an odd
        number of ticks. */
    ghost predicate Valid()
      reads this, HitTarget()
    {
      (isRecoiling <==> !recoil.Resting?) &&
      (isHit <==> hit.Hit?) &&
      (hit.Hit? ==> hit.blinkCount <= BlinkTicks) &&
      (hit.Hit? && hit.blinkCount > 0 ==> hit.target.tinted == (hit.blinkCount % 2 == 1)) &&
      shots == Shots(0, fireRequests) &&
      lastFireTime == LastShot(0, shots)
    }

    /** The script's initial module state. */
    constructor ()
      ensures Valid()
      ensures lastFireTime == 0 && !isRecoiling && !isHit && !tripleShotActive
      ensures recoil == Resting && hit == Calm && fireRequests == [] && shots == []
    {
      lastFireTime := 0;
      isRecoiling, isHit, tripleShotActive := false, false, false;
      recoil, hit := Resting, Calm;
      fireRequests, shots := [], [];
    }

    /** A fire request at time `now` from the ship `playerSprite`: inside the cooldown it
        does nothing; otherwise it adds a volley to `fireGroup`, records `now` as the last
        shot and starts a recoil unless one is running. */
    method CreateFire(now: nat, playerSprite: Sprite, fireGroup: Group)
      requires Valid()
      modifies this, fireGroup
      ensures Valid()
      ensures var fired := CanFire(now, old(lastFireTime));
        && fireGroup.entries ==
             old(fireGroup.entries) + (if fired then Volley(playerSprite.x, playerSprite.y, tripleShotActive) else [])
        && lastFireTime == (if fired then now else old(lastFireTime))
        && recoil == (if fired && old(recoil).Resting? then Pushing(playerSprite, playerSprite.y) else old(recoil))
        && isRecoiling == (old(isRecoiling) || fired)
        && shots == old(shots) + (if fired then [now] else [])
      ensures fireRequests == old(fireRequests) + [now]
      ensures tripleShotActive == old(tripleShotActive) && isHit == old(isHit) && hit == old(hit)
    {
      ShotsSnoc(0, fireRequests, now);
      fireRequests := fireRequests + [now];
      if now - lastFireTime < FireCooldown {
        return;
      }
      fireGroup.Create(Body("fire", playerSprite.x, playerSprite.y - 20, 0, -BulletSpeed));
      if tripleShotActive {
        fireGroup.Create(Body("fire", playerSprite.x - 20, playerSprite.y - 10, -50, -BulletSpeed));
        fireGroup.Create(Body("fire", playerSprite.x + 20, playerSprite.y - 10, 50, -BulletSpeed));
      }
      lastFireTime := now;
      shots := shots + [now];
      AddRecoilEffect(playerSprite);
    }

    /** Starts the recoil tweens on `playerSprite` unless a recoil is already running. */
    method AddRecoilEffect(playerSprite: Sprite)
      requires Valid()
      modifies this`isRecoiling, this`recoil
      ensures Valid()
      ensures isRecoiling
      ensures recoil == if old(isRecoiling) then old(recoil) else Pushing(playerSprite, playerSprite.y)
    {
      if isRecoiling {
        return;
      }
      isRecoiling := true;
      recoil := Pushing(playerSprite, playerSprite.y);
    }

    /** The engine reports that the running recoil tween has finished: after the push the
        ship sits `RecoilDistance` lower and the return tween starts; after the return the
        ship is back where the recoil started and a new recoil may begin. */
    method RecoilTweenComplete()
      requires Valid() && !recoil.Resting?
      modifies this`isRecoiling, this`recoil, recoil.target`y
      ensures Valid()
      ensures old(recoil).Pushing? ==>
        old(recoil).target.y == old(recoil).originalY + RecoilDistance &&
        recoil == Returning(old(recoil).target, old(recoil).originalY) && isRecoiling
      ensures old(recoil).Returning? ==>
        old(recoil).target.y == old(recoil).originalY && recoil == Resting && !isRecoiling
    {
      match recoil
      case Pushing(target, originalY) =>
        target.y := originalY + RecoilDistance;
        recoil := Returning(target, originalY);
      case Returning(target, originalY) =>
        target.y := originalY;
        recoil := Resting;
        isRecoiling := false;
    }

    /** One frame of steering: the arrow keys set the horizontal velocity (left wins), and
        holding up makes a fire request. */
    method PlayerMove(playerSprite: Sprite, keys: Keys, now: nat, fireGroup: Group)
      requires Valid()
      modifies this, playerSprite`vx, fireGroup
      ensures Valid()
      ensures playerSprite.vx == HorizontalVelocity(keys.left, keys.right)
      ensures var fired := keys.up && CanFire(now, old(lastFireTime));
        && fireGroup.entries ==
             old(fireGroup.entries) + (if fired then Volley(playerSprite.x, playerSprite.y, tripleShotActive) else [])
        && lastFireTime == (if fired then now else old(lastFireTime))
        && recoil == (if fired && old(recoil).Resting? then Pushing(playerSprite, playerSprite.y) else old(recoil))
        && isRecoiling == (old(isRecoiling) || fired)
      ensures fireRequests == old(fireRequests) + (if keys.up then [now] else [])
      ensures tripleShotActive == old(tripleShotActive) && isHit == old(isHit) && hit == old(hit)
    {
      if keys.left {
        playerSprite.vx := -ShipSpeed;
      } else if keys.right {
        playerSprite.vx := ShipSpeed;
      } else {
        playerSprite.vx := 0;
      }
      if keys.up {
        CreateFire(now, playerSprite, fireGroup);
      }
    }

    /** The ship was struck: unless a hit animation is already playing, start the shake,
        the blink timer and the 600 ms recovery call, remembering the ship's x. */
    method PlayerHitAnimation(playerSprite: Sprite)
      requires Valid()
      modifies this`isHit, this`hit
      ensures Valid()
      ensures isHit
      ensures hit == if old(isHit) then old(hit) else Hit(playerSprite, playerSprite.x, 0, true)
    {
      if isHit {
        return;
      }
      isHit := true;
      hit := Hit(playerSprite, playerSprite.x, 0, true);
    }

    /** The shake tween (50 ms out and back, four times) has finished: the ship is put
        back at the x it had when it was struck. */
    method ShakeComplete()
      requires Valid() && hit.Hit? && hit.shaking
      modifies this`hit, hit.target`x
      ensures Valid()
      ensures old(hit).target.x == old(hit).originalX
      ensures hit == old(hit).(shaking := false) && isHit
    {
      hit.target.x := hit.originalX;
      hit := hit.(shaking := false);
    }

    /** One tick of the blink timer (every 100 ms, six ticks): the count goes up and the
        ship is red exactly when the count is odd. */
    method BlinkTick()
      requires Valid() && hit.Hit? && hit.blinkCount < BlinkTicks
      modifies this`hit, hit.target`tinted
      ensures Valid()
      ensures hit == old(hit).(blinkCount := old(hit).blinkCount + 1) && isHit
      ensures hit.target.tinted <==> hit.blinkCount % 2 == 1
    {
      hit := hit.(blinkCount := hit.blinkCount + 1);
      hit.target.tinted := hit.blinkCount % 2 == 1;
    }

    /** The 600 ms recovery call. The engine runs it after the sixth blink tick, which is
        due at the same moment but was registered first, and after the 400 ms shake: the
        tint is cleared and the ship can be struck again. */
    method HitRecover()
      requires Valid() && hit.Hit? && hit.blinkCount == BlinkTicks && !hit.shaking
      modifies this`isHit, this`hit, hit.target`tinted
      ensures Valid()
      ensures !old(hit).target.tinted && !isHit && hit == Calm
    {
      hit.target.tinted := false;
      isHit := false;
      hit := Calm;
    }

    method ActivateTripleShot()
      requires Valid()
      modifies this`tripleShotActive
      ensures Valid() && IsTripleShotActive()
    {
      tripleShotActive := true;
    }

    method DeactivateTripleShot()
      requires Valid()
      modifies this`tripleShotActive
      ensures Valid() && !IsTripleShotActive()
    {
      tripleShotActive := false;
    }

    function IsTripleShotActive(): bool
      reads this
    {
      tripleShotActive
    }
  }
}
