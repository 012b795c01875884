/** The parts of the game engine's arcade physics that the gameplay rules touch: the
    position and velocity of a physics body, the player's sprite, and a group of bodies
    whose live entry array the cleanup routines walk. Positions and velocities are whole
    numbers of pixels and pixels per second; the engine itself moves bodies each frame,
    which is not part of this model. */
module Arcade {
  import opened Culling

  /** A physics body as the gameplay code creates it: its texture key, position and
      velocity (y grows downwards). */
  datatype Body = Body(key: string, x: int, y: int, vx: int, vy: int)

  /** The player's sprite: the fields the gameplay code reads or writes. */
  class Sprite {
    var x: int
    var y: int
    var vx: int
    var tinted: bool

    constructor (x0: int, y0: int)
      ensures x == x0 && y == y0 && vx == 0 && !tinted
    {
      x, y, vx, tinted := x0, y0, 0, false;
    }
  }

  /** A physics group; `entries` is its live child array, in insertion order. */
  class Group {
    var entries: seq<Body>

    constructor ()
      ensures entries == []
    {
      entries := [];
    }

    /** `group.create(...)` followed by the velocity setters: the new body joins the end. */
    method Create(b: Body)
      modifies this
      ensures entries == old(entries) + [b]
    {
      entries := entries + [b];
    }

    /** `entries.forEach(e => { if (off(e)) e.destroy(); })`: destroying an entry splices
        it out of the array the loop is walking, and the loop index still moves on. */
    method CullLive(off: Body -> bool)
      modifies this
      ensures entries == LiveCull(old(entries), off)
    {
      ghost var s := entries;
      ghost var done: seq<Body> := [];
      ghost var rest := entries;
      var i := 0;
      while i < |entries|
        invariant entries == done + rest
        invariant i == |done| || (i == |done| + 1 && rest == [])
        invariant LiveCull(s, off) == done + LiveCull(rest, off)
        decreases |rest|
      {
        LiveCullUnfold(rest, off);
        SpliceAtSeam(done, rest);
        if off(entries[i]) {
          entries := entries[..i] + entries[i + 1..];
          if |rest| > 1 {
            // the entry that slid into slot i is passed over
            AppendAssoc(done, [rest[1]], rest[2..]);
            AppendAssoc(done, [rest[1]], LiveCull(rest[2..], off));
            done, rest := done + [rest[1]], rest[2..];
          } else {
            rest := [];
          }
        } else {
          AppendAssoc(done, [rest[0]], rest[1..]);
          AppendAssoc(done, [rest[0]], LiveCull(rest[1..], off));
          done, rest := done + [rest[0]], rest[1..];
        }
        i := i + 1;
      }
    }
  }
}
