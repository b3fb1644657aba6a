/**
 * The meteor-shower sample's meteor (sample/meteor-shower/meteor.js): a
 * position and a velocity, moved one step at a time, with a colour. Positions
 * and speeds are whole numbers, as the sample feeds them.
 */
module MeteorSample {

  /** The five fields of a meteor, as a value. */
  datatype Snapshot = Snapshot(px: int, py: int, vx: int, vy: int, color: string)

  /** What `getPos` returns: `{x, y, color}`. */
  datatype Pos = Pos(x: int, y: int, color: string)

  /** One `move`: the velocity is added to the position. */
  function Step(s: Snapshot): (r: Snapshot)
    ensures r.vx == s.vx && r.vy == s.vy && r.color == s.color
    ensures r.px - s.px == s.vx && r.py - s.py == s.vy
  {
    s.(px := s.px + s.vx, py := s.py + s.vy)
  }

  /** `n` moves in a row. */
  function Steps(s: Snapshot, n: nat): Snapshot
    decreases n
  {
    if n == 0 then s else Step(Steps(s, n - 1))
  }

  /** After `n` moves a meteor is `n` velocities away from where it started, with the same velocity and colour. */
  lemma {:induction false} StepsClosedForm(s: Snapshot, n: nat)
    ensures Steps(s, n) == s.(px := s.px + n * s.vx, py := s.py + n * s.vy)
  {
    if n > 0 {
      StepsClosedForm(s, n - 1);
    }
  }

  /** Moving `a` times and then `b` times is moving `a + b` times. */
  lemma {:induction false} StepsCompose(s: Snapshot, a: nat, b: nat)
    ensures Steps(Steps(s, a), b) == Steps(s, a + b)
  {
    if b > 0 {
      StepsCompose(s, a, b - 1);
    }
  }

  class Meteor {
    var px: int
    var py: int
    var vx: int
    var vy: int
    var color: string

    function State(): Snapshot
      reads this
    {
      Snapshot(px, py, vx, vy, color)
    }

    /** `new Meteor(px, py, vx, vy, color)`: every field as given. */
    constructor (px: int, py: int, vx: int, vy: int, color: string)
      ensures State() == Snapshot(px, py, vx, vy, color)
    {
      this.px, this.py, this.vx, this.vy, this.color := px, py, vx, vy, color;
    }

    /** `reset`: every field overwritten, whatever the meteor was before. */
    method Reset(px: int, py: int, vx: int, vy: int, color: string)
      modifies this
      ensures State() == Snapshot(px, py, vx, vy, color)
    {
      this.px, this.py, this.vx, this.vy, this.color := px, py, vx, vy, color;
    }

    /** `move`: one step along the velocity. */
    method Move()
      modifies this
      ensures State() == Step(old(State()))
      ensures vx == old(vx) && vy == old(vy) && color == old(color)
    {
      px := px + vx;
      py := py + vy;
    }

    /** `getPos`: the position and colour, nothing changed. */
    method GetPos() returns (p: Pos)
      ensures p.x == px && p.y == py && p.color == color
    {
      p := Pos(px, py, color);
    }
  }
}
