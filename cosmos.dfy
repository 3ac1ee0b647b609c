/**
 * The cosmos scene (src/scenes/Cosmos.jsx): the comet's tail buffer, the sun corona's ray
 * buffer, and the gravity ring around the earth. Trigonometry stays outside: the comet's orbit
 * and the rays' directions are parameters.
 */
module Cosmos {

  /** A point in scene units. */
  datatype Vec3 = Vec3(x: real, y: real, z: real)

  // ---------------------------------------------------------------- comet

  const TailCount: nat := 200

  /** The comet's angular speed in radians per second: slow when its factor is reversed. */
  function CometSpeed(reversed: bool): (r: real)
    ensures r > 0.0
    ensures reversed ==> r < CometSpeed(false)
  {
    if reversed then 0.06 else 0.42
  }

  /** The history after a frame: the new position in front, the oldest entry dropped once past 200. */
  function Shift(history: seq<Vec3>, p: Vec3): (r: seq<Vec3>)
    ensures |history| >= TailCount ==> |r| == |history|
    ensures |history| < TailCount ==> |r| == |history| + 1
    ensures r[0] == p
    ensures forall i :: 0 <= i < |r| - 1 ==> r[i + 1] == history[i]
  {
    var h := [p] + history;
    if |h| > TailCount then h[..|h| - 1] else h
  }

  /** The history after a run of frames with the given positions, oldest first. */
  function Trail(history: seq<Vec3>, positions: seq<Vec3>): seq<Vec3>
    decreases |positions|
  {
    if positions == [] then history else Trail(Shift(history, positions[0]), positions[1..])
  }

  function Reverse(s: seq<Vec3>): (r: seq<Vec3>)
    ensures |r| == |s|
  {
    if s == [] then [] else Reverse(s[1..]) + [s[0]]
  }

  lemma TakeAppend(a: seq<Vec3>, b: seq<Vec3>, n: nat)
    requires |b| >= n
    ensures (a + b[..n])[..n] == (a + b)[..n]
  {
    forall k | 0 <= k < n
      ensures (a + b[..n])[k] == (a + b)[k]
    {
      if k >= |a| {
        assert (a + b[..n])[k] == b[..n][k - |a|];
      }
    }
  }

  /**
   * With a full history, the tail keeps 200 entries: the positions of the run, newest first,
   * then what it held before, cut at 200.
   */
  lemma {:induction false} TrailHoldsRecent(history: seq<Vec3>, positions: seq<Vec3>)
    requires |history| == TailCount
    ensures Trail(history, positions) == (Reverse(positions) + history)[..TailCount]
    decreases |positions|
  {
    if positions != [] {
      var p := positions[0];
      var rest := positions[1..];
      var h := Shift(history, p);
      assert h == ([p] + history)[..TailCount];
      TrailHoldsRecent(h, rest);
      calc {
        Trail(history, positions);
        Trail(h, rest);
        (Reverse(rest) + ([p] + history)[..TailCount])[..TailCount];
        { TakeAppend(Reverse(rest), [p] + history, TailCount); }
        (Reverse(rest) + ([p] + history))[..TailCount];
        { assert Reverse(rest) + ([p] + history) == (Reverse(rest) + [p]) + history; }
        ((Reverse(rest) + [p]) + history)[..TailCount];
      }
    }
  }

  /** The comet: its orbit angle, the position history and the tail's vertex buffer. */
  class Comet {
    var angle: real
    var history: seq<Vec3>
    const tailPos: array<real>

    /** The buffer holds the history's coordinates, three per entry. */
    predicate Mirrors()
      reads this, tailPos
      requires tailPos.Length == 3 * |history|
    {
      forall i :: 0 <= i < |history| ==>
        tailPos[3 * i] == history[i].x && tailPos[3 * i + 1] == history[i].y && tailPos[3 * i + 2] == history[i].z
    }

    predicate Valid()
      reads this, tailPos
    {
      |history| == TailCount && tailPos.Length == 3 * TailCount && Mirrors()
    }

    /** Mounted with 200 points at the origin and a zeroed buffer. */
    constructor ()
      ensures Valid() && fresh(tailPos)
      ensures angle == 0.0
      ensures history == seq(TailCount, _ => Vec3(0.0, 0.0, 0.0))
    {
      angle := 0.0;
      history := seq(TailCount, _ => Vec3(0.0, 0.0, 0.0));
      tailPos := new real[3 * TailCount](_ => 0.0);
    }

    /**
     * One frame: advance the angle, put the orbit position for it in front of the history,
     * drop the oldest entry, and copy the history into the buffer.
     */
    method Frame(delta: real, reversed: bool, orbit: real -> Vec3)
      requires Valid()
      modifies this, tailPos
      ensures Valid()
      ensures angle == old(angle) + delta * CometSpeed(reversed)
      ensures delta >= 0.0 ==> angle >= old(angle)
      ensures history == Shift(old(history), orbit(angle))
    {
      angle := angle + delta * (if reversed then 0.06 else 0.42);
      var h := [orbit(angle)] + history;
      if |h| > TailCount {
        h := h[..|h| - 1];
      }
      history := h;
      var i := 0;
      while i < TailCount
        invariant 0 <= i <= TailCount
        invariant angle == old(angle) + delta * CometSpeed(reversed)
        invariant history == h && |h| == TailCount
        invariant forall k :: 0 <= k < i ==>
                    tailPos[3 * k] == h[k].x && tailPos[3 * k + 1] == h[k].y && tailPos[3 * k + 2] == h[k].z
      {
        if i < |history| {
          tailPos[i * 3] := history[i].x;
          tailPos[i * 3 + 1] := history[i].y;
          tailPos[i * 3 + 2] := history[i].z;
        }
        i := i + 1;
      }
    }
  }

  // ---------------------------------------------------------------- corona rays

  /** Ray i of the buffer: from radius `inner` to radius `outer` along (c, s), both ends at z = 0. */
  predicate RayAt(pos: array<real>, i: nat, inner: real, c: real, s: real, outer: real)
    reads pos
  {
    6 * i + 5 < pos.Length &&
    pos[6 * i] == c * inner && pos[6 * i + 1] == s * inner && pos[6 * i + 2] == 0.0 &&
    pos[6 * i + 3] == c * outer && pos[6 * i + 4] == s * outer && pos[6 * i + 5] == 0.0
  }

  /** One iteration of the ray loop: writes ray i and leaves every other ray as it was. */
  method WriteRay(pos: array<real>, i: nat, inner: real, c: real, s: real, outer: real)
    requires 6 * i + 5 < pos.Length
    modifies pos
    ensures RayAt(pos, i, inner, c, s, outer)
    ensures forall j :: 0 <= j < pos.Length && (j < 6 * i || 6 * i + 5 < j) ==> pos[j] == old(pos[j])
  {
    pos[i * 6 + 0] := c * inner;
    pos[i * 6 + 1] := s * inner;
    pos[i * 6 + 2] := 0.0;
    pos[i * 6 + 3] := c * outer;
    pos[i * 6 + 4] := s * outer;
    pos[i * 6 + 5] := 0.0;
  }

  /**
   * `makeRays`: a buffer of `count` line segments, six numbers per ray. Ray i starts at radius
   * `innerR` and ends at `outerR` times its length factor, along the direction (cos, sin) of
   * angle 2πi/count, both ends in the plane z = 0; the reported vertex count is two per ray.
   */
  method MakeRays(count: nat, innerR: real, outerR: real, cosAt: nat -> real, sinAt: nat -> real, lengths: seq<real>)
    returns (pos: array<real>, vertices: nat)
    requires |lengths| == count
    ensures pos.Length == 6 * count
    ensures vertices == 2 * count
    ensures forall i :: 0 <= i < count ==> RayAt(pos, i, innerR, cosAt(i), sinAt(i), outerR * lengths[i])
  {
    pos := new real[6 * count];
    var i := 0;
    while i < count
      invariant 0 <= i <= count
      invariant pos.Length == 6 * count
      invariant forall k :: 0 <= k < i ==> RayAt(pos, k, innerR, cosAt(k), sinAt(k), outerR * lengths[k])
    {
      WriteRay(pos, i, innerR, cosAt(i), sinAt(i), outerR * lengths[i]);
      i := i + 1;
    }
    vertices := count * 2;
  }

  // ---------------------------------------------------------------- gravity ring

  /** The ring's scale after a frame and the opacity set in that frame. */
  datatype Ring = Ring(scale: real, opacity: real)

  function Clamp(lo: real, hi: real, v: real): real
  {
    if v < lo then lo else if v > hi then hi else v
  }

  /**
   * One frame of the gravity ring: it shrinks by `delta` (grows when reversed) and jumps back
   * to 2.5 (to 1 when reversed) once it leaves the band; the opacity, computed from the scale
   * before that jump, fades towards the band's far edge and is clamped into [0, 0.2].
   */
  function RingStep(scale: real, reversed: bool, delta: real): (r: Ring)
    ensures 0.0 <= r.opacity <= 0.2
    ensures 1.0 <= scale <= 2.5 && delta >= 0.0 ==> 1.0 <= r.scale <= 2.5
    ensures !reversed && delta >= 0.0 ==> r.scale <= scale || r.scale == 2.5
    ensures reversed && delta >= 0.0 ==> r.scale >= scale || r.scale == 1.0
  {
    var s := scale + delta * (if reversed then 1.0 else -1.0);
    var next := if !reversed && s < 1.0 then 2.5 else if reversed && s > 2.5 then 1.0 else s;
    var alpha := if reversed then (2.5 - s) / 1.5 else (s - 1.0) / 1.5;
    Ring(next, Clamp(0.0, 0.2, alpha * 0.2))
  }

  /** The ring's scale after a run of frames. */
  function RingAfter(scale: real, reversed: bool, deltas: seq<real>): real
    decreases |deltas|
  {
    if deltas == [] then scale else RingAfter(RingStep(scale, reversed, deltas[0]).scale, reversed, deltas[1..])
  }

  /** From any scale in [1, 2.5], its initial 1 included, a run of frames with one polarity and any frame times stays in [1, 2.5]. */
  lemma {:induction false} RingStaysInBand(scale: real, reversed: bool, deltas: seq<real>)
    requires 1.0 <= scale <= 2.5
    requires forall i :: 0 <= i < |deltas| ==> deltas[i] >= 0.0
    ensures 1.0 <= RingAfter(scale, reversed, deltas) <= 2.5
    decreases |deltas|
  {
    if deltas != [] {
      RingStaysInBand(RingStep(scale, reversed, deltas[0]).scale, reversed, deltas[1..]);
    }
  }
}
