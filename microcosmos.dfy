/**
 * The microcosm scene (src/scenes/MicroCosmos.jsx): the neural network built once from 80
 * random points, and the per-frame motion of the abstraction and mutation nodes. The random
 * draws and the sine/cosine deformations are parameters.
 */
module MicroCosmos {

  datatype Point = Point(x: real, y: real, z: real)

  const NeuronCount: nat := 80
  /** Two neurons are linked when they are closer than this. */
  const LinkDistance: real := 6.0

  /** A coordinate from a draw in [0, 1): centred and scaled into [-10, 10). */
  function Coordinate(u: real): (c: real)
    requires 0.0 <= u < 1.0
    ensures -10.0 <= c < 10.0
  {
    (u - 0.5) * 20.0
  }

  predicate UnitDraws(draws: seq<real>)
  {
    forall k :: 0 <= k < |draws| ==> 0.0 <= draws[k] < 1.0
  }

  /** The node loop: neuron i takes draws 3i, 3i+1 and 3i+2 as its x, y and z. */
  method BuildNeurons(draws: seq<real>) returns (nodes: seq<Point>)
    requires |draws| == 3 * NeuronCount && UnitDraws(draws)
    ensures |nodes| == NeuronCount
    ensures forall i :: 0 <= i < NeuronCount ==>
              nodes[i] == Point(Coordinate(draws[3 * i]), Coordinate(draws[3 * i + 1]), Coordinate(draws[3 * i + 2]))
    ensures forall i :: 0 <= i < NeuronCount ==> InCube(nodes[i])
  {
    nodes := [];
    var i := 0;
    while i < NeuronCount
      invariant 0 <= i <= NeuronCount && |nodes| == i
      invariant forall k :: 0 <= k < i ==>
                  nodes[k] == Point(Coordinate(draws[3 * k]), Coordinate(draws[3 * k + 1]), Coordinate(draws[3 * k + 2]))
    {
      nodes := nodes + [Point((draws[3 * i] - 0.5) * 20.0, (draws[3 * i + 1] - 0.5) * 20.0, (draws[3 * i + 2] - 0.5) * 20.0)];
      i := i + 1;
    }
  }

  /** Inside the cube [-10, 10) on every axis. */
  predicate InCube(p: Point)
  {
    -10.0 <= p.x < 10.0 && -10.0 <= p.y < 10.0 && -10.0 <= p.z < 10.0
  }

  function SquaredDistance(a: Point, b: Point): real
  {
    (a.x - b.x) * (a.x - b.x) + (a.y - b.y) * (a.y - b.y) + (a.z - b.z) * (a.z - b.z)
  }

  /** Closer than 6, stated on squared distances (the square root is monotone on non-negative reals). */
  predicate Close(a: Point, b: Point)
  {
    SquaredDistance(a, b) < LinkDistance * LinkDistance
  }

  /** A synapse between neurons i and j, by index. */
  datatype Link = Link(i: nat, j: nat)

  /** Lexicographic order on index pairs. */
  predicate Before(l: Link, m: Link)
  {
    l.i < m.i || (l.i == m.i && l.j < m.j)
  }

  predicate Sorted(links: seq<Link>)
  {
    forall a, b :: 0 <= a < b < |links| ==> Before(links[a], links[b])
  }

  /** Every link joins two neurons i < j, and a pair (i, j) among the first `bound` pairs is linked iff close. */
  predicate LinksUpTo(nodes: seq<Point>, links: seq<Link>, bound: Link)
  {
    && (forall l :: l in links ==> l.i < l.j < |nodes| && Before(l, bound))
    && (forall a, b :: 0 <= a < b < |nodes| && Before(Link(a, b), bound) ==> (Link(a, b) in links <==> Close(nodes[a], nodes[b])))
  }

  /** Distance is symmetric, so testing each pair once, as i < j, loses no link; and a neuron is at distance 0 from itself. */
  lemma DistanceSymmetric(a: Point, b: Point)
    ensures SquaredDistance(a, b) == SquaredDistance(b, a)
    ensures SquaredDistance(a, a) == 0.0
  {
  }

  /**
   * The link loop: for every i and every j > i, a link when the two neurons are close. Links
   * join i < j only (no self-links), come in strictly increasing lexicographic order (so no pair
   * twice), and exist exactly for the close pairs.
   */
  method BuildLinks(nodes: seq<Point>) returns (links: seq<Link>)
    ensures forall l :: l in links ==> l.i < l.j < |nodes|
    ensures forall a, b :: 0 <= a < b < |nodes| ==> (Link(a, b) in links <==> Close(nodes[a], nodes[b]))
    ensures Sorted(links)
  {
    links := [];
    var i := 0;
    while i < |nodes|
      invariant 0 <= i <= |nodes|
      invariant LinksUpTo(nodes, links, Link(i, 0))
      invariant Sorted(links)
    {
      links := LinkRow(nodes, links, i);
      i := i + 1;
    }
  }

  /** The inner loop for neuron i: appends, in order of j, a link to every close neuron j > i. */
  method LinkRow(nodes: seq<Point>, links0: seq<Link>, i: nat) returns (links: seq<Link>)
    requires i < |nodes|
    requires LinksUpTo(nodes, links0, Link(i, 0)) && Sorted(links0)
    ensures LinksUpTo(nodes, links, Link(i + 1, 0)) && Sorted(links)
  {
    links := links0;
    var j := i + 1;
    while j < |nodes|
      invariant i + 1 <= j <= |nodes|
      invariant LinksUpTo(nodes, links, Link(i, j))
      invariant Sorted(links)
    {
      if Close(nodes[i], nodes[j]) {
        links := links + [Link(i, j)];
      }
      j := j + 1;
    }
  }

  // ---------------------------------------------------------------- per-frame nodes

  /** The abstraction node's height and spin. */
  datatype Abstraction = Abstraction(y: real, spin: real)

  const AbstractionStart: Abstraction := Abstraction(-5.0, 0.0)

  /**
   * One frame of the abstraction node: it rises by 0.3 per second and wraps from above 10 to
   * -10, spinning; reversed, it sinks by 0.5 per second, wraps from below -10 to 10 and stops
   * spinning.
   */
  function AbstractionStep(a: Abstraction, reversed: bool, delta: real): (r: Abstraction)
    ensures -10.0 <= a.y <= 10.0 && delta >= 0.0 ==> -10.0 <= r.y <= 10.0
    ensures reversed ==> r.spin == 0.0
    ensures !reversed && delta >= 0.0 ==> r.y >= a.y || r.y == -10.0
    ensures reversed && delta >= 0.0 ==> r.y <= a.y || r.y == 10.0
  {
    if reversed then
      var y := a.y - delta * 0.5;
      Abstraction(if y < -10.0 then 10.0 else y, 0.0)
    else
      var y := a.y + delta * 0.3;
      Abstraction(if y > 10.0 then -10.0 else y, a.spin + delta * 0.2)
  }

  /** The node after a run of frames, each with its polarity and frame time. */
  function AbstractionAfter(a: Abstraction, frames: seq<(bool, real)>): Abstraction
    decreases |frames|
  {
    if frames == [] then a else AbstractionAfter(AbstractionStep(a, frames[0].0, frames[0].1), frames[1..])
  }

  /** From its start at -5, the node stays in [-10, 10] whatever the sequence of polarities. */
  lemma {:induction false} AbstractionStaysInBand(a: Abstraction, frames: seq<(bool, real)>)
    requires -10.0 <= a.y <= 10.0
    requires forall k :: 0 <= k < |frames| ==> frames[k].1 >= 0.0
    ensures -10.0 <= AbstractionAfter(a, frames).y <= 10.0
    decreases |frames|
  {
    if frames != [] {
      AbstractionStaysInBand(AbstractionStep(a, frames[0].0, frames[0].1), frames[1..]);
    }
  }

  /** The mutation node's rotation and scale. */
  datatype Mutation = Mutation(rotX: real, rotY: real, rotZ: real, scaleX: real, scaleY: real, scaleZ: real)

  const MutationStart: Mutation := Mutation(0.0, 0.0, 0.0, 1.0, 1.0, 1.0)

  /**
   * One frame of the mutation node: it tumbles and deforms by the given factors; reversed, it
   * freezes at rotation x = y = 0 and unit scale, its z rotation left where it was.
   */
  function MutationStep(m: Mutation, reversed: bool, delta: real, deform: real, deform2: real): (r: Mutation)
    ensures reversed ==> r == MutationStart.(rotZ := m.rotZ)
    ensures !reversed ==> r.scaleX == r.scaleZ == deform && r.scaleY == deform2
    ensures !reversed && delta >= 0.0 ==> r.rotX >= m.rotX && r.rotY >= m.rotY && r.rotZ >= m.rotZ
  {
    if reversed then m.(rotX := 0.0, rotY := 0.0, scaleX := 1.0, scaleY := 1.0, scaleZ := 1.0)
    else Mutation(m.rotX + delta * 1.5, m.rotY + delta * 0.7, m.rotZ + delta * 0.3, deform, deform2, deform)
  }

  /** Frozen stays frozen: a reversed frame after a reversed frame changes nothing. */
  lemma MutationFreezeIdempotent(m: Mutation, d1: real, d2: real, f1: real, f2: real, g1: real, g2: real)
    ensures var once := MutationStep(m, true, d1, f1, g1);
            MutationStep(once, true, d2, f2, g2) == once
  {
  }

  /** The two animated nodes as three.js objects whose fields each frame overwrites. */
  class Nodes {
    var abstractionY: real
    var abstractionSpin: real
    var rotX: real
    var rotY: real
    var rotZ: real
    var scaleX: real
    var scaleY: real
    var scaleZ: real

    function AbstractionState(): Abstraction
      reads this
    {
      Abstraction(abstractionY, abstractionSpin)
    }

    function MutationState(): Mutation
      reads this
    {
      Mutation(rotX, rotY, rotZ, scaleX, scaleY, scaleZ)
    }

    constructor ()
      ensures AbstractionState() == AbstractionStart && MutationState() == MutationStart
    {
      abstractionY, abstractionSpin := -5.0, 0.0;
      rotX, rotY, rotZ := 0.0, 0.0, 0.0;
      scaleX, scaleY, scaleZ := 1.0, 1.0, 1.0;
    }

    /** The frame callback's abstraction and mutation branches, with this frame's deformation factors. */
    method Frame(absReversed: bool, mutReversed: bool, delta: real, deform: real, deform2: real)
      modifies this
      ensures AbstractionState() == AbstractionStep(old(AbstractionState()), absReversed, delta)
      ensures MutationState() == MutationStep(old(MutationState()), mutReversed, delta, deform, deform2)
    {
      if absReversed {
        abstractionY := abstractionY - delta * 0.5;
        if abstractionY < -10.0 {
          abstractionY := 10.0;
        }
        abstractionSpin := 0.0;
      } else {
        abstractionY := abstractionY + delta * 0.3;
        if abstractionY > 10.0 {
          abstractionY := -10.0;
        }
        abstractionSpin := abstractionSpin + delta * 0.2;
      }
      if mutReversed {
        rotX, rotY := 0.0, 0.0;
        scaleX, scaleY, scaleZ := 1.0, 1.0, 1.0;
      } else {
        rotX := rotX + delta * 1.5;
        rotY := rotY + delta * 0.7;
        rotZ := rotZ + delta * 0.3;
        scaleX, scaleY, scaleZ := deform, deform2, deform;
      }
    }
  }
}
