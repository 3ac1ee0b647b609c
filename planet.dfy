/**
 * The planet scene (src/scenes/Planet.jsx): the seeded generator behind the earth texture, the
 * continent wrap-copy rule, the factor triggers and their labels, the rotation target, the
 * building eras, and the per-frame growth of the building scales.
 */
module Planet {
  import opened Common
  import opened Store
  import opened Factors
  import opened App

  // ---------------------------------------------------------------- seeded generator

  const Modulus: int := 0x1_0000_0000
  const Multiplier: int := 1664525
  const Increment: int := 1013904223
  const InitialSeed: int := 12345
  /** 2^53: below it every integer is a JavaScript number exactly. */
  const SafeLimit: int := 0x20_0000_0000_0000

  /** The generator's update; the seed stays a 32-bit unsigned value. */
  function NextSeed(seed: int): (r: int)
    requires 0 <= seed < Modulus
    ensures 0 <= r < Modulus
    ensures (r - seed * Multiplier - Increment) % Modulus == 0
  {
    (seed * Multiplier + Increment) % Modulus
  }

  /**
   * Every intermediate of the update is a non-negative integer below 2^53, so the page's
   * floating-point arithmetic computes it exactly and its `%` agrees with the one above.
   */
  lemma UpdateIsExact(seed: int)
    requires 0 <= seed < Modulus
    ensures 0 <= seed * Multiplier < SafeLimit
    ensures 0 <= seed * Multiplier + Increment < SafeLimit
  {
    assert seed * Multiplier <= (Modulus - 1) * Multiplier;
  }

  /** The value handed out for a seed: the seed scaled into [0, 1). */
  function Unit(seed: int): (u: real)
    requires 0 <= seed < Modulus
    ensures 0.0 <= u < 1.0
  {
    seed as real / Modulus as real
  }

  /** The texture's `random` closure and the seed it updates. */
  class Generator {
    var seed: int

    constructor ()
      ensures seed == InitialSeed
    {
      seed := InitialSeed;
    }

    method Random() returns (u: real)
      requires 0 <= seed < Modulus
      modifies this
      ensures seed == NextSeed(old(seed))
      ensures u == Unit(seed)
    {
      seed := (seed * Multiplier + Increment) % Modulus;
      u := seed as real / Modulus as real;
    }
  }

  // ---------------------------------------------------------------- continents

  const TextureWidth: real := 1024.0
  const TextureHeight: real := 512.0

  /** The latitude bands in which a blob may be a desert. */
  predicate InDesertBand(y: real)
  {
    (100.0 < y < 220.0) || (290.0 < y < 410.0)
  }

  /** The extra centres at which a blob crossing the texture's left or right edge is drawn again. */
  function WrapCopies(x: real, radius: real): (cs: seq<real>)
    ensures x + TextureWidth in cs <==> x - radius < 0.0
    ensures x - TextureWidth in cs <==> x + radius > TextureWidth
    ensures forall c :: c in cs ==> c == x + TextureWidth || c == x - TextureWidth
  {
    (if x - radius < 0.0 then [x + TextureWidth] else []) + (if x + radius > TextureWidth then [x - TextureWidth] else [])
  }

  /** A blob on the texture is narrower than half of it, so it crosses at most one edge. */
  lemma AtMostOneCopy(x: real, radius: real)
    requires 0.0 <= x < TextureWidth && 20.0 <= radius < 80.0
    ensures |WrapCopies(x, radius)| <= 1
  {
  }

  /** A blob of green or desert: its centre, radius, kind and wrap copies. */
  datatype Blob = Blob(x: real, y: real, radius: real, desert: bool, copies: seq<real>)

  predicate WellPlaced(b: Blob)
  {
    && 0.0 <= b.x < TextureWidth && 0.0 <= b.y < TextureHeight
    && 20.0 <= b.radius < 80.0
    && (b.desert ==> InDesertBand(b.y))
    && b.copies == WrapCopies(b.x, b.radius)
    && |b.copies| <= 1
  }

  /**
   * The continent loop: 400 blobs, each from three draws (x, y, radius) and, only inside the
   * desert bands, a fourth draw deciding whether it is a desert (above 0.3).
   */
  method DrawContinents(g: Generator) returns (blobs: seq<Blob>)
    requires 0 <= g.seed < Modulus
    modifies g
    ensures 0 <= g.seed < Modulus
    ensures |blobs| == 400
    ensures forall b :: b in blobs ==> WellPlaced(b)
  {
    blobs := [];
    var i := 0;
    while i < 400
      invariant 0 <= i <= 400 && |blobs| == i
      invariant 0 <= g.seed < Modulus
      invariant forall b :: b in blobs ==> WellPlaced(b)
    {
      var u := g.Random();
      var x := u * TextureWidth;
      u := g.Random();
      var y := u * TextureHeight;
      u := g.Random();
      var radius := u * 60.0 + 20.0;
      var desert := false;
      if InDesertBand(y) {
        u := g.Random();
        desert := u > 0.3;
      }
      AtMostOneCopy(x, radius);
      blobs := blobs + [Blob(x, y, radius, desert, WrapCopies(x, radius))];
      i := i + 1;
    }
  }

  // ---------------------------------------------------------------- trigger labels

  const Separator: string := " / "

  predicate OccursAt(s: string, sep: string, i: nat)
  {
    i + |sep| <= |s| && s[i..i + |sep|] == sep
  }

  /** The first occurrence of `sep` in `s` at or after `from`. */
  function Find(s: string, sep: string, from: nat): (r: Option<nat>)
    requires from <= |s|
    ensures r.Some? ==> from <= r.value && OccursAt(s, sep, r.value)
    ensures r.Some? ==> forall j :: from <= j < r.value ==> !OccursAt(s, sep, j)
    ensures r.None? ==> forall j :: from <= j <= |s| ==> !OccursAt(s, sep, j)
    decreases |s| - from
  {
    if OccursAt(s, sep, from) then Some(from)
    else if from == |s| then None
    else Find(s, sep, from + 1)
  }

  /** `String.prototype.split` with a non-empty separator: the pieces between occurrences, left to right. */
  function Split(s: string, sep: string): (parts: seq<string>)
    requires |sep| > 0
    ensures |parts| >= 1
    decreases |s|
  {
    match Find(s, sep, 0)
    case None => [s]
    case Some(i) => [s[..i]] + Split(s[i + |sep|..], sep)
  }

  function Join(parts: seq<string>, sep: string): string
  {
    if |parts| == 0 then "" else if |parts| == 1 then parts[0] else parts[0] + sep + Join(parts[1..], sep)
  }

  /** `Find` returns the first occurrence at or after `from`. */
  lemma {:induction false} FindFirst(s: string, sep: string, from: nat, k: nat)
    requires from <= k <= |s| && OccursAt(s, sep, k)
    requires forall j :: from <= j < k ==> !OccursAt(s, sep, j)
    ensures Find(s, sep, from) == Some(k)
    decreases k - from
  {
    if from < k {
      FindFirst(s, sep, from + 1, k);
    }
  }

  /** Splitting and joining again gives back the label. */
  lemma {:induction false} JoinSplit(s: string, sep: string)
    requires |sep| > 0
    ensures Join(Split(s, sep), sep) == s
    decreases |s|
  {
    var f := Find(s, sep, 0);
    if f.Some? {
      var i := f.value;
      var rest := s[i + |sep|..];
      assert Split(s, sep) == [s[..i]] + Split(rest, sep);
      JoinSplit(rest, sep);
      JoinCons(s[..i], Split(rest, sep), sep);
      Reassemble(s, i, sep);
    }
  }

  lemma Reassemble(s: string, i: nat, sep: string)
    requires OccursAt(s, sep, i)
    ensures s[..i] + sep + s[i + |sep|..] == s
  {
    assert s == s[..i] + s[i..i + |sep|] + s[i + |sep|..];
  }

  lemma JoinCons(x: string, rest: seq<string>, sep: string)
    requires |rest| >= 1
    ensures Join([x] + rest, sep) == x + sep + Join(rest, sep)
  {
    assert ([x] + rest)[1..] == rest;
  }

  /** No piece contains the separator. */
  lemma {:induction false} PiecesHaveNoSeparator(s: string, sep: string)
    requires |sep| > 0
    ensures forall p, j :: p in Split(s, sep) && 0 <= j <= |p| ==> !OccursAt(p, sep, j)
    decreases |s|
  {
    var f := Find(s, sep, 0);
    if f.Some? {
      var i := f.value;
      var rest := s[i + |sep|..];
      PiecesHaveNoSeparator(rest, sep);
      forall j | 0 <= j <= |s[..i]|
        ensures !OccursAt(s[..i], sep, j)
      {
        if OccursAt(s[..i], sep, j) {
          assert s[j..j + |sep|] == s[..i][j..j + |sep|];
          assert OccursAt(s, sep, j);
        }
      }
      assert Split(s, sep) == [s[..i]] + Split(rest, sep);
    }
  }

  /**
   * The text a trigger shows: the part after " / " when its factor is reversed, the part before
   * it otherwise, and the whole label when that part is missing or empty.
   */
  function LabelFor(text: string, reversed: bool): (r: string)
    ensures r == text || r in Split(text, Separator)
    ensures text != "" ==> r != ""
    ensures Split(text, Separator) == [text] ==> r == text
  {
    var parts := Split(text, Separator);
    var k := if reversed then 1 else 0;
    if k < |parts| && parts[k] != "" then parts[k] else text
  }

  /** A string without a slash contains no separator. */
  lemma NoSeparatorWithoutSlash(t: string)
    requires '/' !in t
    ensures Find(t, Separator, 0).None?
  {
    forall j | 0 <= j <= |t|
      ensures !OccursAt(t, Separator, j)
    {
      if j + 3 <= |t| {
        assert t[j..j + 3][1] == t[j + 1];
      }
    }
  }

  /** For a label "A / B" with no other slash, the trigger shows A, and B when reversed. */
  lemma LabelHalves(a: string, b: string)
    requires '/' !in a && '/' !in b && a != "" && b != ""
    ensures Split(a + Separator + b, Separator) == [a, b]
    ensures LabelFor(a + Separator + b, false) == a
    ensures LabelFor(a + Separator + b, true) == b
  {
    var s := a + Separator + b;
    assert OccursAt(s, Separator, |a|) by {
      assert s[|a|..|a| + 3] == Separator;
    }
    forall j | 0 <= j < |a|
      ensures !OccursAt(s, Separator, j)
    {
      assert s[j..j + 3][1] == s[j + 1];
      if j + 1 < |a| {
        assert s[j + 1] == a[j + 1];
      } else {
        assert s[j + 1] == ' ';
      }
    }
    FindFirst(s, Separator, 0, |a|);
    assert s[..|a|] == a;
    assert s[|a| + 3..] == b;
    NoSeparatorWithoutSlash(b);
    assert Split(b, Separator) == [b];
  }

  // ---------------------------------------------------------------- triggers

  /** A factor trigger on the planet: its factor and the two halves of its "A / B" label. */
  datatype Trigger = Trigger(factorId: string, front: string, back: string)
  {
    function Label(): string
    {
      front + Separator + back
    }
  }

  const NatureTriggers: seq<Trigger> := [
    Trigger("ocean", "ОКЕАН", "ЗАСУХА"),
    Trigger("tectonics", "ТЕКТОНИКА", "ЗЕМЛЕТРЯСЕНИЯ"),
    Trigger("photosynthesis", "ФОТОСИНТЕЗ", "УВЯДАНИЕ"),
    Trigger("wildlife", "БИОСФЕРА", "ВЫМИРАНИЕ"),
    Trigger("migration", "МИГРАЦИЯ", "РАССЕИВАНИЕ"),
    Trigger("atmosphere", "АТМОСФЕРА", "ОПУСТЫНИВАНИЕ"),
    Trigger("aurora", "ПОЛЯРНОЕ СИЯНИЕ", "ЗАТУХАНИЕ"),
    Trigger("dayNight", "ДЕНЬ", "НОЧЬ"),
    Trigger("sunEnergy", "СОЛНЦЕ", "УГАСАНИЕ"),
    Trigger("moonPhase", "ЛУНА", "ТЬМА"),
    Trigger("starField", "ЗВЁЗДНОЕ НЕБО", "ТУМАН"),
    Trigger("interference", "ИНТЕРФЕРЕНЦИЯ", "ИЗОЛЯЦИЯ")
  ]

  const CivilisationTriggers: seq<Trigger> := [
    Trigger("war", "ВОЙНА", "МИР"),
    Trigger("progress", "ПРОГРЕСС", "СТАГНАЦИЯ"),
    Trigger("ecology", "ЭКОЛОГИЯ", "СМОГ"),
    Trigger("urbanization", "УРБАНИЗАЦИЯ", "УПАДОК"),
    Trigger("trade", "ТОРГОВЛЯ", "ИЗОЛЯЦИЯ"),
    Trigger("culture", "КУЛЬТУРА", "ВАРВАРСТВО"),
    Trigger("energy", "ЭНЕРГИЯ", "ИСТОЩЕНИЕ")
  ]

  /** The triggers rendered at a stage: the nature side only at stage 2, civilisation only at stage 3. */
  function TriggersAt(stage: int): (r: seq<Trigger>)
    ensures stage == 2 ==> |r| == 12
    ensures stage == 3 ==> |r| == 7
    ensures stage != 2 && stage != 3 ==> r == []
    ensures forall t :: t in r ==> t.factorId in Registry
  {
    if stage == 2 then NatureTriggers else if stage == 3 then CivilisationTriggers else []
  }

  /** A label whose halves are non-empty and carry no slash of their own. */
  predicate WellFormedLabel(t: Trigger)
  {
    t.front != "" && t.back != "" && '/' !in t.front && '/' !in t.back
  }

  lemma NatureLabelsWellFormed()
    ensures forall i :: 0 <= i < |NatureTriggers| ==> WellFormedLabel(NatureTriggers[i])
  {
    FirstNatureLabelsWellFormed();
    LastNatureLabelsWellFormed();
  }

  lemma FirstNatureLabelsWellFormed()
    ensures forall i :: 0 <= i < 6 ==> WellFormedLabel(NatureTriggers[i])
  {
  }

  lemma LastNatureLabelsWellFormed()
    ensures forall i :: 6 <= i < 12 ==> WellFormedLabel(NatureTriggers[i])
  {
  }

  lemma CivilisationLabelsWellFormed()
    ensures forall i :: 0 <= i < |CivilisationTriggers| ==> WellFormedLabel(CivilisationTriggers[i])
  {
  }

  /** Every rendered trigger shows the half of its label that matches its polarity. */
  lemma TriggerLabelsSplit(stage: int, t: Trigger)
    requires t in TriggersAt(stage)
    ensures LabelFor(t.Label(), false) == t.front
    ensures LabelFor(t.Label(), true) == t.back
  {
    NatureLabelsWellFormed();
    CivilisationLabelsWellFormed();
    assert WellFormedLabel(t);
    LabelHalves(t.front, t.back);
  }

  /**
   * Clicking a rendered trigger opens the detail panel on its factor, and the panel shows the
   * reverse side exactly when the trigger shows its reverse half.
   */
  lemma TriggerOpensPanel(s: State, t: Trigger)
    requires t in TriggersAt(s.stage)
    ensures DetailPanel(s.SetActiveFactor(t.factorId)).Some?
    ensures IsReversed(s.SetActiveFactor(t.factorId)) == Flag(s.reversedFactors, t.factorId)
  {
    var s' := s.SetActiveFactor(t.factorId);
    assert t.factorId in Registry;
    EmptyIdUnregistered();
    assert s'.activeFactorId == Some(t.factorId);
    assert PropertyKey(s'.activeFactorId) == t.factorId;
  }

  // ---------------------------------------------------------------- rotation and buildings

  /** The planet's rotation target in half turns: 0 (the nature side) at stage 2, a half turn otherwise. */
  function RotationHalfTurns(stage: int): (r: int)
    ensures r == 0 <==> stage == 2
    ensures r == 0 || r == 1
  {
    if stage == 2 then 0 else 1
  }

  /** A building's era from a draw in [0, 1): 0 stone, 1 medieval, 2 industrial, 3 future. */
  function EraOf(u: real): (era: int)
    requires 0.0 <= u < 1.0
    ensures 0 <= era < 4
    ensures era as real <= 4.0 * u < era as real + 1.0
  {
    (4.0 * u).Floor
  }

  /** An era's colour; any value other than 0, 1 and 2 gets the future colour. */
  function EraColor(era: int): (c: string)
    ensures c in {"#6b5a3a", "#7a6a5a", "#444455", "#88aacc"}
    ensures era != 0 && era != 1 && era != 2 ==> c == "#88aacc"
  {
    if era == 0 then "#6b5a3a" else if era == 1 then "#7a6a5a" else if era == 2 then "#444455" else "#88aacc"
  }

  /** Each era has its own colour. */
  lemma EraColorsDistinct(e1: int, e2: int)
    requires 0 <= e1 < 4 && 0 <= e2 < 4 && e1 != e2
    ensures EraColor(e1) != EraColor(e2)
  {
  }

  const InitialScale: real := 0.01
  /** The fraction of a building's height its ruins tend to, as authored (times the height). */
  const RuinFactor: real := 0.3

  /** The unreversed step: grow by 0.3 per second, capped at full height. */
  function GrowStep(cur: real, delta: real): (r: real)
    ensures r <= 1.0
    ensures r <= cur + delta * 0.3
    ensures r == 1.0 || r == cur + delta * 0.3
  {
    Min2(1.0, cur + delta * 0.3)
  }

  function Min2(a: real, b: real): real
  {
    if a <= b then a else b
  }

  /** The reversed step: move half of the way per second towards `0.3 * height`. */
  function RuinStep(cur: real, height: real, delta: real): real
  {
    cur + (height * RuinFactor - cur) * delta * 0.5
  }

  /** One frame of a building's scale: growth while the factor is on, decay towards ruin while reversed. */
  function ScaleStep(cur: real, height: real, reversed: bool, delta: real): (r: real)
    ensures !reversed && cur <= 1.0 && delta >= 0.0 ==> cur <= r <= 1.0
    ensures reversed && 0.0 <= delta <= 2.0 && cur <= height * RuinFactor ==> cur <= r <= height * RuinFactor
    ensures reversed && 0.0 <= delta <= 2.0 && height * RuinFactor <= cur ==> height * RuinFactor <= r <= cur
  {
    if !reversed then
      GrowStep(cur, delta)
    else if 0.0 <= delta <= 2.0 then
      RuinApproaches(cur, height, delta);
      RuinStep(cur, height, delta)
    else
      RuinStep(cur, height, delta)
  }

  /** Growing never shrinks a building below 1 and never passes full height. */
  lemma GrowthCapped(cur: real, delta: real)
    requires cur <= 1.0 && delta >= 0.0
    ensures cur <= GrowStep(cur, delta) <= 1.0
  {
  }

  /** For frames shorter than two seconds the ruins move towards their target without overshooting it. */
  lemma RuinApproaches(cur: real, height: real, delta: real)
    requires 0.0 <= delta <= 2.0
    ensures var t := height * RuinFactor;
            var r := RuinStep(cur, height, delta);
            (cur <= t ==> cur <= r <= t) && (t <= cur ==> t <= r <= cur)
  {
    var t := height * RuinFactor;
    var f := delta * 0.5;
    assert RuinStep(cur, height, delta) == cur + (t - cur) * f;
    assert 0.0 <= f <= 1.0;
    assert (t - cur) * f + (t - cur) * (1.0 - f) == t - cur;
    if cur <= t {
      MulNonneg(t - cur, f);
      MulNonneg(t - cur, 1.0 - f);
    } else {
      MulNonneg(cur - t, f);
      MulNonneg(cur - t, 1.0 - f);
    }
  }

  lemma MulNonneg(x: real, y: real)
    requires x >= 0.0 && y >= 0.0
    ensures x * y >= 0.0
  {
  }

  /** The scale after a run of unreversed frames. */
  function Grown(cur: real, deltas: seq<real>): real
    decreases |deltas|
  {
    if deltas == [] then cur else Grown(GrowStep(cur, deltas[0]), deltas[1..])
  }

  /** From the initial 0.01, unreversed frames never take a building past full height nor shrink it. */
  lemma {:induction false} GrownStaysBelowOne(cur: real, deltas: seq<real>)
    requires cur <= 1.0
    requires forall i :: 0 <= i < |deltas| ==> deltas[i] >= 0.0
    ensures cur <= Grown(cur, deltas) <= 1.0
    decreases |deltas|
  {
    if deltas != [] {
      GrowthCapped(cur, deltas[0]);
      GrownStaysBelowOne(GrowStep(cur, deltas[0]), deltas[1..]);
    }
  }

  /** One frame of the buildings: every scale takes its step, in place. */
  method UpdateScales(scales: array<real>, heights: seq<real>, reversed: bool, delta: real)
    requires scales.Length == |heights|
    modifies scales
    ensures forall i :: 0 <= i < scales.Length ==> scales[i] == ScaleStep(old(scales[i]), heights[i], reversed, delta)
  {
    var i := 0;
    while i < scales.Length
      invariant 0 <= i <= scales.Length
      invariant forall k :: 0 <= k < i ==> scales[k] == ScaleStep(old(scales[k]), heights[k], reversed, delta)
      invariant forall k :: i <= k < scales.Length ==> scales[k] == old(scales[k])
    {
      var cur := scales[i];
      var next := cur;
      if reversed {
        next := cur + (heights[i] * RuinFactor - cur) * delta * 0.5;
      } else {
        next := Min2(1.0, cur + delta * 0.3);
      }
      scales[i] := next;
      i := i + 1;
    }
  }

  /** The buffer as allocated: one scale of 0.01 per building. */
  method InitialScales(n: nat) returns (scales: array<real>)
    ensures fresh(scales) && scales.Length == n
    ensures forall i :: 0 <= i < n ==> scales[i] == InitialScale
  {
    scales := new real[n](_ => InitialScale);
  }
}
