/**
 * The scroll-through layers page (src/components/SceneLayers.jsx): five layers of five concept
 * nodes, a single active node, and per-layer click counts whose third click reports the layer's
 * colour and message to the page.
 */
module SceneLayers {
  import opened Common

  datatype ConceptNode = ConceptNode(id: string, title: string)

  datatype Layer = Layer(id: int, title: string, colorHex: string, ambientMsg: string, nodes: seq<ConceptNode>)

  const Layers: seq<Layer> := [
    Layer(1, "Физические силы", "#1a1aff", "Ты ищешь первопричины.", [
      ConceptNode("1-1", "Сингулярность"), ConceptNode("1-2", "Инерция"), ConceptNode("1-3", "Турбулентность"),
      ConceptNode("1-4", "Дифракция"), ConceptNode("1-5", "Сжатие")]),
    Layer(2, "Термодинамика", "#ff6600", "Ты чувствуешь грань между хаосом и порядком.", [
      ConceptNode("2-1", "Градиент"), ConceptNode("2-2", "Флуктуация"), ConceptNode("2-3", "Гомеостаз"),
      ConceptNode("2-4", "Критичность"), ConceptNode("2-5", "Сопротивление")]),
    Layer(3, "Биологическая логика", "#00ff88", "Ты чувствуешь жизнь.", [
      ConceptNode("3-1", "Симбиоз"), ConceptNode("3-2", "Мимикрия"), ConceptNode("3-3", "Адаптация"),
      ConceptNode("3-4", "Регенерация"), ConceptNode("3-5", "Паразитизм")]),
    Layer(4, "Сознание", "#9933ff", "Ты ищешь источник внутри.", [
      ConceptNode("4-1", "Абстракция"), ConceptNode("4-2", "Доминанта"), ConceptNode("4-3", "Интроекция"),
      ConceptNode("4-4", "Эмерджентность"), ConceptNode("4-5", "Проекция")]),
    Layer(5, "Метафизика", "#ffffff", "Ты стремишься к единству.", [
      ConceptNode("5-1", "Причинность"), ConceptNode("5-2", "Синхронистичность"), ConceptNode("5-3", "Дуализм"),
      ConceptNode("5-4", "Монизм"), ConceptNode("5-5", "Единство")])
  ]

  /** The id "<layer>-<k>" of the k-th node of a layer, for single-digit layer and k. */
  function NodeId(layerId: int, k: int): string
    requires 0 <= layerId <= 9 && 0 <= k <= 9
  {
    [('0' as int + layerId) as char, '-', ('0' as int + k) as char]
  }

  /** Five layers with ids 1..5 in order, each with five nodes "<layer>-1" .. "<layer>-5". */
  lemma LayersShape()
    ensures |Layers| == 5
    ensures forall k :: 0 <= k < 5 ==> Layers[k].id == k + 1 && |Layers[k].nodes| == 5
    ensures forall k, m :: 0 <= k < 5 && 0 <= m < 5 ==> Layers[k].nodes[m].id == NodeId(k + 1, m + 1)
  {
  }

  /** The layer ids are 1..5, in order. */
  lemma LayerIds()
    ensures |Layers| == 5 && forall k :: 0 <= k < 5 ==> Layers[k].id == k + 1
  {
  }

  /** `LAYERS_DATA.find`: the layer with the given id, if any. */
  function FindLayer(layerId: int): (r: Option<Layer>)
    ensures r.Some? <==> 1 <= layerId <= 5
    ensures r.Some? ==> r.value == Layers[layerId - 1] && r.value.id == layerId
  {
    LayerIds();
    FirstFrom(Layers, 0, layerId)
  }

  /** The first layer at or after index `from` whose id is `layerId`. */
  function FirstFrom(ls: seq<Layer>, from: nat, layerId: int): (r: Option<Layer>)
    requires from <= |ls|
    ensures r.Some? ==> exists i :: from <= i < |ls| && ls[i] == r.value && r.value.id == layerId
    ensures r.None? <==> forall i :: from <= i < |ls| ==> ls[i].id != layerId
    ensures forall i :: from <= i < |ls| && ls[i].id == layerId && (forall h :: from <= h < i ==> ls[h].id != layerId) ==> r == Some(ls[i])
    decreases |ls| - from
  {
    if from == |ls| then None else if ls[from].id == layerId then Some(ls[from]) else FirstFrom(ls, from + 1, layerId)
  }

  /** A click count: a number, or NaN once `undefined + 1` has been stored for a layer id not in the map. */
  datatype Count = Num(n: int) | NaN
  {
    function Succ(): (r: Count)
      ensures Num? <==> r.Num?
      ensures Num? ==> r.n == n + 1
    {
      match this
      case Num(k) => Num(k + 1)
      case NaN => NaN
    }
  }

  /** What `onLayerInteract` receives. */
  datatype Message = Message(colorHex: string, ambientMsg: string)

  datatype Page = Page(activeNodeId: Option<string>, clickCounts: map<int, Count>)

  const Initial: Page := Page(None, map[1 := Num(0), 2 := Num(0), 3 := Num(0), 4 := Num(0), 5 := Num(0)])

  /** Only the five layers' ids hold numbers; every other key, if any, holds NaN. */
  predicate Inv(p: Page)
  {
    forall k :: k in p.clickCounts && p.clickCounts[k].Num? ==> 1 <= k <= 5
  }

  /** The count a missing key reads as, plus one: `undefined + 1` is NaN. */
  function Bumped(counts: map<int, Count>, layerId: int): (r: Count)
    ensures r.Num? <==> layerId in counts && counts[layerId].Num?
    ensures r.Num? ==> r.n == counts[layerId].n + 1
  {
    if layerId in counts then counts[layerId].Succ() else NaN
  }

  /**
   * `handleNodeClick`: the clicked node becomes active unless it already was, in which case
   * no node is; the clicked layer's count goes up by one whatever the node did; and the layer's
   * colour and message are reported exactly when its count becomes 3.
   */
  function Click(p: Page, layerId: int, nodeId: string): (r: (Page, Option<Message>))
    requires Inv(p)
    ensures Inv(r.0)
    ensures r.0.activeNodeId == (if p.activeNodeId == Some(nodeId) then None else Some(nodeId))
    ensures r.0.clickCounts.Keys == p.clickCounts.Keys + {layerId}
    ensures forall k :: k in p.clickCounts && k != layerId ==> r.0.clickCounts[k] == p.clickCounts[k]
    ensures layerId in p.clickCounts && p.clickCounts[layerId].Num? ==>
              r.0.clickCounts[layerId] == Num(p.clickCounts[layerId].n + 1)
    ensures r.1.Some? <==> r.0.clickCounts[layerId] == Num(3)
    ensures r.1.Some? ==>
              (1 <= layerId <= 5 && r.1.value == Message(Layers[layerId - 1].colorHex, Layers[layerId - 1].ambientMsg))
  {
    var active := if p.activeNodeId == Some(nodeId) then None else Some(nodeId);
    var count := Bumped(p.clickCounts, layerId);
    var page := Page(active, p.clickCounts[layerId := count]);
    if count == Num(3) then
      match FindLayer(layerId)
      case Some(layer) => (page, Some(Message(layer.colorHex, layer.ambientMsg)))
    else
      (page, None)
  }

  /** Clicking the active node twice in a row activates it again, and counts both clicks. */
  lemma ClickTogglesActive(p: Page, layerId: int, nodeId: string)
    requires Inv(p) && p.activeNodeId == Some(nodeId)
    ensures Click(p, layerId, nodeId).0.activeNodeId == None
    ensures Click(Click(p, layerId, nodeId).0, layerId, nodeId).0.activeNodeId == Some(nodeId)
  {
  }

  /** The layers that report over a run of clicks, in order. */
  function Reports(p: Page, clicks: seq<(int, string)>): seq<int>
    requires Inv(p)
    decreases |clicks|
  {
    if clicks == [] then []
    else
      var r := Click(p, clicks[0].0, clicks[0].1);
      (if r.1.Some? then [clicks[0].0] else []) + Reports(r.0, clicks[1..])
  }

  /** A layer that can still report: its count is a number below 3. */
  predicate Pending(p: Page, layerId: int)
  {
    layerId in p.clickCounts && p.clickCounts[layerId].Num? && p.clickCounts[layerId].n < 3
  }

  function Occurrences(s: seq<int>, x: int): nat
  {
    if s == [] then 0 else (if s[0] == x then 1 else 0) + Occurrences(s[1..], x)
  }

  lemma OccurrencesAppend(a: seq<int>, b: seq<int>, x: int)
    ensures Occurrences(a + b, x) == Occurrences(a, x) + Occurrences(b, x)
  {
    if a != [] {
      assert (a + b)[1..] == a[1..] + b;
      OccurrencesAppend(a[1..], b, x);
    } else {
      assert a + b == b;
    }
  }

  /** Counts only grow, so a layer reports at most once, and never once its count has passed 3. */
  lemma {:induction false} ReportsAtMostOnce(p: Page, clicks: seq<(int, string)>, layerId: int)
    requires Inv(p)
    requires layerId in p.clickCounts ==> p.clickCounts[layerId].Num? && p.clickCounts[layerId].n >= 0
    ensures Occurrences(Reports(p, clicks), layerId) <= (if Pending(p, layerId) then 1 else 0)
    decreases |clicks|
  {
    if clicks != [] {
      var r := Click(p, clicks[0].0, clicks[0].1);
      var head := if r.1.Some? then [clicks[0].0] else [];
      OccurrencesAppend(head, Reports(r.0, clicks[1..]), layerId);
      if layerId in r.0.clickCounts && r.0.clickCounts[layerId].NaN? {
        NaNNeverReports(r.0, clicks[1..], layerId);
      } else {
        ReportsAtMostOnce(r.0, clicks[1..], layerId);
      }
    }
  }

  /** A layer whose count is NaN never reports again. */
  lemma {:induction false} NaNNeverReports(p: Page, clicks: seq<(int, string)>, layerId: int)
    requires Inv(p) && layerId in p.clickCounts && p.clickCounts[layerId].NaN?
    ensures Occurrences(Reports(p, clicks), layerId) == 0
    decreases |clicks|
  {
    if clicks != [] {
      var r := Click(p, clicks[0].0, clicks[0].1);
      var head := if r.1.Some? then [clicks[0].0] else [];
      OccurrencesAppend(head, Reports(r.0, clicks[1..]), layerId);
      NaNNeverReports(r.0, clicks[1..], layerId);
    }
  }

  /** From the start, the third click on a layer reports it, whichever of its nodes are clicked. */
  lemma ThirdClickReports(a: string, b: string, c: string)
    ensures var p1 := Click(Initial, 2, a).0;
            var p2 := Click(p1, 2, b).0;
            Click(Initial, 2, a).1.None? && Click(p1, 2, b).1.None? &&
            Click(p2, 2, c).1 == Some(Message("#ff6600", "Ты чувствуешь грань между хаосом и порядком."))
  {
  }

  /** The component's state, as React holds it. */
  class LayersView {
    var activeNodeId: Option<string>
    var clickCounts: map<int, Count>

    function Snapshot(): Page
      reads this
    {
      Page(activeNodeId, clickCounts)
    }

    constructor ()
      ensures Snapshot() == Initial
    {
      activeNodeId := None;
      clickCounts := Initial.clickCounts;
    }

    /** Handles a click and returns what is passed to `onLayerInteract`, if it is called. */
    method HandleNodeClick(layerId: int, nodeId: string) returns (message: Option<Message>)
      requires Inv(Snapshot())
      modifies this
      ensures (Snapshot(), message) == Click(old(Snapshot()), layerId, nodeId)
    {
      activeNodeId := if activeNodeId == Some(nodeId) then None else Some(nodeId);
      var newCounts := clickCounts;
      var next := if layerId in newCounts then newCounts[layerId].Succ() else NaN;
      newCounts := newCounts[layerId := next];
      message := None;
      if next == Num(3) {
        var layer := FindLayer(layerId);
        message := Some(Message(layer.value.colorHex, layer.value.ambientMsg));
      }
      clickCounts := newCounts;
    }
  }
}
