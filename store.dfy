/**
 * The global zustand store of the journey (src/store.js): the current stage
 * (0 Singularity, 1 Cosmos, 2 Nature, 3 Civilisation, 4 Micro-consciousness),
 * the "Big Bang has happened" flag, the factor whose detail panel is open and
 * the per-factor "reversed" flags.
 *
 * Each action of the store is a member function of `State` (the new field
 * values as a function of the old ones); the class `GlobalStore` holds the
 * mutable fields and its methods are proved to perform exactly those updates.
 */
module Store {
  import opened Common

  /** The deepest stage. */
  const LastStage: int := 4

  /** JavaScript turns a property key into a string: `obj[null]` is `obj["null"]`. */
  function PropertyKey(id: Option<string>): string
  {
    match id
    case None => "null"
    case Some(s) => s
  }

  /** `!!m[key]`: a key that was never written reads as `undefined`, which is falsy. */
  function Flag(m: map<string, bool>, key: string): (r: bool)
    ensures key !in m ==> !r
    ensures key in m ==> (r <==> m[key])
  {
    key in m && m[key]
  }

  /** Stage within 0..4, as every transition except `setStage` keeps it. */
  predicate StageInRange(s: State)
  {
    0 <= s.stage <= LastStage
  }

  /** Past the Singularity the Big Bang has happened. */
  predicate Coherent(s: State)
  {
    s.stage > 0 ==> s.isExploded
  }

  /** A snapshot of the store's fields. */
  datatype State = State(
    stage: int,
    isExploded: bool,
    activeFactorId: Option<string>,
    reversedFactors: map<string, bool>)
  {
    /** `setActiveFactor(id)`: only the active factor changes. */
    function SetActiveFactor(id: string): (r: State)
      ensures r.activeFactorId == Some(id)
      ensures r.stage == stage && r.isExploded == isExploded && r.reversedFactors == reversedFactors
    {
      this.(activeFactorId := Some(id))
    }

    /**
     * `toggleReverse()`: flips the flag of the active factor (of the key "null" when
     * no factor is active) and leaves every other key and every other field alone.
     */
    function ToggleReverse(): (r: State)
      ensures PropertyKey(activeFactorId) in r.reversedFactors
      ensures Flag(r.reversedFactors, PropertyKey(activeFactorId)) != Flag(reversedFactors, PropertyKey(activeFactorId))
      ensures forall k :: k != PropertyKey(activeFactorId) ==>
                (k in r.reversedFactors <==> k in reversedFactors) &&
                (k in reversedFactors ==> r.reversedFactors[k] == reversedFactors[k])
      ensures r.reversedFactors.Keys == reversedFactors.Keys + {PropertyKey(activeFactorId)}
      ensures r.stage == stage && r.isExploded == isExploded && r.activeFactorId == activeFactorId
    {
      var key := PropertyKey(activeFactorId);
      this.(reversedFactors := reversedFactors[key := !Flag(reversedFactors, key)])
    }

    /** `clearFactor()`: closes the panel; the reversed flags persist. */
    function ClearFactor(): (r: State)
      ensures r.activeFactorId == None
      ensures r.stage == stage && r.isExploded == isExploded && r.reversedFactors == reversedFactors
    {
      this.(activeFactorId := None)
    }

    /** `setStage(n)`: writes `n` as it is, with no clamp and no change to `isExploded`. */
    function SetStage(n: int): (r: State)
      ensures r.stage == n
      ensures r.isExploded == isExploded && r.activeFactorId == activeFactorId && r.reversedFactors == reversedFactors
    {
      this.(stage := n)
    }

    /** `nextStage()`: one stage deeper (at most 4); the Big Bang is marked done; the panel closes. */
    function NextStage(): (r: State)
      ensures StageInRange(this) ==> StageInRange(r)
      ensures stage < LastStage ==> r.stage == stage + 1
      ensures stage >= LastStage ==> r.stage == LastStage
      ensures Coherent(r) && r.isExploded
      ensures r.activeFactorId == None && r.reversedFactors == reversedFactors
    {
      this.(stage := Min(stage + 1, LastStage), isExploded := true, activeFactorId := None)
    }

    /**
     * `prevStage()`: one stage back (at least 0); the panel closes; landing on stage 0
     * clears `isExploded` (also when already at 0), otherwise it is kept.
     */
    function PrevStage(): (r: State)
      ensures StageInRange(this) ==> StageInRange(r)
      ensures stage > 0 ==> r.stage == stage - 1
      ensures stage <= 0 ==> r.stage == 0
      ensures r.isExploded <==> (r.stage > 0 && isExploded)
      ensures Coherent(this) ==> Coherent(r)
      ensures r.activeFactorId == None && r.reversedFactors == reversedFactors
    {
      var next := Max(stage - 1, 0);
      this.(stage := next, isExploded := if next == 0 then false else isExploded, activeFactorId := None)
    }

    /** `triggerBang()`: only sets `isExploded`. */
    function TriggerBang(): (r: State)
      ensures r.isExploded
      ensures Coherent(this) ==> Coherent(r)
      ensures r.stage == stage && r.activeFactorId == activeFactorId && r.reversedFactors == reversedFactors
    {
      this.(isExploded := true)
    }
  }

  /** The store as created: stage 0, no explosion, no active factor, no reversed factor. */
  const Initial: State := State(0, false, None, map[])

  /** The state fields of `useStore`, updated in place by its actions. */
  class GlobalStore {
    var stage: int
    var isExploded: bool
    var activeFactorId: Option<string>
    var reversedFactors: map<string, bool>

    function Snapshot(): State
      reads this
    {
      State(stage, isExploded, activeFactorId, reversedFactors)
    }

    constructor ()
      ensures Snapshot() == Initial
      ensures StageInRange(Snapshot()) && Coherent(Snapshot())
    {
      stage := 0;
      isExploded := false;
      activeFactorId := None;
      reversedFactors := map[];
    }

    method SetActiveFactor(id: string)
      modifies this
      ensures Snapshot() == old(Snapshot()).SetActiveFactor(id)
    {
      activeFactorId := Some(id);
    }

    method ToggleReverse()
      modifies this
      ensures Snapshot() == old(Snapshot()).ToggleReverse()
    {
      var key := PropertyKey(activeFactorId);
      reversedFactors := reversedFactors[key := !Flag(reversedFactors, key)];
    }

    method ClearFactor()
      modifies this
      ensures Snapshot() == old(Snapshot()).ClearFactor()
    {
      activeFactorId := None;
    }

    method SetStage(n: int)
      modifies this
      ensures Snapshot() == old(Snapshot()).SetStage(n)
    {
      stage := n;
    }

    method NextStage()
      modifies this
      ensures Snapshot() == old(Snapshot()).NextStage()
    {
      stage := Min(stage + 1, LastStage);
      isExploded := true;
      activeFactorId := None;
    }

    method PrevStage()
      modifies this
      ensures Snapshot() == old(Snapshot()).PrevStage()
    {
      var next := Max(stage - 1, 0);
      stage := next;
      isExploded := if next == 0 then false else isExploded;
      activeFactorId := None;
    }

    method TriggerBang()
      modifies this
      ensures Snapshot() == old(Snapshot()).TriggerBang()
    {
      isExploded := true;
    }
  }

  /** Toggling twice gives every factor its original reading. */
  lemma ToggleTwiceRestores(s: State)
    ensures forall k :: Flag(s.ToggleReverse().ToggleReverse().reversedFactors, k) == Flag(s.reversedFactors, k)
    ensures s.ToggleReverse().ToggleReverse().activeFactorId == s.activeFactorId
  {
  }

  /** Closing the panel is idempotent. */
  lemma ClearFactorIdempotent(s: State)
    ensures s.ClearFactor().ClearFactor() == s.ClearFactor()
  {
  }

  /** Triggering the Big Bang is idempotent. */
  lemma TriggerBangIdempotent(s: State)
    ensures s.TriggerBang().TriggerBang() == s.TriggerBang()
  {
  }

  /**
   * Reversal persists across close and reopen: flip factor `id`, close the panel,
   * navigate any number of stages away and back, select `id` again, and it still reads
   * reversed exactly when it did not before.
   */
  lemma {:induction false} ReversalPersists(s: State, id: string, moves: seq<Move>)
    ensures var t := Moves(s.SetActiveFactor(id).ToggleReverse().ClearFactor(), moves).SetActiveFactor(id);
            Flag(t.reversedFactors, id) == !Flag(s.reversedFactors, id) && t.activeFactorId == Some(id)
  {
    var u := s.SetActiveFactor(id).ToggleReverse().ClearFactor();
    MovesKeepFlags(u, moves);
  }

  /** The navigation actions: none of them touches the reversed flags. */
  datatype Move = Next | Prev | Bang | Clear

  function Apply(s: State, m: Move): State
  {
    match m
    case Next => s.NextStage()
    case Prev => s.PrevStage()
    case Bang => s.TriggerBang()
    case Clear => s.ClearFactor()
  }

  /** The state after the moves, left to right. */
  function Moves(s: State, moves: seq<Move>): State
    decreases |moves|
  {
    if moves == [] then s else Moves(Apply(s, moves[0]), moves[1..])
  }

  /** Navigation keeps the reversed flags, and keeps the stage range and the coherence invariant. */
  lemma {:induction false} MovesKeepFlags(s: State, moves: seq<Move>)
    ensures Moves(s, moves).reversedFactors == s.reversedFactors
    ensures StageInRange(s) ==> StageInRange(Moves(s, moves))
    ensures Coherent(s) ==> Coherent(Moves(s, moves))
    decreases |moves|
  {
    if moves != [] {
      MovesKeepFlags(Apply(s, moves[0]), moves[1..]);
    }
  }

  /** Going one stage back undoes going one stage forward (short of the last stage). */
  lemma PrevUndoesNext(s: State)
    requires 0 <= s.stage < LastStage && Coherent(s)
    ensures s.NextStage().PrevStage().stage == s.stage
    ensures s.NextStage().PrevStage().isExploded <==> s.stage > 0
    ensures s.NextStage().PrevStage().reversedFactors == s.reversedFactors
  {
  }

  /** Going one stage forward undoes going one stage back, from an exploded stage past 0. */
  lemma NextUndoesPrev(s: State)
    requires 0 < s.stage <= LastStage && s.isExploded
    ensures s.PrevStage().NextStage() == s.(activeFactorId := None)
  {
  }

  /**
   * Ignite, advance, retreat, ignite: advance ignites at stage 0, a second advance
   * moves to stage 1, retreat returns to 0 and re-arms the trigger, and the next advance
   * ignites again instead of moving.
   */
  lemma IgniteRetreatScenario()
    ensures Initial.TriggerBang() == State(0, true, None, map[])
    ensures Initial.TriggerBang().NextStage() == State(1, true, None, map[])
    ensures Initial.TriggerBang().NextStage().PrevStage() == State(0, false, None, map[])
    ensures Initial.TriggerBang().NextStage().PrevStage().TriggerBang() == State(0, true, None, map[])
  {
  }
}
