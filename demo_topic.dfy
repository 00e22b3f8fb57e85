/** The TOPIC demo (components/demo/DemoTopic.tsx): a recorded run of the TOPIC algorithm is
    replayed frame by frame. A flat stepper index over `1 + 2·T` frames is decoded into a phase
    and an iteration, and the edge set of a frame is rebuilt by replaying each iteration's added
    and then pruned edges into a map keyed by `(from, to)`. */
module DemoTopic {
  import opened Wrappers
  import OrderedMap

  // ---------------------------------------------------------------- data

  /** An edge of the trace. `gain` and `diff` are the optional scores of the JSON payload. */
  datatype TopicEdge = TopicEdge(from: int, to: int, gain: Option<real>, diff: Option<real>)

  /** One TOPIC iteration. The source-selection matrices and the per-edge score lists are only
      read by the ranking panel and are not part of this model. */
  datatype TopicStep = TopicStep(
    iteration: int,
    source: int,
    topologicalOrder: seq<int>,
    remainingCandidates: seq<int>,
    addedEdges: seq<TopicEdge>,
    prunedEdges: seq<TopicEdge>)

  datatype TrueEdge = TrueEdge(from: int, to: int)

  datatype TopicData = TopicData(
    nodes: seq<int>,
    nodeNames: seq<string>,
    steps: seq<TopicStep>,
    trueEdges: Option<seq<TrueEdge>>)

  datatype Phase = Initial | Highlight | Edges

  datatype FlatState = FlatState(phase: Phase, iterationIndex: int, totalFlatSteps: int)

  /** The map key `${e.from}->${e.to}`; distinct integer pairs give distinct keys. */
  datatype EdgeKey = EdgeKey(from: int, to: int)

  type EdgeMap = seq<OrderedMap.Entry<EdgeKey, TopicEdge>>

  const LoadError: string := "Could not load TOPIC demo data."

  // ---------------------------------------------------------------- flat stepper

  function StepsCount(data: Option<TopicData>): nat {
    if data.None? then 0 else |data.value.steps|
  }

  /** `useFlatStepState`: decodes the flat stepper index. */
  function FlatStepState(data: Option<TopicData>, flatStepIndex: int): (r: FlatState)
    ensures r.totalFlatSteps == 1 + 2 * StepsCount(data)
    ensures r.phase == Initial <==> StepsCount(data) == 0 || flatStepIndex <= 0
    ensures r.phase == Initial ==> r.iterationIndex == 0
    ensures 0 <= r.iterationIndex && (StepsCount(data) > 0 ==> r.iterationIndex < StepsCount(data))
  {
    var stepsCount := StepsCount(data);
    if data.None? || stepsCount == 0 then FlatState(Initial, 0, 1)
    else
      var totalFlatSteps := 1 + stepsCount * 2;
      if flatStepIndex <= 0 then FlatState(Initial, 0, totalFlatSteps)
      else
        var s := flatStepIndex - 1;
        var iter := if s / 2 < stepsCount - 1 then s / 2 else stepsCount - 1;
        var sub := s % 2;
        FlatState(if sub == 0 then Highlight else Edges, iter, totalFlatSteps)
  }

  /** The layout the doc comment of `useFlatStepState` describes: frame 0 is the initial frame,
      iteration `i` highlights its source at `1 + 2i` and shows its edges at `2 + 2i`. */
  function FlatIndexOf(phase: Phase, iteration: int): int {
    match phase
    case Initial => 0
    case Highlight => 1 + 2 * iteration
    case Edges => 2 + 2 * iteration
  }

  /** Every frame of the stepper decodes to the phase and iteration that the layout puts there. */
  lemma FlatStepRoundTrip(data: Option<TopicData>, k: int)
    requires 0 <= k < 1 + 2 * StepsCount(data)
    ensures var r := FlatStepState(data, k); FlatIndexOf(r.phase, r.iterationIndex) == k
  {
  }

  /** Conversely, the frame of a (phase, iteration) pair decodes back to that pair. */
  lemma FlatIndexDecodes(data: Option<TopicData>, phase: Phase, i: int)
    requires phase != Initial && 0 <= i < StepsCount(data)
    ensures FlatStepState(data, FlatIndexOf(phase, i)) == FlatState(phase, i, 1 + 2 * StepsCount(data))
  {
  }

  /** An index past the last frame still shows the last iteration: the iteration is clamped. */
  lemma FlatIndexPastEnd(data: Option<TopicData>, k: int)
    requires StepsCount(data) > 0 && k >= 1 + 2 * StepsCount(data)
    ensures FlatStepState(data, k).iterationIndex == StepsCount(data) - 1
  {
  }

  /** Two iterations give five frames; frame 3 highlights the source of the second iteration
      (its edges come at frame 4). */
  lemma TwoIterationsFrameThree(data: TopicData)
    requires |data.steps| == 2
    ensures FlatStepState(Some(data), 3) == FlatState(Highlight, 1, 5)
    ensures FlatStepState(Some(data), 4) == FlatState(Edges, 1, 5)
  {
  }

  /** `handleNext`: `Math.min(prev + 1, maxFlatIndex)`. */
  function NextIndex(prev: int, totalFlatSteps: int): (r: int)
    ensures r <= totalFlatSteps - 1
    ensures prev < totalFlatSteps - 1 ==> r == prev + 1
    ensures prev >= totalFlatSteps - 1 ==> r == totalFlatSteps - 1
    ensures 0 <= prev < totalFlatSteps ==> 0 <= r < totalFlatSteps
  {
    if prev + 1 < totalFlatSteps - 1 then prev + 1 else totalFlatSteps - 1
  }

  /** `handlePrev`: `Math.max(prev - 1, 0)`. */
  function PrevIndex(prev: int): (r: int)
    ensures r >= 0
    ensures prev > 0 ==> r == prev - 1
    ensures prev <= 0 ==> r == 0
    ensures prev >= 0 ==> r <= prev
  {
    if prev - 1 > 0 then prev - 1 else 0
  }

  // ---------------------------------------------------------------- edge replay

  function KeyOf(e: TopicEdge): EdgeKey {
    EdgeKey(e.from, e.to)
  }

  /** What `edgeMap.set` stores for an added edge: `{ from, to, gain }`, without `diff`. */
  function Stored(e: TopicEdge): TopicEdge {
    TopicEdge(e.from, e.to, e.gain, None)
  }

  /** Some edge of `es` has key `k`. */
  predicate Names(es: seq<TopicEdge>, k: EdgeKey) {
    exists i :: 0 <= i < |es| && KeyOf(es[i]) == k
  }

  /** `added_edges.forEach(e => map.set(key(e), stored(e)))`, as a left fold: every added key is
      present afterwards, no key is lost, and no key comes from anywhere but `m` and `es`. */
  function AddAll(m: EdgeMap, es: seq<TopicEdge>): (r: EdgeMap)
    ensures forall i :: 0 <= i < |es| ==> KeyOf(es[i]) in OrderedMap.Keys(r)
    ensures forall k :: k in OrderedMap.Keys(m) ==> k in OrderedMap.Keys(r)
    ensures forall k :: k in OrderedMap.Keys(r) ==> k in OrderedMap.Keys(m) || Names(es, k)
  {
    if es == [] then m
    else
      var e := es[|es| - 1];
      var init := es[..|es| - 1];
      var p := AddAll(m, init);
      AddStep(m, p, es);
      OrderedMap.Set(p, KeyOf(e), Stored(e))
  }

  /** One `set` of the fold keeps the three facts `AddAll` promises. */
  lemma AddStep(m: EdgeMap, p: EdgeMap, es: seq<TopicEdge>)
    requires es != []
    requires forall i :: 0 <= i < |es| - 1 ==> KeyOf(es[i]) in OrderedMap.Keys(p)
    requires forall k :: k in OrderedMap.Keys(m) ==> k in OrderedMap.Keys(p)
    requires forall k :: k in OrderedMap.Keys(p) ==> k in OrderedMap.Keys(m) || Names(es[..|es| - 1], k)
    ensures var r := OrderedMap.Set(p, KeyOf(es[|es| - 1]), Stored(es[|es| - 1]));
      && (forall i :: 0 <= i < |es| ==> KeyOf(es[i]) in OrderedMap.Keys(r))
      && (forall k :: k in OrderedMap.Keys(m) ==> k in OrderedMap.Keys(r))
      && (forall k :: k in OrderedMap.Keys(r) ==> k in OrderedMap.Keys(m) || Names(es, k))
  {
    var e := es[|es| - 1];
    var init := es[..|es| - 1];
    var r := OrderedMap.Set(p, KeyOf(e), Stored(e));
    assert forall k :: k in OrderedMap.Keys(p) ==> k in OrderedMap.Keys(r);
    assert KeyOf(e) in OrderedMap.Keys(r);
    forall k | k in OrderedMap.Keys(r)
      ensures k in OrderedMap.Keys(m) || Names(es, k)
    {
      if k != KeyOf(e) && Names(init, k) {
        var i :| 0 <= i < |init| && KeyOf(init[i]) == k;
        assert es[i] == init[i];
      }
    }
  }

  /** `pruned_edges.forEach(e => map.delete(key(e)))`, as a left fold: every pruned key is absent
      afterwards and no key is introduced. */
  function PruneAll(m: EdgeMap, es: seq<TopicEdge>): (r: EdgeMap)
    ensures forall i :: 0 <= i < |es| ==> KeyOf(es[i]) !in OrderedMap.Keys(r)
    ensures forall k :: k in OrderedMap.Keys(r) ==> k in OrderedMap.Keys(m)
  {
    if es == [] then m
    else
      var init := es[..|es| - 1];
      var p := PruneAll(m, init);
      var r := OrderedMap.Delete(p, KeyOf(es[|es| - 1]));
      OrderedMap.DeleteKeys(p, KeyOf(es[|es| - 1]));
      assert forall i :: 0 <= i < |es| - 1 ==> KeyOf(es[i]) !in OrderedMap.Keys(r) by {
        forall i | 0 <= i < |es| - 1
          ensures KeyOf(es[i]) !in OrderedMap.Keys(r)
        {
          assert es[i] == init[i];
        }
      }
      r
  }

  /** One iteration's effect on the edge map: its adds, then its prunes. Its pruned keys are gone
      and every key left was there before or is one it adds. */
  function ApplyStep(m: EdgeMap, step: TopicStep): (r: EdgeMap)
    ensures forall i :: 0 <= i < |step.prunedEdges| ==> KeyOf(step.prunedEdges[i]) !in OrderedMap.Keys(r)
    ensures forall k :: k in OrderedMap.Keys(r) ==> k in OrderedMap.Keys(m) || Names(step.addedEdges, k)
  {
    PruneAll(AddAll(m, step.addedEdges), step.prunedEdges)
  }

  /** The edge map after replaying `steps` in order from an empty map. Nothing the last
      iteration pruned survives. */
  function Replay(steps: seq<TopicStep>): (r: EdgeMap)
    ensures |steps| > 0 ==> var last := steps[|steps| - 1];
      forall i :: 0 <= i < |last.prunedEdges| ==> KeyOf(last.prunedEdges[i]) !in OrderedMap.Keys(r)
  {
    if steps == [] then []
    else ApplyStep(Replay(steps[..|steps| - 1]), steps[|steps| - 1])
  }

  /** Every key of a replayed map is the key of an edge some iteration added. */
  lemma {:induction false} ReplayProvenance(steps: seq<TopicStep>)
    ensures forall k :: k in OrderedMap.Keys(Replay(steps)) ==>
      exists j :: 0 <= j < |steps| && Names(steps[j].addedEdges, k)
  {
    if steps != [] {
      var init := steps[..|steps| - 1];
      ReplayProvenance(init);
      assert forall j :: 0 <= j < |init| ==> steps[j] == init[j];
    }
  }

  // ---- an independent, key-by-key description of one step

  /** What the last added edge with key `k` stores, if any edge of `es` has that key. */
  function LastAdded(es: seq<TopicEdge>, k: EdgeKey): Option<TopicEdge>
  {
    if es == [] then None
    else if KeyOf(es[|es| - 1]) == k then Some(Stored(es[|es| - 1]))
    else LastAdded(es[..|es| - 1], k)
  }

  predicate IsPruned(es: seq<TopicEdge>, k: EdgeKey) {
    exists e :: e in es && KeyOf(e) == k
  }

  /** Adding: a key some added edge has holds the latest such edge; other keys are untouched. */
  lemma {:induction false} AddAllAt(m: EdgeMap, es: seq<TopicEdge>, k: EdgeKey)
    ensures OrderedMap.Get(AddAll(m, es), k)
         == if LastAdded(es, k).Some? then LastAdded(es, k) else OrderedMap.Get(m, k)
  {
    if es != [] {
      var e := es[|es| - 1];
      AddAllAt(m, es[..|es| - 1], k);
      OrderedMap.GetSet(AddAll(m, es[..|es| - 1]), KeyOf(e), Stored(e), k);
    }
  }

  /** Pruning: a pruned key is absent afterwards, present or not before; other keys are untouched. */
  lemma {:induction false} PruneAllAt(m: EdgeMap, es: seq<TopicEdge>, k: EdgeKey)
    ensures OrderedMap.Get(PruneAll(m, es), k)
         == if IsPruned(es, k) then None else OrderedMap.Get(m, k)
  {
    if es != [] {
      var e := es[|es| - 1];
      var init := es[..|es| - 1];
      PruneAllAt(m, init, k);
      OrderedMap.GetDelete(PruneAll(m, init), KeyOf(e), k);
      if IsPruned(es, k) && KeyOf(e) != k {
        var w :| w in es && KeyOf(w) == k;
        assert w in init;
      }
      if IsPruned(init, k) {
        var w :| w in init && KeyOf(w) == k;
        assert w in es;
      }
    }
  }

  /** The replay of one step, key by key: pruned keys are gone, otherwise the latest added edge
      wins, otherwise the key keeps what it had. */
  lemma ApplyStepAt(m: EdgeMap, step: TopicStep, k: EdgeKey)
    ensures OrderedMap.Get(ApplyStep(m, step), k)
         == if IsPruned(step.prunedEdges, k) then None
            else if LastAdded(step.addedEdges, k).Some? then LastAdded(step.addedEdges, k)
            else OrderedMap.Get(m, k)
  {
    PruneAllAt(AddAll(m, step.addedEdges), step.prunedEdges, k);
    AddAllAt(m, step.addedEdges, k);
  }

  /** Deleting a key that is absent leaves the map exactly as it was. */
  lemma PruneAbsentIsNoOp(m: EdgeMap, e: TopicEdge)
    requires OrderedMap.Get(m, KeyOf(e)).None?
    ensures PruneAll(m, [e]) == m
  {
    assert [e][..0] == [];
  }

  // ---- the shape of the maps

  /** Every stored edge sits under its own `(from, to)` key. */
  predicate UnderOwnKeys(m: EdgeMap) {
    forall i :: 0 <= i < |m| ==> KeyOf(m[i].value) == m[i].key
  }

  /** Keys are distinct and every stored edge sits under its own key. */
  predicate WellKeyed(m: EdgeMap) {
    OrderedMap.DistinctKeys(m) && UnderOwnKeys(m)
  }

  lemma {:induction false} AddAllWellKeyed(m: EdgeMap, es: seq<TopicEdge>)
    requires WellKeyed(m)
    ensures WellKeyed(AddAll(m, es))
  {
    if es != [] {
      var e := es[|es| - 1];
      var p := AddAll(m, es[..|es| - 1]);
      AddAllWellKeyed(m, es[..|es| - 1]);
      OrderedMap.SetDistinct(p, KeyOf(e), Stored(e));
      SetUnderOwnKeys(p, e);
    }
  }

  lemma SetUnderOwnKeys(m: EdgeMap, e: TopicEdge)
    requires UnderOwnKeys(m)
    ensures UnderOwnKeys(OrderedMap.Set(m, KeyOf(e), Stored(e)))
  {
    var r := OrderedMap.Set(m, KeyOf(e), Stored(e));
    OrderedMap.SetEntries(m, KeyOf(e), Stored(e));
    forall i | 0 <= i < |r|
      ensures KeyOf(r[i].value) == r[i].key
    {
      if r[i] in m {
        var j :| 0 <= j < |m| && m[j] == r[i];
      }
    }
  }

  lemma {:induction false} DeleteWellKeyed(m: EdgeMap, k: EdgeKey)
    requires WellKeyed(m)
    ensures WellKeyed(OrderedMap.Delete(m, k))
  {
    OrderedMap.DeleteDistinct(m, k);
    OrderedMap.DeleteEntries(m, k);
  }

  lemma {:induction false} PruneAllWellKeyed(m: EdgeMap, es: seq<TopicEdge>)
    requires WellKeyed(m)
    ensures WellKeyed(PruneAll(m, es))
  {
    if es != [] {
      PruneAllWellKeyed(m, es[..|es| - 1]);
      DeleteWellKeyed(PruneAll(m, es[..|es| - 1]), KeyOf(es[|es| - 1]));
    }
  }

  lemma ApplyStepWellKeyed(m: EdgeMap, step: TopicStep)
    requires WellKeyed(m)
    ensures WellKeyed(ApplyStep(m, step))
  {
    AddAllWellKeyed(m, step.addedEdges);
    PruneAllWellKeyed(AddAll(m, step.addedEdges), step.prunedEdges);
  }

  /** Every replayed map holds each `(from, to)` at most once, under its own key. */
  lemma {:induction false} ReplayWellKeyed(steps: seq<TopicStep>)
    ensures WellKeyed(Replay(steps))
  {
    if steps != [] {
      ReplayWellKeyed(steps[..|steps| - 1]);
      ApplyStepWellKeyed(Replay(steps[..|steps| - 1]), steps[|steps| - 1]);
    }
  }

  /** Unfolds `Replay` on a prefix by one step (a proof step for the loops below). */
  lemma ReplayExtends(steps: seq<TopicStep>, i: int)
    requires 0 <= i < |steps|
    ensures Replay(steps[..i + 1]) == ApplyStep(Replay(steps[..i]), steps[i])
  {
    assert steps[..i + 1][..i] == steps[..i];
  }

  // ---------------------------------------------------------------- useEdgesForPhase

  datatype PhaseEdges = PhaseEdges(
    edgesBeforeIteration: seq<TopicEdge>,
    edgesAtIteration: seq<TopicEdge>,
    addedThisIteration: seq<TopicEdge>,
    prunedThisIteration: seq<TopicEdge>)

  /** `Math.min(Math.max(i, 0), last)`. */
  function Clamp(i: int, last: nat): (r: nat)
    ensures r <= last
    ensures 0 <= i <= last ==> r == i
  {
    if i < 0 then 0 else if i > last then last else i
  }

  /** What `useEdgesForPhase` returns, stated through the replay. Without steps every list is empty; in phase `edges` the "before" list is the "at" list. */
  function EdgesForPhaseOf(data: Option<TopicData>, iterationIndex: int, phase: Phase): (r: PhaseEdges)
    ensures StepsCount(data) == 0 ==> r == PhaseEdges([], [], [], [])
    ensures phase == Edges ==> r.edgesBeforeIteration == r.edgesAtIteration
  {
    if data.None? || |data.value.steps| == 0 then PhaseEdges([], [], [], [])
    else
      var steps := data.value.steps;
      var iter := Clamp(iterationIndex, |steps| - 1);
      var before := Replay(steps[..iter]);
      var at := ApplyStep(before, steps[iter]);
      PhaseEdges(
        if phase == Edges then OrderedMap.Values(at) else OrderedMap.Values(before),
        OrderedMap.Values(at),
        steps[iter].addedEdges,
        steps[iter].prunedEdges)
  }

  /** The memo never looks ahead: every edge it returns carries a key that the current
      iteration or an earlier one added. */
  lemma EdgesNeverAhead(data: Option<TopicData>, iterationIndex: int, phase: Phase)
    requires StepsCount(data) > 0
    ensures var steps := data.value.steps;
      var iter := Clamp(iterationIndex, |steps| - 1);
      var r := EdgesForPhaseOf(data, iterationIndex, phase);
      forall e :: e in r.edgesAtIteration || e in r.edgesBeforeIteration ==>
        exists j :: 0 <= j <= iter && Names(steps[j].addedEdges, KeyOf(e))
  {
    var steps := data.value.steps;
    var iter := Clamp(iterationIndex, |steps| - 1);
    var r := EdgesForPhaseOf(data, iterationIndex, phase);
    var before := Replay(steps[..iter]);
    var at := ApplyStep(before, steps[iter]);
    EdgesForPhaseUnfolds(data, iterationIndex, phase);
    AddedBefore(steps, iter);
    forall e | e in r.edgesAtIteration || e in r.edgesBeforeIteration
      ensures exists j :: 0 <= j <= iter && Names(steps[j].addedEdges, KeyOf(e))
    {
      assert e in OrderedMap.Values(at) || e in OrderedMap.Values(before);
    }
  }

  /** The edges of the replay through iteration `iter`, and of the replay before it, carry keys
      that iteration `iter` or an earlier one added. */
  lemma AddedBefore(steps: seq<TopicStep>, iter: nat)
    requires iter < |steps|
    ensures var before := Replay(steps[..iter]);
      var at := ApplyStep(before, steps[iter]);
      forall e :: e in OrderedMap.Values(at) || e in OrderedMap.Values(before) ==>
        exists j :: 0 <= j <= iter && Names(steps[j].addedEdges, KeyOf(e))
  {
    var before := Replay(steps[..iter]);
    var at := ApplyStep(before, steps[iter]);
    ReplayProvenance(steps[..iter]);
    ReplayWellKeyed(steps[..iter]);
    ApplyStepWellKeyed(before, steps[iter]);
    forall e | e in OrderedMap.Values(at) || e in OrderedMap.Values(before)
      ensures exists j :: 0 <= j <= iter && Names(steps[j].addedEdges, KeyOf(e))
    {
      var k := KeyOf(e);
      var inBefore := k in OrderedMap.Keys(before);
      if e in OrderedMap.Values(at) {
        var i :| 0 <= i < |at| && at[i].value == e;
        assert at[i].key == k && k in OrderedMap.Keys(at);
      } else {
        var i :| 0 <= i < |before| && before[i].value == e;
        assert before[i].key == k;
        assert inBefore;
      }
      if inBefore {
        var j :| 0 <= j < |steps[..iter]| && Names(steps[..iter][j].addedEdges, k);
        assert steps[..iter][j] == steps[j];
      } else {
        assert Names(steps[iter].addedEdges, k);
      }
    }
  }

  /** The `forEach` over a step's added edges, calling `map.set` on each. */
  method SetEach(m0: EdgeMap, es: seq<TopicEdge>) returns (m: EdgeMap)
    ensures m == AddAll(m0, es)
  {
    m := m0;
    var j := 0;
    while j < |es|
      invariant 0 <= j <= |es|
      invariant m == AddAll(m0, es[..j])
    {
      assert es[..j + 1][..j] == es[..j];
      m := OrderedMap.Set(m, KeyOf(es[j]), Stored(es[j]));
      j := j + 1;
    }
    assert es[..j] == es;
  }

  /** The `forEach` over a step's pruned edges, calling `map.delete` on each. */
  method DeleteEach(m0: EdgeMap, es: seq<TopicEdge>) returns (m: EdgeMap)
    ensures m == PruneAll(m0, es)
  {
    m := m0;
    var j := 0;
    while j < |es|
      invariant 0 <= j <= |es|
      invariant m == PruneAll(m0, es[..j])
    {
      assert es[..j + 1][..j] == es[..j];
      m := OrderedMap.Delete(m, KeyOf(es[j]));
      j := j + 1;
    }
    assert es[..j] == es;
  }

  /** The `for` loop of `useEdgesForPhase` over the iterations before iteration `n`. */
  method ReplayPrefix(steps: seq<TopicStep>, n: nat) returns (m: EdgeMap)
    requires n <= |steps|
    ensures m == Replay(steps[..n])
  {
    m := [];
    var i := 0;
    while i < n
      invariant 0 <= i <= n
      invariant m == Replay(steps[..i])
    {
      ReplayExtends(steps, i);
      m := SetEach(m, steps[i].addedEdges);
      m := DeleteEach(m, steps[i].prunedEdges);
      i := i + 1;
    }
  }

  /** `useEdgesForPhase`: replays the iterations before the current one into `edgeMapBefore`,
      applies the current one to a copy, and returns both edge lists and the current lists. */
  method EdgesForPhase(data: Option<TopicData>, iterationIndex: int, phase: Phase) returns (r: PhaseEdges)
    ensures r == EdgesForPhaseOf(data, iterationIndex, phase)
  {
    if data.None? || |data.value.steps| == 0 {
      return PhaseEdges([], [], [], []);
    }
    var steps := data.value.steps;
    var iter := Clamp(iterationIndex, |steps| - 1);

    var edgeMapBefore := ReplayPrefix(steps, iter);
    var edgesBeforeIteration := OrderedMap.Values(edgeMapBefore);

    var edgeMapAt := edgeMapBefore;
    var current := steps[iter];
    edgeMapAt := SetEach(edgeMapAt, current.addedEdges);
    edgeMapAt := DeleteEach(edgeMapAt, current.prunedEdges);
    var edgesAtIteration := OrderedMap.Values(edgeMapAt);

    r := PhaseEdges(
      if phase == Edges then edgesAtIteration else edgesBeforeIteration,
      edgesAtIteration,
      current.addedEdges,
      current.prunedEdges);
    assert edgeMapAt == ApplyStep(Replay(steps[..iter]), steps[iter]);
    EdgesForPhaseUnfolds(data, iterationIndex, phase);
  }

  // ---- properties of useEdgesForPhase

  /** Without steps every list is empty. */
  lemma NoStepsNoEdges(data: Option<TopicData>, iterationIndex: int, phase: Phase)
    requires StepsCount(data) == 0
    ensures EdgesForPhaseOf(data, iterationIndex, phase) == PhaseEdges([], [], [], [])
  {
  }

  /** With steps, the current lists are exactly the clamped iteration's, the "at" list is the
      replay through that iteration, and in phase `edges` the "before" list is the "at" list. */
  lemma EdgesForPhaseShape(data: Option<TopicData>, iterationIndex: int, phase: Phase)
    requires StepsCount(data) > 0
    ensures var steps := data.value.steps;
      var iter := Clamp(iterationIndex, |steps| - 1);
      var r := EdgesForPhaseOf(data, iterationIndex, phase);
      && r.addedThisIteration == steps[iter].addedEdges
      && r.prunedThisIteration == steps[iter].prunedEdges
      && r.edgesAtIteration == OrderedMap.Values(Replay(steps[..iter + 1]))
      && (phase == Edges ==> r.edgesBeforeIteration == r.edgesAtIteration)
      && (phase != Edges ==> r.edgesBeforeIteration == OrderedMap.Values(Replay(steps[..iter])))
  {
    var steps := data.value.steps;
    var iter := Clamp(iterationIndex, |steps| - 1);
    EdgesForPhaseUnfolds(data, iterationIndex, phase);
    AtIsReplayThrough(data, iterationIndex, phase);
  }

  /** The "at" list is the replay through the clamped iteration. */
  lemma AtIsReplayThrough(data: Option<TopicData>, iterationIndex: int, phase: Phase)
    requires StepsCount(data) > 0
    ensures var steps := data.value.steps;
      var iter := Clamp(iterationIndex, |steps| - 1);
      EdgesForPhaseOf(data, iterationIndex, phase).edgesAtIteration == OrderedMap.Values(Replay(steps[..iter + 1]))
  {
    var steps := data.value.steps;
    var iter := Clamp(iterationIndex, |steps| - 1);
    EdgesForPhaseUnfolds(data, iterationIndex, phase);
    ReplayExtends(steps, iter);
  }

  /** The memo's lists, one field at a time. */
  lemma EdgesForPhaseUnfolds(data: Option<TopicData>, iterationIndex: int, phase: Phase)
    requires StepsCount(data) > 0
    ensures var steps := data.value.steps;
      var iter := Clamp(iterationIndex, |steps| - 1);
      var before := Replay(steps[..iter]);
      var at := ApplyStep(before, steps[iter]);
      var r := EdgesForPhaseOf(data, iterationIndex, phase);
      && r.addedThisIteration == steps[iter].addedEdges
      && r.prunedThisIteration == steps[iter].prunedEdges
      && r.edgesAtIteration == OrderedMap.Values(at)
      && r.edgesBeforeIteration == if phase == Edges then OrderedMap.Values(at) else OrderedMap.Values(before)
  {
  }

  /** Edge lists never repeat an `(from, to)` pair. */
  predicate DistinctEdgeKeys(es: seq<TopicEdge>) {
    forall i, j :: 0 <= i < j < |es| ==> KeyOf(es[i]) != KeyOf(es[j])
  }

  lemma ValuesDistinct(m: EdgeMap)
    requires WellKeyed(m)
    ensures DistinctEdgeKeys(OrderedMap.Values(m))
  {
  }

  /** No edge of the "at" list, nor of the "before" list in phase `edges`, has the key of an edge
      the current iteration prunes; and neither list repeats a key. */
  lemma PrunedAbsentAtIteration(data: Option<TopicData>, iterationIndex: int, phase: Phase)
    requires StepsCount(data) > 0
    ensures var r := EdgesForPhaseOf(data, iterationIndex, phase);
      && (forall e, p :: e in r.edgesAtIteration && p in r.prunedThisIteration ==> KeyOf(e) != KeyOf(p))
      && DistinctEdgeKeys(r.edgesAtIteration)
      && DistinctEdgeKeys(r.edgesBeforeIteration)
  {
    var steps := data.value.steps;
    var iter := Clamp(iterationIndex, |steps| - 1);
    var before := Replay(steps[..iter]);
    var at := ApplyStep(before, steps[iter]);
    ReplayWellKeyed(steps[..iter]);
    ApplyStepWellKeyed(before, steps[iter]);
    ValuesDistinct(before);
    ValuesDistinct(at);
    var r := EdgesForPhaseOf(data, iterationIndex, phase);
    var pruned := steps[iter].prunedEdges;
    forall e, p | e in r.edgesAtIteration && p in r.prunedThisIteration
      ensures KeyOf(e) != KeyOf(p)
    {
      var j :| 0 <= j < |at| && at[j].value == e;
      var i :| 0 <= i < |pruned| && pruned[i] == p;
      assert KeyOf(pruned[i]) !in OrderedMap.Keys(at);
      assert OrderedMap.Keys(at)[j] == at[j].key == KeyOf(e);
    }
  }

  // ---------------------------------------------------------------- the rendered frame

  /** What the graph and the side panel show in one frame. */
  datatype TopicView = TopicView(
    edges: seq<TopicEdge>,
    source: Option<int>,
    addedThisStep: seq<TopicEdge>,
    prunedThisStep: seq<TopicEdge>,
    order: seq<int>,
    remaining: seq<int>)

  datatype TopicScreen = ErrorScreen(message: string) | LoadingScreen | FrameScreen(view: TopicView)

  /** The body of `DemoTopic`: the error text, the loading placeholder while there is no data or no
      current step, or the frame of the current flat index. */
  function Render(error: Option<string>, data: Option<TopicData>, flatStepIndex: int): (r: TopicScreen)
    ensures r.ErrorScreen? <==> error.Some? && error.value != ""
    ensures r.FrameScreen? <==> (error.None? || error.value == "") && data.Some? && |data.value.steps| > 0
  {
    if error.Some? && error.value != "" then ErrorScreen(error.value)
    else if data.None? then LoadingScreen
    else
      var fs := FlatStepState(data, flatStepIndex);
      var d := data.value;
      if !(0 <= fs.iterationIndex < |d.steps|) then LoadingScreen
      else
        var pe := EdgesForPhaseOf(data, fs.iterationIndex, fs.phase);
        var current := d.steps[fs.iterationIndex];
        var initial := fs.phase == Initial;
        FrameScreen(TopicView(
          if fs.phase == Edges then pe.edgesAtIteration else pe.edgesBeforeIteration,
          if initial then None else Some(current.source),
          if fs.phase == Edges then pe.addedThisIteration else [],
          if fs.phase == Edges then pe.prunedThisIteration else [],
          if initial then [] else current.topologicalOrder,
          if initial then d.nodes else current.remainingCandidates))
  }

  /** A trace with no iterations never gets past the loading placeholder: there is no current step. */
  lemma NoStepsStaysLoading(data: TopicData, flatStepIndex: int)
    requires |data.steps| == 0
    ensures Render(None, Some(data), flatStepIndex) == LoadingScreen
  {
  }

  /** The initial frame draws no edge and shows no source, an empty order and every node as a
      candidate; the other frames show the current iteration's source, order and remaining
      candidates. */
  lemma ViewSelection(data: TopicData, flatStepIndex: int)
    requires |data.steps| > 0
    ensures var fs := FlatStepState(Some(data), flatStepIndex);
      var step := data.steps[fs.iterationIndex];
      && Render(None, Some(data), flatStepIndex).FrameScreen?
      && var v := Render(None, Some(data), flatStepIndex).view;
      && (flatStepIndex <= 0 ==>
            (v.edges == [] && v.source == None && v.order == [] && v.remaining == data.nodes
             && v.addedThisStep == [] && v.prunedThisStep == []))
      && (flatStepIndex > 0 ==>
            (v.source == Some(step.source) && v.order == step.topologicalOrder
             && v.remaining == step.remainingCandidates))
  {
    assert data.steps[..0] == [];
  }

  // ---- edge styling in TopicGraph

  datatype EdgeStyle = EdgeStyle(stroke: string, marker: string, strokeWidth: real, dash: Option<string>)

  const NormalStyle := EdgeStyle("#9ca3af", "url(#arrowhead)", 1.2, None)
  const AddedStyle := EdgeStyle("#16a34a", "url(#arrowhead-added)", 1.6, None)
  const PrunedStyle := EdgeStyle("#dc2626", "url(#arrowhead-pruned)", 1.4, Some("4 2"))

  predicate HasKey(es: seq<TopicEdge>, k: EdgeKey) {
    exists e :: e in es && KeyOf(e) == k
  }

  /** The stroke of one edge: green when the step adds its key, else red dashed when the step
      prunes its key, else grey. */
  function StyleOf(e: TopicEdge, addedThisStep: seq<TopicEdge>, prunedThisStep: seq<TopicEdge>): (s: EdgeStyle)
    ensures s == AddedStyle <==> HasKey(addedThisStep, KeyOf(e))
    ensures s == PrunedStyle <==> !HasKey(addedThisStep, KeyOf(e)) && HasKey(prunedThisStep, KeyOf(e))
  {
    if HasKey(addedThisStep, KeyOf(e)) then AddedStyle
    else if HasKey(prunedThisStep, KeyOf(e)) then PrunedStyle
    else NormalStyle
  }

  /** The red dashed "pruned" style is never drawn: outside phase `edges` the pruned list passed
      to the graph is empty, and in phase `edges` the drawn edges are the "at" set, from which the
      pruned keys have been deleted. */
  lemma PrunedStyleNeverDrawn(data: TopicData, flatStepIndex: int)
    requires Render(None, Some(data), flatStepIndex).FrameScreen?
    ensures var v := Render(None, Some(data), flatStepIndex).view;
      forall e :: e in v.edges ==> StyleOf(e, v.addedThisStep, v.prunedThisStep) != PrunedStyle
  {
    var fs := FlatStepState(Some(data), flatStepIndex);
    var v := Render(None, Some(data), flatStepIndex).view;
    if fs.phase == Edges {
      PrunedAbsentAtIteration(Some(data), fs.iterationIndex, fs.phase);
    }
  }

  // ---------------------------------------------------------------- component state

  /** The state of one `DemoTopic` instance. */
  class TopicDemo {
    var data: Option<TopicData>
    var error: Option<string>
    var flatStepIndex: int
    var showTruth: bool

    constructor ()
      ensures data == None && error == None && flatStepIndex == 0 && !showTruth
    {
      data, error, flatStepIndex, showTruth := None, None, 0, false;
    }

    function TotalFlatSteps(): int
      reads this
    {
      FlatStepState(data, flatStepIndex).totalFlatSteps
    }

    /** The index names a frame of the current trace. */
    predicate IndexInRange()
      reads this
    {
      0 <= flatStepIndex < TotalFlatSteps()
    }

    function Screen(): TopicScreen
      reads this
    {
      Render(error, data, flatStepIndex)
    }

    /** The load effect on a new `dataUrl`, up to the request: everything is reset. */
    method Load()
      modifies this
      ensures error == None && data == None && flatStepIndex == 0 && !showTruth
      ensures IndexInRange()
    {
      error := None;
      data := None;
      flatStepIndex := 0;
      showTruth := false;
    }

    /** The request settles. The source has no cancellation guard here: whichever request settles
        writes, including one issued for an earlier `dataUrl`. */
    method Loaded(outcome: Outcome<TopicData>)
      modifies this
      ensures outcome.Ok? ==> data == Some(outcome.payload) && error == old(error)
      ensures outcome.Failed? ==> error == Some(LoadError) && data == old(data)
      ensures flatStepIndex == old(flatStepIndex) && showTruth == old(showTruth)
    {
      match outcome
      case Ok(json) => data := Some(json);
      case Failed => error := Some(LoadError);
    }

    /** `handleNext`: one frame on, never past the last frame. */
    method Next()
      modifies this`flatStepIndex
      ensures flatStepIndex == NextIndex(old(flatStepIndex), TotalFlatSteps())
      ensures old(IndexInRange()) ==> IndexInRange()
      ensures old(flatStepIndex) >= -1 ==> IndexInRange()
    {
      flatStepIndex := NextIndex(flatStepIndex, TotalFlatSteps());
    }

    /** `handlePrev`: one frame back, never below the initial frame. */
    method Prev()
      modifies this`flatStepIndex
      ensures flatStepIndex == PrevIndex(old(flatStepIndex))
      ensures old(IndexInRange()) ==> IndexInRange()
    {
      flatStepIndex := PrevIndex(flatStepIndex);
    }

    /** The ground-truth button flips `showTruth` and nothing else. */
    method ToggleTruth()
      modifies this`showTruth
      ensures showTruth == !old(showTruth)
    {
      showTruth := !showTruth;
    }
  }
}
