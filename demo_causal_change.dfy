/** The causal-change demo (components/demo/DemoCausalChange.tsx): a mode picks a Python script
    and its JSON output; the script text and the output graph are fetched by two independent,
    cancellable effects, and the graph's final edge set is taken from an explicit snapshot or
    rebuilt by replaying added and pruned edges. */
module DemoCausalChange {
  import opened Wrappers
  import OrderedMap

  // ---------------------------------------------------------------- modes and URLs

  datatype Mode = Continuous | Context | Time

  const DefaultBase: string := "/demos/causalchange"

  function Folder(mode: Mode): string {
    match mode
    case Continuous => "continuous"
    case Context => "context"
    case Time => "time"
  }

  /** The script stem is `run_` followed by the folder name. */
  function Stem(mode: Mode): (r: string)
    ensures r == "run_" + Folder(mode)
  {
    match mode
    case Continuous => "run_continuous"
    case Context => "run_context"
    case Time => "run_time"
  }

  /** The path both files share: `${basePath}/${folder}/${stem}`. */
  function ScriptPath(basePath: string, mode: Mode): string {
    basePath + "/" + Folder(mode) + "/" + Stem(mode)
  }

  /** The Python script lies under the base path and ends in `.py`. */
  function PyUrl(basePath: string, mode: Mode): (r: string)
    ensures |r| > |basePath| + 3 && r[..|basePath|] == basePath && r[|r| - 3..] == ".py"
  {
    var p := ScriptPath(basePath, mode);
    assert (p + ".py")[..|basePath|] == p[..|basePath|];
    p + ".py"
  }

  /** The JSON output has the script's path with `.json` in place of `.py`. */
  function JsonUrl(basePath: string, mode: Mode): (r: string)
    ensures var py := PyUrl(basePath, mode);
      |r| > 5 && r[|r| - 5..] == ".json" && r[..|r| - 5] == py[..|py| - 3]
  {
    var p := ScriptPath(basePath, mode);
    assert (p + ".py")[..|p|] == p;
    assert (p + ".json")[..|p|] == p;
    p + ".json"
  }

  /** The three modes select these files. */
  lemma ContinuousUrls(basePath: string)
    ensures PyUrl(basePath, Continuous) == basePath + "/continuous/run_continuous.py"
    ensures JsonUrl(basePath, Continuous) == basePath + "/continuous/run_continuous.json"
  {
    PathSplit(basePath, "continuous", "run_continuous");
    ContinuousFiles();
  }

  lemma ContextUrls(basePath: string)
    ensures PyUrl(basePath, Context) == basePath + "/context/run_context.py"
    ensures JsonUrl(basePath, Context) == basePath + "/context/run_context.json"
  {
    PathSplit(basePath, "context", "run_context");
    ContextFiles();
  }

  lemma TimeUrls(basePath: string)
    ensures PyUrl(basePath, Time) == basePath + "/time/run_time.py"
    ensures JsonUrl(basePath, Time) == basePath + "/time/run_time.json"
  {
    PathSplit(basePath, "time", "run_time");
    TimeFiles();
  }

  /** The relative paths each mode spells out. */
  lemma ContinuousFiles()
    ensures "/" + "continuous" + "/" + "run_continuous" + ".py" == "/continuous/run_continuous.py"
    ensures "/" + "continuous" + "/" + "run_continuous" + ".json" == "/continuous/run_continuous.json"
  {
  }

  lemma ContextFiles()
    ensures "/" + "context" + "/" + "run_context" + ".py" == "/context/run_context.py"
    ensures "/" + "context" + "/" + "run_context" + ".json" == "/context/run_context.json"
  {
  }

  lemma TimeFiles()
    ensures "/" + "time" + "/" + "run_time" + ".py" == "/time/run_time.py"
    ensures "/" + "time" + "/" + "run_time" + ".json" == "/time/run_time.json"
  {
  }

  lemma PathSplit(basePath: string, folder: string, stem: string)
    ensures basePath + "/" + folder + "/" + stem + ".py" == basePath + ("/" + folder + "/" + stem + ".py")
    ensures basePath + "/" + folder + "/" + stem + ".json" == basePath + ("/" + folder + "/" + stem + ".json")
  {
  }

  /** Distinct modes fetch distinct files: a mode change always changes both URLs, so both effects
      re-run; re-selecting the current mode changes neither. */
  lemma ModeUrlsDistinct(basePath: string, m1: Mode, m2: Mode)
    requires m1 != m2
    ensures PyUrl(basePath, m1) != PyUrl(basePath, m2)
    ensures JsonUrl(basePath, m1) != JsonUrl(basePath, m2)
  {
    // `continuous` and `context` first differ at their fifth letter, `time` at its first
    var i := if m1 != Time && m2 != Time then 4 else 0;
    assert Folder(m1)[i] != Folder(m2)[i];
    FolderInUrls(basePath, m1, i);
    FolderInUrls(basePath, m2, i);
  }

  /** A URL changes exactly when the mode does. */
  lemma UrlsMoveWithMode(basePath: string, m1: Mode, m2: Mode)
    ensures PyUrl(basePath, m1) != PyUrl(basePath, m2) <==> m1 != m2
    ensures JsonUrl(basePath, m1) != JsonUrl(basePath, m2) <==> m1 != m2
  {
    if m1 != m2 {
      ModeUrlsDistinct(basePath, m1, m2);
    }
  }

  /** Both URLs carry the folder name right after `${basePath}/`. */
  lemma FolderInUrls(basePath: string, m: Mode, i: nat)
    requires i < |Folder(m)|
    ensures |basePath| + 1 + i < |PyUrl(basePath, m)| && |basePath| + 1 + i < |JsonUrl(basePath, m)|
    ensures PyUrl(basePath, m)[|basePath| + 1 + i] == Folder(m)[i]
    ensures JsonUrl(basePath, m)[|basePath| + 1 + i] == Folder(m)[i]
  {
    var p := ScriptPath(basePath, m);
    assert p == basePath + "/" + Folder(m) + "/" + Stem(m);
    assert p[|basePath| + 1 + i] == Folder(m)[i];
  }

  // ---------------------------------------------------------------- edges

  /** An edge as the JSON may give it: a `[from, to]` pair or a `{from, to}` record. */
  datatype RawEdge = PairForm(a: int, b: int) | RecordForm(from: int, to: int)

  datatype Edge = Edge(from: int, to: int)

  function NormalizeEdge(e: RawEdge): Edge {
    match e
    case PairForm(a, b) => Edge(a, b)
    case RecordForm(f, t) => Edge(f, t)
  }

  /** `normalizeEdges`: every edge in record form, in order. */
  function NormalizeEdges(es: seq<RawEdge>): (r: seq<Edge>)
    ensures |r| == |es|
    ensures forall i :: 0 <= i < |es| ==> r[i] == NormalizeEdge(es[i])
  {
    seq(|es|, i requires 0 <= i < |es| => NormalizeEdge(es[i]))
  }

  /** The record form of normalised edges. */
  function AsRecords(es: seq<Edge>): (r: seq<RawEdge>)
    ensures |r| == |es| && forall i :: 0 <= i < |es| ==> r[i] == RecordForm(es[i].from, es[i].to)
  {
    seq(|es|, i requires 0 <= i < |es| => RecordForm(es[i].from, es[i].to))
  }

  /** The same edges written as pairs or as records normalise identically. */
  lemma PairAndRecordFormsAgree(pairs: seq<RawEdge>, records: seq<RawEdge>)
    requires |pairs| == |records|
    requires forall i :: 0 <= i < |pairs| ==>
      pairs[i].PairForm? && records[i] == RecordForm(pairs[i].a, pairs[i].b)
    ensures NormalizeEdges(pairs) == NormalizeEdges(records)
  {
  }

  /** Normalising already normalised edges changes nothing. */
  lemma NormalizeIdempotent(es: seq<RawEdge>)
    ensures NormalizeEdges(AsRecords(NormalizeEdges(es))) == NormalizeEdges(es)
  {
  }

  /** `[[0,1],[1,2]]` and `[{from:0,to:1},{from:1,to:2}]` give the same two records. */
  lemma NormalizeExample()
    ensures NormalizeEdges([PairForm(0, 1), PairForm(1, 2)]) == [Edge(0, 1), Edge(1, 2)]
    ensures NormalizeEdges([RecordForm(0, 1), RecordForm(1, 2)]) == [Edge(0, 1), Edge(1, 2)]
  {
  }

  // ---------------------------------------------------------------- deriveFinalEdges

  /** One step of the output history; absent lists are `None`. The step's `it` and `source` are
      not read by the demo and are not modelled. */
  datatype CausalStep = CausalStep(
    addedEdges: Option<seq<RawEdge>>,
    prunedEdges: Option<seq<RawEdge>>,
    edges: Option<seq<RawEdge>>,
    graphEdges: Option<seq<RawEdge>>)

  datatype History = History(
    nodes: seq<int>,
    nodeNames: Option<seq<string>>,
    steps: Option<seq<CausalStep>>,
    trueEdges: Option<seq<RawEdge>>)

  /** The map key `${from}->${to}`. */
  datatype EdgeKey = EdgeKey(from: int, to: int)

  type EdgeMap = seq<OrderedMap.Entry<EdgeKey, Edge>>

  function KeyOf(e: Edge): EdgeKey {
    EdgeKey(e.from, e.to)
  }

  /** JavaScript's `a ?? b` on optional lists. */
  function Coalesce(a: Option<seq<RawEdge>>, b: Option<seq<RawEdge>>): Option<seq<RawEdge>> {
    if a.Some? then a else b
  }

  /** The snapshot lookup as written: `graph_edges ?? edges ?? graph_edges ?? edges`. */
  function SnapshotAsWritten(last: CausalStep): Option<seq<RawEdge>> {
    Coalesce(Coalesce(Coalesce(last.graphEdges, last.edges), last.graphEdges), last.edges)
  }

  /** The repeated half of the lookup is dead: it is `graph_edges ?? edges`. */
  lemma SnapshotIsTwoWay(last: CausalStep)
    ensures SnapshotAsWritten(last) == Coalesce(last.graphEdges, last.edges)
    ensures SnapshotAsWritten(last).Some? <==> last.graphEdges.Some? || last.edges.Some?
    ensures last.graphEdges.Some? ==> SnapshotAsWritten(last) == last.graphEdges
  {
  }

  /** Some edge of `es` has key `k`. */
  predicate Names(es: seq<Edge>, k: EdgeKey) {
    exists i :: 0 <= i < |es| && KeyOf(es[i]) == k
  }

  /** The `set` loop over one normalised added list: every added key is present afterwards, no
      key is lost, and no key comes from anywhere but `m` and `es`. */
  function AddAll(m: EdgeMap, es: seq<Edge>): (r: EdgeMap)
    ensures forall i :: 0 <= i < |es| ==> KeyOf(es[i]) in OrderedMap.Keys(r)
    ensures forall k :: k in OrderedMap.Keys(m) ==> k in OrderedMap.Keys(r)
    ensures forall k :: k in OrderedMap.Keys(r) ==> k in OrderedMap.Keys(m) || Names(es, k)
  {
    if es == [] then m
    else
      var e := es[|es| - 1];
      var init := es[..|es| - 1];
      var p := AddAll(m, init);
      AddStep(m, p, es);
      OrderedMap.Set(p, KeyOf(e), e)
  }

  /** One `set` of the fold keeps the three facts `AddAll` promises. */
  lemma AddStep(m: EdgeMap, p: EdgeMap, es: seq<Edge>)
    requires es != []
    requires forall i :: 0 <= i < |es| - 1 ==> KeyOf(es[i]) in OrderedMap.Keys(p)
    requires forall k :: k in OrderedMap.Keys(m) ==> k in OrderedMap.Keys(p)
    requires forall k :: k in OrderedMap.Keys(p) ==> k in OrderedMap.Keys(m) || Names(es[..|es| - 1], k)
    ensures var r := OrderedMap.Set(p, KeyOf(es[|es| - 1]), es[|es| - 1]);
      && (forall i :: 0 <= i < |es| ==> KeyOf(es[i]) in OrderedMap.Keys(r))
      && (forall k :: k in OrderedMap.Keys(m) ==> k in OrderedMap.Keys(r))
      && (forall k :: k in OrderedMap.Keys(r) ==> k in OrderedMap.Keys(m) || Names(es, k))
  {
    var e := es[|es| - 1];
    var init := es[..|es| - 1];
    var r := OrderedMap.Set(p, KeyOf(e), e);
    assert forall k :: k in OrderedMap.Keys(p) ==> k in OrderedMap.Keys(r);
    assert KeyOf(e) in OrderedMap.Keys(r);
    forall k | k in OrderedMap.Keys(r)
      ensures k in OrderedMap.Keys(m) || Names(es, k)
    {
      if k != KeyOf(e) && Names(init, k) {
        var i :| 0 <= i < |init| && KeyOf(init[i]) == k;
        assert es[i] == init[i];
      }
    }
  }

  /** The `delete` loop over one normalised pruned list: every pruned key is absent afterwards and
      no key is introduced. */
  function PruneAll(m: EdgeMap, es: seq<Edge>): (r: EdgeMap)
    ensures forall i :: 0 <= i < |es| ==> KeyOf(es[i]) !in OrderedMap.Keys(r)
    ensures forall k :: k in OrderedMap.Keys(r) ==> k in OrderedMap.Keys(m)
  {
    if es == [] then m
    else
      var init := es[..|es| - 1];
      var p := PruneAll(m, init);
      var r := OrderedMap.Delete(p, KeyOf(es[|es| - 1]));
      OrderedMap.DeleteKeys(p, KeyOf(es[|es| - 1]));
      assert forall i :: 0 <= i < |es| - 1 ==> KeyOf(es[i]) !in OrderedMap.Keys(r) by {
        forall i | 0 <= i < |es| - 1
          ensures KeyOf(es[i]) !in OrderedMap.Keys(r)
        {
          assert es[i] == init[i];
        }
      }
      r
  }

  /** One step of the replay: its added list if present, then its pruned list if present. The
      keys it prunes are gone, and every key left was there before or is one it adds. */
  function ApplyStep(m: EdgeMap, st: CausalStep): (r: EdgeMap)
    ensures forall k :: EdgeListHas(st.prunedEdges, k) ==> k !in OrderedMap.Keys(r)
    ensures forall k :: k in OrderedMap.Keys(r) ==> k in OrderedMap.Keys(m) || EdgeListHas(st.addedEdges, k)
  {
    NormalizedNames(if st.addedEdges.Some? then st.addedEdges.value else []);
    NormalizedNames(if st.prunedEdges.Some? then st.prunedEdges.value else []);
    var afterAdd := if st.addedEdges.Some? then AddAll(m, NormalizeEdges(st.addedEdges.value)) else m;
    if st.prunedEdges.Some? then PruneAll(afterAdd, NormalizeEdges(st.prunedEdges.value)) else afterAdd
  }

  /** The map after replaying every step; nothing the last step pruned survives. */
  function Replay(steps: seq<CausalStep>): (r: EdgeMap)
    ensures |steps| > 0 ==> forall k :: EdgeListHas(steps[|steps| - 1].prunedEdges, k) ==> k !in OrderedMap.Keys(r)
  {
    if steps == [] then []
    else ApplyStep(Replay(steps[..|steps| - 1]), steps[|steps| - 1])
  }

  /** Each key of a replayed map is one some step added. */
  lemma {:induction false} ReplayProvenance(steps: seq<CausalStep>)
    ensures forall k :: k in OrderedMap.Keys(Replay(steps)) ==>
      exists j :: 0 <= j < |steps| && EdgeListHas(steps[j].addedEdges, k)
  {
    if steps != [] {
      var init := steps[..|steps| - 1];
      ReplayProvenance(init);
      assert forall j :: 0 <= j < |init| ==> steps[j] == init[j];
    }
  }

  /** What `deriveFinalEdges` returns: nothing without steps; without a snapshot, no edge the
      last step pruned. */
  function FinalEdgesOf(data: History): (r: seq<Edge>)
    ensures data.steps.None? || |data.steps.value| == 0 ==> r == []
    ensures (data.steps.Some? && |data.steps.value| > 0
             && SnapshotAsWritten(data.steps.value[|data.steps.value| - 1]).None?) ==>
      forall e :: e in r ==> !EdgeListHas(data.steps.value[|data.steps.value| - 1].prunedEdges, KeyOf(e))
  {
    var steps := if data.steps.Some? then data.steps.value else [];
    if |steps| == 0 then []
    else
      var snap := SnapshotAsWritten(steps[|steps| - 1]);
      if snap.Some? then NormalizeEdges(snap.value)
      else
        ReplayWellKeyed(steps);
        ValuesUnderKeys(Replay(steps));
        OrderedMap.Values(Replay(steps))
  }

  /** Without a snapshot, every final edge carries a key some step added. */
  lemma FinalEdgesProvenance(data: History)
    requires data.steps.Some? && |data.steps.value| > 0
    requires SnapshotAsWritten(data.steps.value[|data.steps.value| - 1]).None?
    ensures forall e :: e in FinalEdgesOf(data) ==>
      exists j :: 0 <= j < |data.steps.value| && EdgeListHas(data.steps.value[j].addedEdges, KeyOf(e))
  {
    var steps := data.steps.value;
    ReplayProvenance(steps);
    ReplayWellKeyed(steps);
    ValuesUnderKeys(Replay(steps));
  }

  method SetEach(m0: EdgeMap, es: seq<Edge>) returns (m: EdgeMap)
    ensures m == AddAll(m0, es)
  {
    m := m0;
    var j := 0;
    while j < |es|
      invariant 0 <= j <= |es|
      invariant m == AddAll(m0, es[..j])
    {
      assert es[..j + 1][..j] == es[..j];
      m := OrderedMap.Set(m, KeyOf(es[j]), es[j]);
      j := j + 1;
    }
    assert es[..j] == es;
  }

  method DeleteEach(m0: EdgeMap, es: seq<Edge>) returns (m: EdgeMap)
    ensures m == PruneAll(m0, es)
  {
    m := m0;
    var j := 0;
    while j < |es|
      invariant 0 <= j <= |es|
      invariant m == PruneAll(m0, es[..j])
    {
      assert es[..j + 1][..j] == es[..j];
      m := OrderedMap.Delete(m, KeyOf(es[j]));
      j := j + 1;
    }
    assert es[..j] == es;
  }

  /** `deriveFinalEdges`: the last step's snapshot if it has one, otherwise the values of the map
      `E` after the `for` loop over all steps. */
  method DeriveFinalEdges(data: History) returns (r: seq<Edge>)
    ensures r == FinalEdgesOf(data)
  {
    var steps := if data.steps.Some? then data.steps.value else [];
    if |steps| == 0 {
      return [];
    }
    var last := steps[|steps| - 1];
    var snap := SnapshotAsWritten(last);
    if snap.Some? {
      return NormalizeEdges(snap.value);
    }
    var E: EdgeMap := [];
    var i := 0;
    while i < |steps|
      invariant 0 <= i <= |steps|
      invariant E == Replay(steps[..i])
    {
      assert steps[..i + 1][..i] == steps[..i];
      var st := steps[i];
      if st.addedEdges.Some? {
        E := SetEach(E, NormalizeEdges(st.addedEdges.value));
      }
      if st.prunedEdges.Some? {
        E := DeleteEach(E, NormalizeEdges(st.prunedEdges.value));
      }
      i := i + 1;
    }
    assert steps[..i] == steps;
    r := OrderedMap.Values(E);
  }

  /** The `edges` memo: no data, no edges. */
  function GraphEdges(data: Option<History>): seq<Edge> {
    if data.None? then [] else FinalEdgesOf(data.value)
  }

  // ---- properties of deriveFinalEdges

  /** No steps, or an empty list of steps: no edges. */
  lemma NoStepsNoEdges(data: History)
    requires data.steps.None? || data.steps.value == []
    ensures FinalEdgesOf(data) == []
  {
  }

  /** A snapshot on the last step, even an empty one, is the answer: `graph_edges` first, then
      `edges`, normalised; the added and pruned lists are not consulted. */
  lemma SnapshotWins(data: History)
    requires data.steps.Some? && |data.steps.value| > 0
    requires var last := data.steps.value[|data.steps.value| - 1];
      last.graphEdges.Some? || last.edges.Some?
    ensures var last := data.steps.value[|data.steps.value| - 1];
      FinalEdgesOf(data) == NormalizeEdges(if last.graphEdges.Some? then last.graphEdges.value else last.edges.value)
    ensures forall steps' ::
      (|steps'| == |data.steps.value| && steps'[|steps'| - 1] == data.steps.value[|steps'| - 1]
       ==> FinalEdgesOf(data.(steps := Some(steps'))) == FinalEdgesOf(data))
  {
    var last := data.steps.value[|data.steps.value| - 1];
    assert SnapshotAsWritten(last).Some?;
    forall steps' | |steps'| == |data.steps.value| && steps'[|steps'| - 1] == data.steps.value[|steps'| - 1]
      ensures FinalEdgesOf(data.(steps := Some(steps'))) == FinalEdgesOf(data)
    {
      assert steps'[|steps'| - 1] == last;
    }
  }

  predicate EdgeListHas(es: Option<seq<RawEdge>>, k: EdgeKey) {
    es.Some? && exists e :: e in es.value && KeyOf(NormalizeEdge(e)) == k
  }

  /** Key-level reading of one replay step: a key pruned by the step is absent, a key added and
      not pruned holds the latest added record, any other key is untouched; a missing list is
      skipped. */
  lemma {:induction false} AddAllAt(m: EdgeMap, es: seq<Edge>, k: EdgeKey)
    ensures (exists e :: e in es && KeyOf(e) == k) ==> OrderedMap.Get(AddAll(m, es), k) == Some(Edge(k.from, k.to))
    ensures (forall e :: e in es ==> KeyOf(e) != k) ==> OrderedMap.Get(AddAll(m, es), k) == OrderedMap.Get(m, k)
  {
    if es != [] {
      var e := es[|es| - 1];
      var init := es[..|es| - 1];
      AddAllAt(m, init, k);
      OrderedMap.GetSet(AddAll(m, init), KeyOf(e), e, k);
      if KeyOf(e) != k && exists w :: w in es && KeyOf(w) == k {
        var w :| w in es && KeyOf(w) == k;
        assert w in init;
      }
    }
  }

  lemma {:induction false} PruneAllAt(m: EdgeMap, es: seq<Edge>, k: EdgeKey)
    ensures (exists e :: e in es && KeyOf(e) == k) ==> OrderedMap.Get(PruneAll(m, es), k) == None
    ensures (forall e :: e in es ==> KeyOf(e) != k) ==> OrderedMap.Get(PruneAll(m, es), k) == OrderedMap.Get(m, k)
  {
    if es != [] {
      var e := es[|es| - 1];
      var init := es[..|es| - 1];
      PruneAllAt(m, init, k);
      OrderedMap.GetDelete(PruneAll(m, init), KeyOf(e), k);
      if KeyOf(e) != k && exists w :: w in es && KeyOf(w) == k {
        var w :| w in es && KeyOf(w) == k;
        assert w in init;
      }
    }
  }

  /** A raw list names a key exactly when its normalised form does, for every key. */
  lemma NormalizedNames(es: seq<RawEdge>)
    ensures forall k :: EdgeListHas(Some(es), k) <==> Names(NormalizeEdges(es), k)
  {
    forall k
      ensures EdgeListHas(Some(es), k) <==> Names(NormalizeEdges(es), k)
    {
      NormalizedHas(es, k);
    }
  }

  /** A raw list names a key exactly when its normalised form does. */
  lemma NormalizedHas(es: seq<RawEdge>, k: EdgeKey)
    ensures EdgeListHas(Some(es), k) <==> exists e :: e in NormalizeEdges(es) && KeyOf(e) == k
  {
    var n := NormalizeEdges(es);
    if EdgeListHas(Some(es), k) {
      var w :| w in es && KeyOf(NormalizeEdge(w)) == k;
      var i :| 0 <= i < |es| && es[i] == w;
      assert n[i] in n;
    }
    if exists e :: e in n && KeyOf(e) == k {
      var e :| e in n && KeyOf(e) == k;
      var i :| 0 <= i < |n| && n[i] == e;
      assert es[i] in es;
    }
  }

  lemma ApplyStepAt(m: EdgeMap, st: CausalStep, k: EdgeKey)
    ensures EdgeListHas(st.prunedEdges, k) ==> OrderedMap.Get(ApplyStep(m, st), k) == None
    ensures !EdgeListHas(st.prunedEdges, k) && EdgeListHas(st.addedEdges, k)
      ==> OrderedMap.Get(ApplyStep(m, st), k) == Some(Edge(k.from, k.to))
    ensures !EdgeListHas(st.prunedEdges, k) && !EdgeListHas(st.addedEdges, k)
      ==> OrderedMap.Get(ApplyStep(m, st), k) == OrderedMap.Get(m, k)
  {
    var afterAdd := if st.addedEdges.Some? then AddAll(m, NormalizeEdges(st.addedEdges.value)) else m;
    if st.addedEdges.Some? {
      AddAllAt(m, NormalizeEdges(st.addedEdges.value), k);
      NormalizedHas(st.addedEdges.value, k);
    }
    if st.prunedEdges.Some? {
      PruneAllAt(afterAdd, NormalizeEdges(st.prunedEdges.value), k);
      NormalizedHas(st.prunedEdges.value, k);
    }
  }

  /** The shape of the replayed map: distinct keys, each record under its own key. */
  predicate WellKeyed(m: EdgeMap) {
    && OrderedMap.DistinctKeys(m)
    && forall i :: 0 <= i < |m| ==> m[i].value == Edge(m[i].key.from, m[i].key.to)
  }

  /** In a well-keyed map every value sits under its own key. */
  lemma ValuesUnderKeys(m: EdgeMap)
    requires WellKeyed(m)
    ensures forall e :: e in OrderedMap.Values(m) ==> KeyOf(e) in OrderedMap.Keys(m)
  {
    forall e | e in OrderedMap.Values(m)
      ensures KeyOf(e) in OrderedMap.Keys(m)
    {
      var i :| 0 <= i < |m| && OrderedMap.Values(m)[i] == e;
      assert OrderedMap.Keys(m)[i] == m[i].key;
    }
  }

  lemma SetWellKeyed(m: EdgeMap, e: Edge)
    requires WellKeyed(m)
    ensures WellKeyed(OrderedMap.Set(m, KeyOf(e), e))
  {
    OrderedMap.SetDistinct(m, KeyOf(e), e);
    OrderedMap.SetEntries(m, KeyOf(e), e);
    var r := OrderedMap.Set(m, KeyOf(e), e);
    forall i | 0 <= i < |r|
      ensures r[i].value == Edge(r[i].key.from, r[i].key.to)
    {
      if r[i] in m {
        var j :| 0 <= j < |m| && m[j] == r[i];
      }
    }
  }

  lemma {:induction false} AddAllWellKeyed(m: EdgeMap, es: seq<Edge>)
    requires WellKeyed(m)
    ensures WellKeyed(AddAll(m, es))
  {
    if es != [] {
      AddAllWellKeyed(m, es[..|es| - 1]);
      SetWellKeyed(AddAll(m, es[..|es| - 1]), es[|es| - 1]);
    }
  }

  lemma {:induction false} PruneAllWellKeyed(m: EdgeMap, es: seq<Edge>)
    requires WellKeyed(m)
    ensures WellKeyed(PruneAll(m, es))
  {
    if es != [] {
      var p := PruneAll(m, es[..|es| - 1]);
      PruneAllWellKeyed(m, es[..|es| - 1]);
      OrderedMap.DeleteDistinct(p, KeyOf(es[|es| - 1]));
      OrderedMap.DeleteEntries(p, KeyOf(es[|es| - 1]));
    }
  }

  lemma {:induction false} ReplayWellKeyed(steps: seq<CausalStep>)
    ensures WellKeyed(Replay(steps))
  {
    if steps != [] {
      var p := Replay(steps[..|steps| - 1]);
      var st := steps[|steps| - 1];
      ReplayWellKeyed(steps[..|steps| - 1]);
      if st.addedEdges.Some? {
        AddAllWellKeyed(p, NormalizeEdges(st.addedEdges.value));
      }
      var afterAdd := if st.addedEdges.Some? then AddAll(p, NormalizeEdges(st.addedEdges.value)) else p;
      if st.prunedEdges.Some? {
        PruneAllWellKeyed(afterAdd, NormalizeEdges(st.prunedEdges.value));
      }
    }
  }

  /** Without a snapshot the result is the replay over all steps: it lists each `(from, to)` once,
      and holds nothing the last step prunes. */
  lemma ReplayFallback(data: History)
    requires data.steps.Some? && |data.steps.value| > 0
    requires var last := data.steps.value[|data.steps.value| - 1];
      last.graphEdges.None? && last.edges.None?
    ensures FinalEdgesOf(data) == OrderedMap.Values(Replay(data.steps.value))
    ensures var r := FinalEdgesOf(data);
      forall i, j :: 0 <= i < j < |r| ==> KeyOf(r[i]) != KeyOf(r[j])
    ensures var last := data.steps.value[|data.steps.value| - 1];
      forall e :: e in FinalEdgesOf(data) ==> !EdgeListHas(last.prunedEdges, KeyOf(e))
  {
    var steps := data.steps.value;
    var m := Replay(steps);
    ReplayWellKeyed(steps);
    var last := steps[|steps| - 1];
    forall e | e in FinalEdgesOf(data)
      ensures !EdgeListHas(last.prunedEdges, KeyOf(e))
    {
      var j :| 0 <= j < |m| && m[j].value == e;
      assert m[j].key == KeyOf(e);
      assert m[j].key in OrderedMap.Keys(m);
      ApplyStepAt(Replay(steps[..|steps| - 1]), last, KeyOf(e));
    }
  }

  // ---------------------------------------------------------------- component state

  const CodeError: string := "Could not load python file."
  const DataError: string := "Could not load json output."

  /** The state of one `DemoCausalChange` instance. Each fetch effect has a token: `codeToken` and
      `dataToken` number the latest invocation, and `codeAwaiting`/`dataAwaiting` say that this
      invocation has neither been cleaned up (its `cancelled` flag set) nor settled. A delivery
      carrying another token, or arriving when the flag is down, writes nothing. */
  class CausalChangeDemo {
    const basePath: string
    var mode: Mode
    var code: string
    var loadingCode: bool
    var errCode: Option<string>
    var data: Option<History>
    var loadingData: bool
    var errData: Option<string>
    var codeToken: nat
    var codeAwaiting: bool
    var dataToken: nat
    var dataAwaiting: bool

    /** Loading and an error never show together; an error comes with an empty payload; an
        invocation still awaited is still loading. */
    ghost predicate Valid()
      reads this
    {
      && (loadingCode ==> errCode == None)
      && (errCode.Some? ==> code == "")
      && (codeAwaiting ==> loadingCode)
      && (loadingData ==> errData == None)
      && (errData.Some? ==> data == None)
      && (dataAwaiting ==> loadingData)
    }

    /** The first render, before the effects run. */
    constructor (basePath: string)
      ensures this.basePath == basePath && mode == Continuous
      ensures code == "" && !loadingCode && errCode == None
      ensures data == None && !loadingData && errData == None
      ensures codeToken == 0 && !codeAwaiting && dataToken == 0 && !dataAwaiting
      ensures Valid()
    {
      this.basePath := basePath;
      mode := Continuous;
      code, loadingCode, errCode := "", false, None;
      data, loadingData, errData := None, false, None;
      codeToken, codeAwaiting, dataToken, dataAwaiting := 0, false, 0, false;
    }

    function PyUrlNow(): string reads this { PyUrl(basePath, mode) }
    function JsonUrlNow(): string reads this { JsonUrl(basePath, mode) }

    /** The Python panel shows the code box. */
    predicate ShowsCode() reads this { !loadingCode && errCode == None }

    /** The graph panel shows the graph. */
    predicate ShowsGraph() reads this { !loadingData && errData == None && data.Some? }

    /** The code effect for `pyUrl`: the previous invocation is cancelled, a new one starts
        loading and clears the error. */
    method StartCodeFetch() returns (token: nat)
      requires Valid()
      modifies this`codeToken, this`codeAwaiting, this`loadingCode, this`errCode
      ensures Valid()
      ensures token == codeToken == old(codeToken) + 1 && codeAwaiting
      ensures loadingCode && errCode == None
    {
      codeToken := codeToken + 1;
      codeAwaiting := true;
      loadingCode := true;
      errCode := None;
      token := codeToken;
    }

    /** The data effect for `jsonUrl`. */
    method StartDataFetch() returns (token: nat)
      requires Valid()
      modifies this`dataToken, this`dataAwaiting, this`loadingData, this`errData
      ensures Valid()
      ensures token == dataToken == old(dataToken) + 1 && dataAwaiting
      ensures loadingData && errData == None
    {
      dataToken := dataToken + 1;
      dataAwaiting := true;
      loadingData := true;
      errData := None;
      token := dataToken;
    }

    /** Both effects run after the first render. */
    method Mount() returns (codeT: nat, dataT: nat)
      requires Valid()
      modifies this
      ensures Valid() && mode == old(mode) && code == old(code) && data == old(data)
      ensures codeT == codeToken == old(codeToken) + 1 && codeAwaiting && loadingCode && errCode == None
      ensures dataT == dataToken == old(dataToken) + 1 && dataAwaiting && loadingData && errData == None
    {
      codeT := StartCodeFetch();
      dataT := StartDataFetch();
    }

    /** A mode button. A different mode changes both URLs, so both effects are cleaned up and run
        again; the current mode changes nothing. */
    method SetMode(m: Mode) returns (codeT: nat, dataT: nat)
      requires Valid()
      modifies this
      ensures Valid() && mode == m && code == old(code) && data == old(data)
      ensures m != old(mode) ==>
        && codeT == codeToken == old(codeToken) + 1 && codeAwaiting && loadingCode && errCode == None
        && dataT == dataToken == old(dataToken) + 1 && dataAwaiting && loadingData && errData == None
      ensures m == old(mode) ==>
        && codeToken == old(codeToken) && codeAwaiting == old(codeAwaiting)
        && loadingCode == old(loadingCode) && errCode == old(errCode)
        && dataToken == old(dataToken) && dataAwaiting == old(dataAwaiting)
        && loadingData == old(loadingData) && errData == old(errData)
    {
      // the effects re-run exactly when their URL dependency changes
      var pyMoves, jsonMoves := PyUrl(basePath, m) != PyUrlNow(), JsonUrl(basePath, m) != JsonUrlNow();
      UrlsMoveWithMode(basePath, mode, m);
      mode := m;
      codeT, dataT := codeToken, dataToken;
      if pyMoves {
        codeT := StartCodeFetch();
      }
      if jsonMoves {
        dataT := StartDataFetch();
      }
    }

    /** The code request of invocation `token` settles. */
    method CodeSettled(token: nat, outcome: Outcome<string>)
      requires Valid()
      modifies this`code, this`loadingCode, this`errCode, this`codeAwaiting
      ensures Valid()
      ensures !(old(codeAwaiting) && token == codeToken) ==>
        code == old(code) && loadingCode == old(loadingCode) && errCode == old(errCode)
        && codeAwaiting == old(codeAwaiting)
      ensures old(codeAwaiting) && token == codeToken ==> !codeAwaiting && !loadingCode
      ensures old(codeAwaiting) && token == codeToken && outcome.Ok? ==>
        code == outcome.payload && errCode == None
      ensures old(codeAwaiting) && token == codeToken && outcome.Failed? ==>
        code == "" && errCode == Some(CodeError)
    {
      if codeAwaiting && token == codeToken {
        codeAwaiting := false;
        match outcome
        case Ok(txt) =>
          code := txt;
          loadingCode := false;
        case Failed =>
          errCode := Some(CodeError);
          code := "";
          loadingCode := false;
      }
    }

    /** The data request of invocation `token` settles. */
    method DataSettled(token: nat, outcome: Outcome<History>)
      requires Valid()
      modifies this`data, this`loadingData, this`errData, this`dataAwaiting
      ensures Valid()
      ensures !(old(dataAwaiting) && token == dataToken) ==>
        data == old(data) && loadingData == old(loadingData) && errData == old(errData)
        && dataAwaiting == old(dataAwaiting)
      ensures old(dataAwaiting) && token == dataToken ==> !dataAwaiting && !loadingData
      ensures old(dataAwaiting) && token == dataToken && outcome.Ok? ==>
        data == Some(outcome.payload) && errData == None
      ensures old(dataAwaiting) && token == dataToken && outcome.Failed? ==>
        data == None && errData == Some(DataError)
    {
      if dataAwaiting && token == dataToken {
        dataAwaiting := false;
        match outcome
        case Ok(j) =>
          data := Some(j);
          loadingData := false;
        case Failed =>
          errData := Some(DataError);
          data := None;
          loadingData := false;
      }
    }

    /** Unmounting runs both cleanups: nothing that settles later writes. */
    method Unmount()
      requires Valid()
      modifies this`codeAwaiting, this`dataAwaiting
      ensures Valid() && !codeAwaiting && !dataAwaiting
    {
      codeAwaiting := false;
      dataAwaiting := false;
    }
  }

  /** Two mode switches in a row, the first request answering last: only the second mode's
      outcome is shown. The JSON request failing leaves the code panel showing its code. */
  method StaleAndIndependentFetches(slowCode: string, slowData: History, fastCode: string)
    returns (shownCode: string, codeBox: bool, graph: bool, dataMessage: Option<string>)
    ensures shownCode == fastCode && codeBox
    ensures !graph && dataMessage == Some(DataError)
  {
    var demo := new CausalChangeDemo(DefaultBase);
    var c1, d1 := demo.Mount();
    var c2, d2 := demo.SetMode(Context);
    demo.CodeSettled(c2, Ok(fastCode));
    demo.DataSettled(d2, Failed);
    demo.CodeSettled(c1, Ok(slowCode));
    demo.DataSettled(d1, Ok(slowData));
    shownCode, codeBox, graph, dataMessage := demo.code, demo.ShowsCode(), demo.ShowsGraph(), demo.errData;
  }
}
