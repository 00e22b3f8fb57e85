/** The demo dispatcher (components/demo/Demo.tsx): a closed set of demo keys, a metadata table
    for two of them, and the choice of the component to mount. */
module Demo {
  import opened Wrappers

  /** The keys a project or publication may name (types/main.ts). */
  datatype DemoKey = CausalMixtureModels | TopicOrdering | PrettyPgfPlotsLine | CausalChange

  datatype DemoConfig = DemoConfig(title: string, dataUrl: string)

  /** The components the dispatcher can mount. */
  datatype Renderer = CmmRenderer | TopicRenderer

  datatype Mounted = Mounted(renderer: Renderer, title: string, dataUrl: string)

  /** `DEMO_META`: only two keys have an entry. */
  function DemoMeta(k: DemoKey): Option<DemoConfig> {
    match k
    case CausalMixtureModels =>
      Some(DemoConfig("Causal Mixture Models: bivariate example", "/demos/cmm_tcga_colon_x3_y3.json"))
    case TopicOrdering =>
      Some(DemoConfig("TOPIC: topological ordering demo", "/demos/topic_history_synthetic_n5.json"))
    case _ => None
  }

  /** `Demo`: the CMM component for the mixture-model key, the TOPIC component for the ordering
      key, nothing for any other key. */
  function Dispatch(k: DemoKey): (r: Option<Mounted>)
    ensures r.Some? <==> DemoMeta(k).Some?
    ensures r.Some? ==> r.value.title == DemoMeta(k).value.title && r.value.dataUrl == DemoMeta(k).value.dataUrl
    ensures r.Some? ==> (r.value.renderer == CmmRenderer <==> k == CausalMixtureModels)
  {
    var config := DemoMeta(k);
    if k == CausalMixtureModels then Some(Mounted(CmmRenderer, config.value.title, config.value.dataUrl))
    else if k == TopicOrdering then Some(Mounted(TopicRenderer, config.value.title, config.value.dataUrl))
    else None
  }

  /** What each key mounts. */
  lemma DispatchTable()
    ensures Dispatch(CausalMixtureModels) ==
      Some(Mounted(CmmRenderer, "Causal Mixture Models: bivariate example", "/demos/cmm_tcga_colon_x3_y3.json"))
    ensures Dispatch(TopicOrdering) ==
      Some(Mounted(TopicRenderer, "TOPIC: topological ordering demo", "/demos/topic_history_synthetic_n5.json"))
    ensures Dispatch(PrettyPgfPlotsLine) == None && Dispatch(CausalChange) == None
  {
  }

  /** Different keys never mount the same renderer, and the two mounted demos load different
      files. */
  lemma DispatchInjective(k1: DemoKey, k2: DemoKey)
    requires k1 != k2 && Dispatch(k1).Some? && Dispatch(k2).Some?
    ensures Dispatch(k1).value.renderer != Dispatch(k2).value.renderer
    ensures Dispatch(k1).value.dataUrl != Dispatch(k2).value.dataUrl
  {
    DispatchTable();
    var cmm, topic := Dispatch(CausalMixtureModels).value, Dispatch(TopicOrdering).value;
    assert |cmm.dataUrl| == 32 && |topic.dataUrl| == 38;
    assert k1 == CausalMixtureModels || k1 == TopicOrdering;
    assert k2 == CausalMixtureModels || k2 == TopicOrdering;
  }
}
