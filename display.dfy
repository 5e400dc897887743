/** What one found or lost event does to an anchor's children and to the info
    panel, as functions of the state before it. ARManager's methods are proved
    to follow these; the lemmas below are the controller's promises. */
module Display {
  import opened Wrappers
  import opened Text
  import opened Components
  import opened Info
  import opened Scene

  /** The asset folder Resources.Load looks in. */
  const PrefabFolder := "Prefabs/"

  /** The suffix Instantiate gives the name of a fresh clone. */
  const CloneSuffix := "(Clone)"

  /** The path of a model asset in the asset store. */
  function PrefabPath(prefab: string): string {
    PrefabFolder + prefab
  }

  /** The two default model assets live at different paths. */
  lemma DefaultPathsDiffer()
    ensures PrefabPath(CpuRecord.prefab) != PrefabPath(RamRecord.prefab)
  {
    assert PrefabPath(RamRecord.prefab)[8] != PrefabPath(CpuRecord.prefab)[8];
  }

  /** One anchor's children and the singleton panel, None when ComponentInfo.Instance is null. */
  datatype Display = Display(children: seq<Child>, panel: Option<PanelState>)

  /** The panel after ShowInfo, when there is one. */
  function ShowPanel(panel: Option<PanelState>, data: ComponentData): Option<PanelState> {
    match panel
    case None => None
    case Some(p) => Some(Shown(p, data))
  }

  /** The panel after HideInfo, when there is one. */
  function HidePanel(panel: Option<PanelState>): Option<PanelState> {
    match panel
    case None => None
    case Some(p) => Some(Hidden(p))
  }

  /** The new child Instantiate puts under the anchor, after it has been renamed
      and its transform reset. */
  function NewInstance(prefab: string): Child {
    Child(prefab, true, true)
  }

  /** The children after showing `prefab`: the existing child activated, or a new
      instance appended; None when there is no such child and no such asset. */
  function ShowChildren(children: seq<Child>, prefab: string, resources: set<string>): Option<seq<Child>> {
    match FindChild(children, prefab)
    case Some(i) => Some(SetActive(children, i, true))
    case None =>
      if PrefabPath(prefab) in resources then Some(children + [NewInstance(prefab)]) else None
  }

  /** The children after hiding `prefab`: the existing child deactivated, if any. */
  function HideChildren(children: seq<Child>, prefab: string): seq<Child> {
    match FindChild(children, prefab)
    case Some(i) => SetActive(children, i, false)
    case None => children
  }

  /** ShowComponentForTarget(anchor, targetId, show). */
  function Step(cs: seq<ComponentData>, resources: set<string>, d: Display, targetId: string, show: bool): Display {
    match Find(cs, targetId)
    case None => d
    case Some(data) =>
      if show then
        match ShowChildren(d.children, data.prefab, resources)
        case None => d
        case Some(children) => Display(children, ShowPanel(d.panel, data))
      else
        d.(children := HideChildren(d.children, data.prefab))
  }

  /** OnTargetFound for the anchor whose marker is called `targetName`. */
  function FoundStep(cs: seq<ComponentData>, resources: set<string>, d: Display, targetName: string): Display {
    Step(cs, resources, d, Lower(targetName), true)
  }

  /** OnTargetLost for the anchor whose marker is called `targetName`. */
  function LostStep(cs: seq<ComponentData>, resources: set<string>, d: Display, targetName: string): Display {
    var after := Step(cs, resources, d, Lower(targetName), false);
    after.(panel := HidePanel(after.panel))
  }

  /** A marker with no record changes nothing, shown or hidden. */
  lemma UnknownIdChangesNothing(cs: seq<ComponentData>, resources: set<string>, d: Display, targetId: string, show: bool)
    requires forall i :: 0 <= i < |cs| ==> Lower(cs[i].id) != targetId
    ensures Step(cs, resources, d, targetId, show) == d
  {
  }

  /** Showing a record whose model is already under the anchor activates that child,
      creates nothing and shows the record in the panel. */
  lemma ShowExistingActivates(cs: seq<ComponentData>, resources: set<string>, d: Display, targetId: string)
    requires Find(cs, targetId).Some?
    requires FindChild(d.children, Find(cs, targetId).value.prefab).Some?
    ensures var data := Find(cs, targetId).value;
            var i := FindChild(d.children, data.prefab).value;
            var after := Step(cs, resources, d, targetId, true);
            && |after.children| == |d.children|
            && after.children[i] == d.children[i].(active := true)
            && (forall j :: 0 <= j < |d.children| && j != i ==> after.children[j] == d.children[j])
            && after.panel == ShowPanel(d.panel, data)
  {
  }

  /** Showing a record with no child yet and its asset present appends exactly one
      active child named after the model, with its transform reset, keeps every other
      child, and shows the record in the panel. */
  lemma ShowCreatesOneInstance(cs: seq<ComponentData>, resources: set<string>, d: Display, targetId: string)
    requires Find(cs, targetId).Some?
    requires FindChild(d.children, Find(cs, targetId).value.prefab).None?
    requires PrefabPath(Find(cs, targetId).value.prefab) in resources
    ensures var data := Find(cs, targetId).value;
            var after := Step(cs, resources, d, targetId, true);
            && after.children == d.children + [Child(data.prefab, true, true)]
            && CountNamed(after.children, data.prefab) == 1
            && after.panel == ShowPanel(d.panel, data)
  {
    var data := Find(cs, targetId).value;
    CountZeroIffAbsent(d.children, data.prefab);
    CountAppend(d.children, NewInstance(data.prefab), data.prefab);
  }

  /** Showing a record with no child yet and no asset aborts: no child, no panel change. */
  lemma ShowMissingAssetAborts(cs: seq<ComponentData>, resources: set<string>, d: Display, targetId: string)
    requires Find(cs, targetId).Some?
    requires FindChild(d.children, Find(cs, targetId).value.prefab).None?
    requires PrefabPath(Find(cs, targetId).value.prefab) !in resources
    ensures Step(cs, resources, d, targetId, true) == d
  {
  }

  /** A second show of the same marker changes nothing: a repeated Found event
      neither creates another child nor alters the panel. */
  lemma ShowIdempotent(cs: seq<ComponentData>, resources: set<string>, d: Display, targetId: string)
    ensures var once := Step(cs, resources, d, targetId, true);
            Step(cs, resources, once, targetId, true) == once
  {
    match Find(cs, targetId)
    case None =>
    case Some(data) =>
      match FindChild(d.children, data.prefab)
      case Some(i) =>
        SetActiveKeepsFind(d.children, i, true, data.prefab);
        var c := SetActive(d.children, i, true);
        assert SetActive(c, i, true) == c;
      case None =>
        if PrefabPath(data.prefab) in resources {
          var c := d.children + [NewInstance(data.prefab)];
          FindAppendedNew(d.children, NewInstance(data.prefab));
          assert SetActive(c, |d.children|, true) == c;
        }
  }

  /** Showing never duplicates a model: the number of children named after it
      becomes one if there were none and the asset exists, and otherwise stays. */
  lemma ShowNeverDuplicates(cs: seq<ComponentData>, resources: set<string>, d: Display, targetId: string)
    requires Find(cs, targetId).Some?
    ensures var p := Find(cs, targetId).value.prefab;
            var before := CountNamed(d.children, p);
            CountNamed(Step(cs, resources, d, targetId, true).children, p)
              == if before == 0 && PrefabPath(p) in resources then 1 else before
  {
    var p := Find(cs, targetId).value.prefab;
    CountZeroIffAbsent(d.children, p);
    match FindChild(d.children, p)
    case Some(i) =>
      SetActiveKeepsCount(d.children, i, true, p);
    case None =>
      CountAppend(d.children, NewInstance(p), p);
  }

  /** Hiding deactivates the matching child if there is one, keeps everything
      else, never creates a child and never touches the panel. */
  lemma HideRules(cs: seq<ComponentData>, resources: set<string>, d: Display, targetId: string)
    requires Find(cs, targetId).Some?
    ensures var p := Find(cs, targetId).value.prefab;
            var after := Step(cs, resources, d, targetId, false);
            && |after.children| == |d.children|
            && after.panel == d.panel
            && (forall j :: 0 <= j < |d.children| ==> after.children[j].name == d.children[j].name)
            && (FindChild(d.children, p).None? ==> after.children == d.children)
            && (FindChild(d.children, p).Some? ==>
                  var i := FindChild(d.children, p).value;
                  && !after.children[i].active
                  && forall j :: 0 <= j < |d.children| && j != i ==> after.children[j] == d.children[j])
  {
  }

  /** Lost always hides the panel, whether or not the marker has a record, and
      changes the children only as hiding does. */
  lemma LostAlwaysHidesPanel(cs: seq<ComponentData>, resources: set<string>, d: Display, targetName: string)
    ensures LostStep(cs, resources, d, targetName).panel == HidePanel(d.panel)
    ensures LostStep(cs, resources, d, targetName).children
              == Step(cs, resources, d, Lower(targetName), false).children
    ensures Resolve(cs, targetName).None? ==> LostStep(cs, resources, d, targetName).children == d.children
  {
  }

  /** Found then Lost on a known marker whose model could be shown leaves its
      child under the anchor inactive and the panel hidden. */
  lemma FoundThenLost(cs: seq<ComponentData>, resources: set<string>, d: Display, targetName: string)
    requires Resolve(cs, targetName).Some?
    requires var p := Resolve(cs, targetName).value.prefab;
             FindChild(d.children, p).Some? || PrefabPath(p) in resources
    ensures var p := Resolve(cs, targetName).value.prefab;
            var after := LostStep(cs, resources, FoundStep(cs, resources, d, targetName), targetName);
            && FindChild(after.children, p).Some?
            && !after.children[FindChild(after.children, p).value].active
            && (after.panel.Some? <==> d.panel.Some?)
            && (after.panel.Some? ==> !after.panel.value.visible)
  {
    var data := Resolve(cs, targetName).value;
    var p := data.prefab;
    match FindChild(d.children, p)
    case Some(i) =>
      SetActiveKeepsFind(d.children, i, true, p);
      SetActiveKeepsFind(SetActive(d.children, i, true), i, false, p);
    case None =>
      var c := d.children + [NewInstance(p)];
      FindAppendedNew(d.children, NewInstance(p));
      SetActiveKeepsFind(c, |d.children|, false, p);
  }

  /** Found of the CPU marker on an empty anchor, with the default table and the CPU asset available. */
  lemma CpuFoundStep(resources: set<string>, panel: Option<PanelState>)
    requires PrefabPath(CpuRecord.prefab) in resources
    ensures FoundStep(DefaultData(), resources, Display([], panel), "CPU")
              == Display([Child("CPU_Prefab", true, true)], ShowPanel(panel, CpuRecord))
  {
    LowerCpu();
    FindDefault();
    ShowCreatesOneInstance(DefaultData(), resources, Display([], panel), "cpu");
  }

  /** Lost of the CPU marker with its model active under the anchor. */
  lemma CpuLostStep(resources: set<string>, panel: Option<PanelState>)
    ensures LostStep(DefaultData(), resources, Display([Child("CPU_Prefab", true, true)], panel), "CPU")
              == Display([Child("CPU_Prefab", false, true)], HidePanel(panel))
  {
    var c := [Child("CPU_Prefab", true, true)];
    LowerCpu();
    FindDefault();
    assert FindChild(c, CpuRecord.prefab) == Some(0);
    assert HideChildren(c, CpuRecord.prefab) == [Child("CPU_Prefab", false, true)];
    assert Step(DefaultData(), resources, Display(c, panel), "cpu", false)
             == Display([Child("CPU_Prefab", false, true)], panel);
  }

  /** Found then Lost of the CPU marker on an empty anchor. */
  lemma CpuFoundThenLostSteps(resources: set<string>, panel: Option<PanelState>)
    requires PrefabPath(CpuRecord.prefab) in resources
    ensures var found := FoundStep(DefaultData(), resources, Display([], panel), "CPU");
            && found == Display([Child("CPU_Prefab", true, true)], ShowPanel(panel, CpuRecord))
            && LostStep(DefaultData(), resources, found, "CPU")
                 == Display([Child("CPU_Prefab", false, true)], HidePanel(ShowPanel(panel, CpuRecord)))
  {
    CpuFoundStep(resources, panel);
    CpuLostStep(resources, ShowPanel(panel, CpuRecord));
  }

  /** A second Found of the CPU marker changes nothing. */
  lemma CpuFoundTwiceSteps(resources: set<string>, panel: Option<PanelState>)
    requires PrefabPath(CpuRecord.prefab) in resources
    ensures var found := FoundStep(DefaultData(), resources, Display([], panel), "CPU");
            FoundStep(DefaultData(), resources, found, "CPU") == found
  {
    ShowIdempotent(DefaultData(), resources, Display([], panel), Lower("CPU"));
  }

  /** Found of a marker without a row changes nothing. */
  lemma GpuFoundStep(resources: set<string>, d: Display)
    ensures FoundStep(DefaultData(), resources, d, "GPU") == d
  {
    LowerGpu();
    FindDefault();
  }

  /** Found of the RAM marker with no RAM child and no RAM asset changes nothing. */
  lemma RamWithoutAssetStep(resources: set<string>, panel: Option<PanelState>)
    requires PrefabPath(RamRecord.prefab) !in resources
    ensures FoundStep(DefaultData(), resources, Display([], panel), "Ram") == Display([], panel)
  {
    LowerRam();
    FindDefault();
  }
}
