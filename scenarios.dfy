/** Whole event sequences on freshly built objects, with the default table. */
module Scenarios {
  import opened Wrappers
  import opened Components
  import opened Info
  import opened Scene
  import opened Display
  import opened ARManagerModel

  /** A woken panel and an AR manager over the given asset store that has loaded its table. */
  method Setup(resources: set<string>) returns (m: ARManager, info: ComponentInfo)
    ensures fresh(m) && fresh(info) && fresh(m.slot)
    ensures m.components == DefaultData() && m.resources == resources && m.slot.instance == info
    ensures !info.panelActive
  {
    var slot := new InfoSlot();
    info := new ComponentInfo(true, "", "");
    info.Awake(slot);
    m := new ARManager(resources, slot);
    m.LoadDefaultData();
  }

  /** The CPU marker is found on an empty anchor and then lost: one active CPU_Prefab
      child and the CPU title appear, then the child is inactive and the panel hidden. */
  method CpuFoundThenLost() returns (afterFound: seq<Child>, title: string, shown: bool,
                                     afterLost: seq<Child>, stillShown: bool)
    ensures afterFound == [Child("CPU_Prefab", true, true)]
    ensures shown && title == "Processor (CPU)"
    ensures afterLost == [Child("CPU_Prefab", false, true)]
    ensures !stillShown
  {
    var m, info := Setup({PrefabPath(CpuRecord.prefab)});
    var anchor := new Anchor("CPU", []);
    CpuFoundThenLostSteps(m.resources, Some(info.State()));
    m.OnTargetFound(anchor);
    afterFound, title, shown := anchor.children, info.titleText, info.panelActive;
    m.OnTargetLost(anchor);
    afterLost, stillShown := anchor.children, info.panelActive;
  }

  /** Two Found events on the same anchor leave one CPU_Prefab child, and the RAM
      anchor, which got no event, keeps its children. */
  method CpuFoundTwice() returns (cpuChildren: seq<Child>, ramChildren: seq<Child>)
    ensures cpuChildren == [Child("CPU_Prefab", true, true)]
    ensures ramChildren == []
  {
    var m, info := Setup({PrefabPath(CpuRecord.prefab)});
    var cpu := new Anchor("CPU", []);
    var ram := new Anchor("Ram", []);
    CpuFoundThenLostSteps(m.resources, Some(info.State()));
    CpuFoundTwiceSteps(m.resources, Some(info.State()));
    m.OnTargetFound(cpu);
    m.OnTargetFound(cpu);
    cpuChildren, ramChildren := cpu.children, ram.children;
  }

  /** A marker with no row, GPU, creates nothing and leaves the panel hidden. */
  method GpuFound() returns (children: seq<Child>, shown: bool)
    ensures children == [] && !shown
  {
    var m, info := Setup({PrefabPath(CpuRecord.prefab), PrefabPath(RamRecord.prefab)});
    var anchor := new Anchor("GPU", []);
    GpuFoundStep(m.resources, Snapshot(anchor, m.slot));
    m.OnTargetFound(anchor);
    children, shown := anchor.children, info.panelActive;
  }

  /** Without the RAM asset in the store, finding RAM creates nothing and does not show the panel. */
  method RamWithoutAsset() returns (children: seq<Child>, shown: bool)
    ensures children == [] && !shown
  {
    var m, info := Setup({PrefabPath(CpuRecord.prefab)});
    var anchor := new Anchor("Ram", []);
    DefaultPathsDiffer();
    RamWithoutAssetStep(m.resources, Some(info.State()));
    m.OnTargetFound(anchor);
    children, shown := anchor.children, info.panelActive;
  }
}
