/** ARManager: holds the content table and reacts to a marker being found or
    lost by activating, creating or deactivating the model under the marker's
    anchor and by showing or hiding the info panel. */
module ARManagerModel {
  import opened Wrappers
  import opened Text
  import opened Components
  import opened Info
  import opened Scene
  import opened Display

  /** The observer behaviour of one image target: its marker name and the
      transform whose children the controller manages. */
  class Anchor {
    const targetName: string
    var children: seq<Child>

    constructor (targetName: string, children: seq<Child>)
      ensures this.targetName == targetName && this.children == children
    {
      this.targetName := targetName;
      this.children := children;
    }
  }

  /** The state one event can see: the anchor's children and the singleton panel. */
  function Snapshot(anchor: Anchor, slot: InfoSlot): Display
    reads anchor, slot, slot.instance
  {
    Display(anchor.children, if slot.instance == null then None else Some(slot.instance.State()))
  }

  class ARManager {
    var components: seq<ComponentData>
    /** The paths Resources.Load can load. */
    const resources: set<string>
    /** Where ComponentInfo.Instance lives. */
    const slot: InfoSlot

    /** A fresh behaviour: its component list starts empty. */
    constructor (resources: set<string>, slot: InfoSlot)
      ensures components == [] && this.resources == resources && this.slot == slot
    {
      components := [];
      this.resources := resources;
      this.slot := slot;
    }

    /** Replaces the table by the two default records. */
    method LoadDefaultData()
      modifies this
      ensures components == DefaultData()
    {
      components := [CpuRecord, RamRecord];
    }

    /** Finds or creates the model for `targetId` under `anchor` and shows the
        panel, or deactivates the model; a missing record or asset stops early. */
    method ShowComponentForTarget(anchor: Anchor, targetId: string, show: bool)
      modifies anchor, slot.instance
      ensures Snapshot(anchor, slot) == Step(components, resources, old(Snapshot(anchor, slot)), targetId, show)
    {
      var found := Find(components, targetId);
      if found.None? {
        return;
      }
      var data := found.value;
      var existing := FindChild(anchor.children, data.prefab);
      if show {
        if existing.Some? {
          anchor.children := SetActive(anchor.children, existing.value, true);
        } else {
          if PrefabFolder + data.prefab !in resources {
            return;
          }
          var go := |anchor.children|;
          anchor.children := anchor.children + [Child(data.prefab + CloneSuffix, true, false)];
          anchor.children := anchor.children[go := anchor.children[go].(name := data.prefab)];
          anchor.children := anchor.children[go := anchor.children[go].(transformReset := true)];
        }
        if slot.instance != null {
          slot.instance.ShowInfo(data);
        }
      } else {
        if existing.Some? {
          anchor.children := SetActive(anchor.children, existing.value, false);
        }
      }
    }

    /** The Found callback, given the anchor that fired it. */
    method OnTargetFound(anchor: Anchor)
      modifies anchor, slot.instance
      ensures Snapshot(anchor, slot) == FoundStep(components, resources, old(Snapshot(anchor, slot)), anchor.targetName)
    {
      var targetId := Lower(anchor.targetName);
      ShowComponentForTarget(anchor, targetId, true);
    }

    /** The Lost callback, given the anchor that fired it: hide the model, then
        hide the panel whatever the lookup found. */
    method OnTargetLost(anchor: Anchor)
      modifies anchor, slot.instance
      ensures Snapshot(anchor, slot) == LostStep(components, resources, old(Snapshot(anchor, slot)), anchor.targetName)
    {
      var targetId := Lower(anchor.targetName);
      ShowComponentForTarget(anchor, targetId, false);
      if slot.instance != null {
        slot.instance.HideInfo();
      }
    }
  }
}
