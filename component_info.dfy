/** The info panel: a ComponentInfo behaviour with a panel that is shown or
    hidden and two text fields, registered in a process-wide singleton slot. */
module Info {
  import opened Components

  /** What the panel shows: whether it is active, its title and its description. */
  datatype PanelState = PanelState(visible: bool, title: string, description: string)

  /** The panel after ShowInfo(data). */
  function Shown(p: PanelState, data: ComponentData): PanelState {
    PanelState(true, data.name, data.description)
  }

  /** The panel after HideInfo(). */
  function Hidden(p: PanelState): PanelState {
    p.(visible := false)
  }

  /** ShowInfo makes the panel visible with the record's name as title and its description. */
  lemma ShownShowsRecord(p: PanelState, data: ComponentData)
    ensures Shown(p, data).visible
    ensures Shown(p, data).title == data.name && Shown(p, data).description == data.description
  {
  }

  /** ShowInfo overwrites everything: what was shown before does not matter. */
  lemma ShownForgetsPrevious(p: PanelState, q: PanelState, data: ComponentData)
    ensures Shown(p, data) == Shown(q, data)
  {
  }

  /** HideInfo hides the panel and keeps the title and description. */
  lemma HiddenKeepsText(p: PanelState)
    ensures !Hidden(p).visible
    ensures Hidden(p).title == p.title && Hidden(p).description == p.description
  {
  }

  lemma ShownIdempotent(p: PanelState, data: ComponentData)
    ensures Shown(Shown(p, data), data) == Shown(p, data)
  {
  }

  lemma HiddenIdempotent(p: PanelState)
    ensures Hidden(Hidden(p)) == Hidden(p)
  {
  }

  /** The static field ComponentInfo.Instance, which is null until some panel wakes up. */
  class InfoSlot {
    var instance: ComponentInfo?

    constructor ()
      ensures instance == null
    {
      instance := null;
    }
  }

  class ComponentInfo {
    var panelActive: bool
    var titleText: string
    var descriptionText: string

    function State(): PanelState
      reads this
    {
      PanelState(panelActive, titleText, descriptionText)
    }

    /** The behaviour as the scene authors it: any panel state, any texts. */
    constructor (panelActive: bool, titleText: string, descriptionText: string)
      ensures State() == PanelState(panelActive, titleText, descriptionText)
    {
      this.panelActive := panelActive;
      this.titleText := titleText;
      this.descriptionText := descriptionText;
    }

    /** Registers this behaviour as the singleton and hides its panel. */
    method Awake(slot: InfoSlot)
      modifies this, slot
      ensures slot.instance == this
      ensures State() == Hidden(old(State()))
    {
      slot.instance := this;
      panelActive := false;
    }

    method ShowInfo(data: ComponentData)
      modifies this
      ensures State() == Shown(old(State()), data)
    {
      panelActive := true;
      titleText := data.name;
      descriptionText := data.description;
    }

    method HideInfo()
      modifies this
      ensures State() == Hidden(old(State()))
    {
      panelActive := false;
    }
  }
}
