/** The part of the scene graph the controller touches: the direct children of
    a marker's anchor, each with a name, an active flag and whether its local
    transform has been reset to the origin, identity rotation and 0.3 scale. */
module Scene {
  import opened Wrappers

  datatype Child = Child(name: string, active: bool, transformReset: bool)

  /** Transform.Find on a plain name: the first direct child with exactly that name. */
  function FindChild(children: seq<Child>, name: string): (r: Option<nat>)
    ensures r.None? <==> forall j :: 0 <= j < |children| ==> children[j].name != name
    ensures r.Some? ==> r.value < |children| && children[r.value].name == name
                        && forall j :: 0 <= j < r.value ==> children[j].name != name
  {
    if children == [] then None
    else if children[0].name == name then Some(0)
    else
      match FindChild(children[1..], name)
      case None => None
      case Some(i) => Some(i + 1)
  }

  /** How many direct children carry the name. */
  function CountNamed(children: seq<Child>, name: string): nat {
    if children == [] then 0
    else (if children[0].name == name then 1 else 0) + CountNamed(children[1..], name)
  }

  /** GameObject.SetActive on the i-th child. */
  function SetActive(children: seq<Child>, i: nat, active: bool): (r: seq<Child>)
    requires i < |children|
  {
    children[i := children[i].(active := active)]
  }

  /** A name is counted exactly when Transform.Find sees it. */
  lemma {:induction false} CountZeroIffAbsent(children: seq<Child>, name: string)
    ensures CountNamed(children, name) == 0 <==> FindChild(children, name).None?
  {
    if children != [] {
      CountZeroIffAbsent(children[1..], name);
    }
  }

  /** Flipping an active flag keeps every name and every count. */
  lemma {:induction false} SetActiveKeepsCount(children: seq<Child>, i: nat, active: bool, name: string)
    requires i < |children|
    ensures CountNamed(SetActive(children, i, active), name) == CountNamed(children, name)
  {
    if i > 0 {
      SetActiveKeepsCount(children[1..], i - 1, active, name);
      assert SetActive(children, i, active)[1..] == SetActive(children[1..], i - 1, active);
    }
  }

  /** Flipping an active flag does not change what Transform.Find returns. */
  lemma SetActiveKeepsFind(children: seq<Child>, i: nat, active: bool, name: string)
    requires i < |children|
    ensures FindChild(SetActive(children, i, active), name) == FindChild(children, name)
  {
    var s := SetActive(children, i, active);
    assert forall j :: 0 <= j < |s| ==> s[j].name == children[j].name;
  }

  /** Appending a child adds one to its name's count and nothing to any other. */
  lemma {:induction false} CountAppend(children: seq<Child>, c: Child, name: string)
    ensures CountNamed(children + [c], name) == CountNamed(children, name) + (if c.name == name then 1 else 0)
  {
    if children == [] {
      assert [c][1..] == [];
    } else {
      assert (children + [c])[1..] == children[1..] + [c];
      CountAppend(children[1..], c, name);
    }
  }

  /** After appending a child with a name no earlier child has, Find returns the new one. */
  lemma FindAppendedNew(children: seq<Child>, c: Child)
    requires FindChild(children, c.name).None?
    ensures FindChild(children + [c], c.name) == Some(|children|)
  {
    var s := children + [c];
    var r := FindChild(s, c.name);
    assert s[|children|].name == c.name;
    assert r.Some?;
    assert r.value <= |children|;
  }
}
