/** The content table of ARManager: one ComponentData record per marker, and the
    case-insensitive lookup of a marker name in it. */
module Components {
  import opened Wrappers
  import opened Text

  /** One row of the table: the marker name, the title shown in the panel, the
      name of the model asset and the text shown under the title. */
  datatype ComponentData = ComponentData(id: string, name: string, prefab: string, description: string)

  const CpuRecord := ComponentData(
    "CPU", "Processor (CPU)", "CPU_Prefab",
    "CPU adalah otak komputer yang menjalankan instruksi, bertanggung jawab untuk semua pemrosesan utama.")

  const RamRecord := ComponentData(
    "Ram", "RAM", "RAM_Prefab",
    "RAM menyimpan data sementara yang sedang digunakan oleh program. Kecepatan dan kapasitasnya sangat mempengaruhi kinerja.")

  /** The list LoadDefaultData installs. */
  function DefaultData(): seq<ComponentData> {
    [CpuRecord, RamRecord]
  }

  /** The predicate handed to List.Find: the stored id, lower-cased, equals the asked-for id. */
  predicate Matches(c: ComponentData, targetId: string) {
    Lower(c.id) == targetId
  }

  /** List.Find: the first record that matches, or nothing when none does. */
  function Find(cs: seq<ComponentData>, targetId: string): (r: Option<ComponentData>)
    ensures r.None? <==> forall i :: 0 <= i < |cs| ==> !Matches(cs[i], targetId)
    ensures r.Some? ==> exists k :: 0 <= k < |cs| && cs[k] == r.value && Matches(cs[k], targetId)
                                     && forall j :: 0 <= j < k ==> !Matches(cs[j], targetId)
  {
    if cs == [] then None
    else if Matches(cs[0], targetId) then Some(cs[0])
    else
      var r := Find(cs[1..], targetId);
      assert forall i :: 1 <= i < |cs| ==> cs[i] == cs[1..][i - 1];
      r
  }

  /** How a found or lost marker is resolved: its name lower-cased, then Find. */
  function Resolve(cs: seq<ComponentData>, targetName: string): Option<ComponentData> {
    Find(cs, Lower(targetName))
  }

  /** Find is given lower-cased ids by its callers; an id with an upper-case letter matches nothing. */
  lemma FindNeedsLowerTarget(cs: seq<ComponentData>, targetId: string)
    requires !IsLower(targetId)
    ensures Find(cs, targetId) == None
  {
    forall i | 0 <= i < |cs|
      ensures !Matches(cs[i], targetId)
    {
      NotLowerIsNoImage(cs[i].id, targetId);
    }
  }

  /** Two marker names that differ only in case resolve to the same record. */
  lemma ResolveIgnoresCase(cs: seq<ComponentData>, a: string, b: string)
    requires EqualsIgnoreCase(a, b)
    ensures Resolve(cs, a) == Resolve(cs, b)
  {
    LowerEqualIff(a, b);
  }

  /** Resolve stated without lower-casing: it finds nothing exactly when no id equals
      the name up to case, and otherwise the first record whose id does. */
  lemma ResolveIsFirstCaseInsensitiveMatch(cs: seq<ComponentData>, targetName: string)
    ensures Resolve(cs, targetName).None? <==> forall i :: 0 <= i < |cs| ==> !EqualsIgnoreCase(cs[i].id, targetName)
    ensures Resolve(cs, targetName).Some? ==>
      exists k :: 0 <= k < |cs| && cs[k] == Resolve(cs, targetName).value && EqualsIgnoreCase(cs[k].id, targetName)
                  && forall j :: 0 <= j < k ==> !EqualsIgnoreCase(cs[j].id, targetName)
  {
    LowerIdempotent(targetName);
    forall i | 0 <= i < |cs|
      ensures Matches(cs[i], Lower(targetName)) <==> EqualsIgnoreCase(cs[i].id, targetName)
    {
      LowerEqualIff(cs[i].id, targetName);
    }
  }

  lemma LowerCpu()
    ensures Lower("CPU") == "cpu" && Lower("cpu") == "cpu" && Lower("Cpu") == "cpu"
  {
  }

  lemma LowerRam()
    ensures Lower("RAM") == "ram" && Lower("ram") == "ram" && Lower("Ram") == "ram"
  {
  }

  lemma LowerGpu()
    ensures Lower("GPU") == "gpu"
  {
  }

  /** What Find gives on the default table for the lower-cased marker names. */
  lemma FindDefault()
    ensures Find(DefaultData(), "cpu") == Some(CpuRecord)
    ensures Find(DefaultData(), "ram") == Some(RamRecord)
    ensures Find(DefaultData(), "gpu") == None
  {
    LowerCpu();
    LowerRam();
    LowerGpu();
    assert Matches(CpuRecord, "cpu");
    assert !Matches(CpuRecord, "ram") && Matches(RamRecord, "ram");
    assert !Matches(CpuRecord, "gpu") && !Matches(RamRecord, "gpu");
  }

  /** The default table: "CPU", "cpu" and "Cpu" all give the CPU record, "RAM" and
      "ram" the RAM record, and a marker with no row, such as "GPU", nothing. */
  lemma DefaultLookups()
    ensures Resolve(DefaultData(), "CPU") == Some(CpuRecord)
    ensures Resolve(DefaultData(), "cpu") == Some(CpuRecord)
    ensures Resolve(DefaultData(), "Cpu") == Some(CpuRecord)
    ensures Resolve(DefaultData(), "RAM") == Some(RamRecord)
    ensures Resolve(DefaultData(), "ram") == Some(RamRecord)
    ensures Resolve(DefaultData(), "GPU") == None
  {
    LowerCpu();
    LowerRam();
    LowerGpu();
    FindDefault();
  }
}
