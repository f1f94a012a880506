/**
 * The two steps of the SKU importer that read the SKU catalog: finding the
 * catalog entry for a price item, and reading four hardware capabilities out
 * of that entry's `{name, value}` list.
 */
module Catalog {
  import opened Wrappers
  import opened Json
  import opened Strconv

  // ---------------------------------------------------------------------------
  // Matching a price item to a catalog entry

  /**
   * A catalog entry or capability entry that is an object whose `name` is
   * `name` ("" when it has none).
   */
  predicate NamedEntry(e: JVal, name: string)
  {
    e.JObj? && StrField(e.fields, "name") == name
  }

  /**
   * The first catalog entry, in catalog order, that is an object named
   * `name`; entries that are not objects are passed over.
   */
  function FirstMatch(catalog: seq<JVal>, name: string): (r: Option<Obj>)
    ensures r.Some? <==> exists i :: 0 <= i < |catalog| && NamedEntry(catalog[i], name)
    ensures r.Some? ==>
      exists i :: 0 <= i < |catalog| && NamedEntry(catalog[i], name) && catalog[i].fields == r.value &&
        forall j :: 0 <= j < i ==> !NamedEntry(catalog[j], name)
  {
    if catalog == [] then None
    else if NamedEntry(catalog[0], name) then Some(catalog[0].fields)
    else
      var r := FirstMatch(catalog[1..], name);
      assert forall i :: 1 <= i < |catalog| ==> catalog[i] == catalog[1..][i - 1];
      r
  }

  /** The matching loop: scan the catalog, stop at the first entry named `name`. */
  method FindMatch(catalog: seq<JVal>, name: string) returns (matched: Option<Obj>)
    ensures matched.Some? <==> exists i :: 0 <= i < |catalog| && NamedEntry(catalog[i], name)
    ensures matched.Some? ==> StrField(matched.value, "name") == name
    ensures matched == FirstMatch(catalog, name)
  {
    matched := None;
    var i := 0;
    while i < |catalog|
      invariant 0 <= i <= |catalog|
      invariant forall j :: 0 <= j < i ==> !NamedEntry(catalog[j], name)
    {
      if catalog[i].JObj? {
        var (entryName, _) := SafeString(Get(catalog[i].fields, "name"));
        if entryName == name {
          matched := Some(catalog[i].fields);
          return;
        }
      }
      i := i + 1;
    }
  }

  // ---------------------------------------------------------------------------
  // Capabilities

  /** The four capabilities a Sku row keeps; each is 0 or "" until seen. */
  datatype Capabilities = Capabilities(
    vcpus: int,
    memoryGB: string,
    cpuArchitectureType: string,
    maxNetworkInterfaces: string)

  const NoCapabilities: Capabilities := Capabilities(0, "", "", "")

  /** The four fields, by the capability name that sets each one. */
  datatype Slot = VCpusSlot | MemorySlot | ArchitectureSlot | NicsSlot

  function SlotName(s: Slot): string
  {
    match s
    case VCpusSlot => "vCPUs"
    case MemorySlot => "MemoryGB"
    case ArchitectureSlot => "CpuArchitectureType"
    case NicsSlot => "MaxNetworkInterfaces"
  }

  datatype SlotValue = Count(n: int) | Text(s: string)

  /** The field of `c` that slot `s` names. */
  function At(c: Capabilities, s: Slot): SlotValue
  {
    match s
    case VCpusSlot => Count(c.vcpus)
    case MemorySlot => Text(c.memoryGB)
    case ArchitectureSlot => Text(c.cpuArchitectureType)
    case NicsSlot => Text(c.maxNetworkInterfaces)
  }

  /**
   * What an entry for slot `s` writes: `atoi` of the value for `vCPUs`, the
   * value itself (or "" when it is not a string) for the other three.
   */
  function Written(s: Slot, o: Obj): SlotValue
  {
    match s
    case VCpusSlot => Count(Atoi(StrField(o, "value")))
    case _ => Text(StrField(o, "value"))
  }

  /** A capability entry that makes the loop panic: `vCPUs` with a non-string value. */
  predicate Panics(e: JVal)
  {
    NamedEntry(e, "vCPUs") && !Get(e.fields, "value").JStr?
  }

  /**
   * One pass of the capability loop. A `vCPUs` entry whose `value` is not a
   * string makes the unchecked type assertion panic: `None`. Otherwise the
   * entry overwrites the slot it names and leaves the other three alone;
   * entries that are not objects or name no slot change nothing.
   */
  function ReadCapability(acc: Capabilities, e: JVal): (r: Option<Capabilities>)
    ensures r.None? <==> Panics(e)
    ensures r.Some? ==> forall s :: At(r.value, s) ==
                                    (if NamedEntry(e, SlotName(s)) then Written(s, e.fields) else At(acc, s))
  {
    if !e.JObj? then Some(acc)
    else
      var o := e.fields;
      match StrField(o, "name")
      case "vCPUs" =>
        (match Get(o, "value")
         case JStr(s) => Some(acc.(vcpus := Atoi(s)))
         case _ => None)
      case "MemoryGB" => Some(acc.(memoryGB := StrField(o, "value")))
      case "CpuArchitectureType" => Some(acc.(cpuArchitectureType := StrField(o, "value")))
      case "MaxNetworkInterfaces" => Some(acc.(maxNetworkInterfaces := StrField(o, "value")))
      case _ => Some(acc)
  }

  /** The capability loop over `entries`, starting from `acc`. */
  function ReadCapabilities(acc: Capabilities, entries: seq<JVal>): (r: Option<Capabilities>)
    decreases |entries|
  {
    if entries == [] then Some(acc)
    else match ReadCapability(acc, entries[0])
      case None => None
      case Some(next) => ReadCapabilities(next, entries[1..])
  }

  /**
   * The capabilities of a matched catalog entry: all zero values when
   * `capabilities` is absent or not an array.
   */
  function SkuCapabilities(sku: Obj): (r: Option<Capabilities>)
    ensures !Get(sku, "capabilities").JArr? ==> r == Some(NoCapabilities)
  {
    match Get(sku, "capabilities")
    case JArr(entries) => ReadCapabilities(NoCapabilities, entries)
    case _ => Some(NoCapabilities)
  }

  /** The capability loop as the importer runs it, over four accumulators. */
  method ExtractCapabilities(sku: Obj) returns (caps: Option<Capabilities>)
    ensures caps == SkuCapabilities(sku)
  {
    var vcpus := 0;
    var memoryGB, cpuArchitectureType, maxNetworkInterfaces := "", "", "";
    if Get(sku, "capabilities").JArr? {
      var entries := Get(sku, "capabilities").items;
      for i := 0 to |entries|
        invariant ReadCapabilities(NoCapabilities, entries) ==
          ReadCapabilities(Capabilities(vcpus, memoryGB, cpuArchitectureType, maxNetworkInterfaces), entries[i..])
      {
        assert entries[i..][1..] == entries[i + 1..];
        if !entries[i].JObj? {
          continue;
        }
        var capability := entries[i].fields;
        var (capName, _) := SafeString(Get(capability, "name"));
        if capName == "vCPUs" {
          if !Get(capability, "value").JStr? {
            return None;
          }
          vcpus := Atoi(Get(capability, "value").s);
        } else if capName == "MemoryGB" {
          memoryGB := SafeString(Get(capability, "value")).0;
        } else if capName == "CpuArchitectureType" {
          cpuArchitectureType := SafeString(Get(capability, "value")).0;
        } else if capName == "MaxNetworkInterfaces" {
          maxNetworkInterfaces := SafeString(Get(capability, "value")).0;
        }
      }
    }
    caps := Some(Capabilities(vcpus, memoryGB, cpuArchitectureType, maxNetworkInterfaces));
  }

  /** A slot that no entry names keeps the value it started with. */
  lemma {:induction false} UnnamedSlotKeeps(acc: Capabilities, entries: seq<JVal>, s: Slot)
    requires forall i :: 0 <= i < |entries| ==> !NamedEntry(entries[i], SlotName(s))
    requires ReadCapabilities(acc, entries).Some?
    ensures At(ReadCapabilities(acc, entries).value, s) == At(acc, s)
    decreases |entries|
  {
    if entries != [] {
      var next := ReadCapability(acc, entries[0]).value;
      UnnamedSlotKeeps(next, entries[1..], s);
    }
  }

  /** The last entry that names a slot decides its value: later duplicates overwrite earlier ones. */
  lemma {:induction false} LastEntryWins(acc: Capabilities, entries: seq<JVal>, s: Slot, i: nat)
    requires i < |entries| && NamedEntry(entries[i], SlotName(s))
    requires forall j :: i < j < |entries| ==> !NamedEntry(entries[j], SlotName(s))
    requires ReadCapabilities(acc, entries).Some?
    ensures At(ReadCapabilities(acc, entries).value, s) == Written(s, entries[i].fields)
    decreases |entries|
  {
    var next := ReadCapability(acc, entries[0]).value;
    if i == 0 {
      UnnamedSlotKeeps(next, entries[1..], s);
    } else {
      LastEntryWins(next, entries[1..], s, i - 1);
    }
  }

  /** The loop panics exactly when some `vCPUs` entry has a value that is not a string. */
  lemma {:induction false} CapabilitiesPanicIff(acc: Capabilities, entries: seq<JVal>)
    ensures ReadCapabilities(acc, entries).None? <==> exists i :: 0 <= i < |entries| && Panics(entries[i])
    decreases |entries|
  {
    if entries != [] {
      if !Panics(entries[0]) {
        CapabilitiesPanicIff(ReadCapability(acc, entries[0]).value, entries[1..]);
        assert forall i :: 1 <= i < |entries| ==> entries[i] == entries[1..][i - 1];
      }
    }
  }

  /**
   * Reading a catalog entry's capabilities panics exactly when its
   * `capabilities` is an array holding a `vCPUs` entry with a non-string value.
   */
  lemma SkuCapabilitiesPanicIff(sku: Obj)
    ensures SkuCapabilities(sku).None? <==>
            Get(sku, "capabilities").JArr? &&
            exists i :: 0 <= i < |Get(sku, "capabilities").items| && Panics(Get(sku, "capabilities").items[i])
  {
    if Get(sku, "capabilities").JArr? {
      CapabilitiesPanicIff(NoCapabilities, Get(sku, "capabilities").items);
    }
  }

  /** A `vCPUs` value that is not a number is read as 0, not as an error. */
  lemma VcpusNotANumber()
    ensures SkuCapabilities(map["capabilities" := JArr([JObj(map["name" := JStr("vCPUs"), "value" := JStr("notanumber")])])])
            == Some(NoCapabilities)
  {
    AtoiExamples();
    var e := JObj(map["name" := JStr("vCPUs"), "value" := JStr("notanumber")]);
    assert ReadCapability(NoCapabilities, e) == Some(NoCapabilities);
    assert [e][1..] == [];
  }
}
