/**
 * An in-memory stand-in for the relational store the importers write to
 * (the `provider`, `region`, `service` and `sku` tables). Each table keeps
 * its rows in primary-key order and has its own auto-increment counter.
 *
 * The database can fail any call. Which calls fail is given up front as a
 * script, `faults`: each call takes the next entry and fails when it is
 * `true`; once the script is used up, every call succeeds. A failing call
 * changes no table.
 */
module Store {
  import opened Wrappers

  datatype Provider = Provider(id: nat, name: string, disabled: bool)

  datatype Region = Region(id: nat, providerId: nat, code: string, name: string, disabled: bool)

  datatype Service = Service(id: nat, providerId: nat, name: string, disabled: bool)

  datatype Sku = Sku(
    id: nat,
    serviceId: nat,
    regionId: nat,
    armSkuName: string,
    name: string,
    skuType: string,
    skuIdApi: Option<string>,
    skuName: Option<string>,
    productName: Option<string>,
    serviceFamily: Option<string>,
    instanceSku: Option<string>,
    size: string,
    vcpus: int,
    memoryGB: string,
    cpuArchitectureType: string,
    operatingSystem: Option<string>,
    maxNetworkInterfaces: string,
    storage: Option<string>,
    disabled: bool)

  /** The whole store as a value. */
  datatype Tables = Tables(
    providers: seq<Provider>,
    regions: seq<Region>,
    services: seq<Service>,
    skus: seq<Sku>,
    nextProviderId: nat,
    nextRegionId: nat,
    nextServiceId: nat,
    nextSkuId: nat,
    faults: seq<bool>)

  function ProviderId(p: Provider): nat { p.id }
  function RegionId(r: Region): nat { r.id }
  function ServiceId(s: Service): nat { s.id }
  function SkuId(s: Sku): nat { s.id }

  /** Primary keys are positive, below the table's counter, and ascending. */
  predicate IdsOrdered<R>(rows: seq<R>, id: R -> nat, next: nat)
  {
    0 < next &&
    (forall i :: 0 <= i < |rows| ==> 0 < id(rows[i]) < next) &&
    (forall i, j :: 0 <= i < j < |rows| ==> id(rows[i]) < id(rows[j]))
  }

  predicate WellFormed(t: Tables)
  {
    IdsOrdered(t.providers, ProviderId, t.nextProviderId) &&
    IdsOrdered(t.regions, RegionId, t.nextRegionId) &&
    IdsOrdered(t.services, ServiceId, t.nextServiceId) &&
    IdsOrdered(t.skus, SkuId, t.nextSkuId)
  }

  lemma AppendKeepsIdsOrdered<R>(rows: seq<R>, id: R -> nat, next: nat, r: R)
    requires id(r) == next
    ensures IdsOrdered(rows, id, next) ==> IdsOrdered(rows + [r], id, next + 1)
  {
  }

  /** The store before any import has run. */
  function EmptyTables(faults: seq<bool>): (t: Tables)
    ensures WellFormed(t)
  {
    Tables([], [], [], [], 1, 1, 1, 1, faults)
  }

  /** No failure is scripted any more: every call succeeds. */
  predicate Healthy(t: Tables) { t.faults == [] }

  /** Whether the next call fails. */
  predicate Fails(t: Tables) { |t.faults| > 0 && t.faults[0] }

  /** The store after one call has taken its entry of the fault script. */
  function Consume(t: Tables): (t': Tables)
    ensures t'.faults == if |t.faults| > 0 then t.faults[1..] else []
    ensures t' == t.(faults := t'.faults)
    ensures Healthy(t) ==> t' == t
  {
    t.(faults := if |t.faults| > 0 then t.faults[1..] else [])
  }

  /** The first row, in primary-key order, that satisfies `p`. */
  function FirstIndex<R>(rows: seq<R>, p: R -> bool): (r: Option<nat>)
    ensures r.Some? ==> r.value < |rows| && p(rows[r.value])
    ensures r.Some? ==> forall j :: 0 <= j < r.value ==> !p(rows[j])
    ensures r.None? <==> forall j :: 0 <= j < |rows| ==> !p(rows[j])
  {
    if rows == [] then None
    else if p(rows[0]) then Some(0)
    else match FirstIndex(rows[1..], p)
      case None => None
      case Some(i) => Some(i + 1)
  }

  /** `t'` holds the rows and counters of `t`; only the fault script may differ. */
  predicate SameRows(t: Tables, t': Tables)
  {
    t' == t.(faults := t'.faults)
  }

  /** Every table of `t` is a prefix of the same table of `t'`. */
  ghost predicate Extends(t: Tables, t': Tables)
  {
    |t.providers| <= |t'.providers| && t'.providers[..|t.providers|] == t.providers &&
    |t.regions| <= |t'.regions| && t'.regions[..|t.regions|] == t.regions &&
    |t.services| <= |t'.services| && t'.services[..|t.services|] == t.services &&
    |t.skus| <= |t'.skus| && t'.skus[..|t.skus|] == t.skus
  }

  lemma ExtendsTransitive(t1: Tables, t2: Tables, t3: Tables)
    requires Extends(t1, t2) && Extends(t2, t3)
    ensures Extends(t1, t3)
  {
    assert t3.providers[..|t1.providers|] == t3.providers[..|t2.providers|][..|t1.providers|];
    assert t3.regions[..|t1.regions|] == t3.regions[..|t2.regions|][..|t1.regions|];
    assert t3.services[..|t1.services|] == t3.services[..|t2.services|][..|t1.services|];
    assert t3.skus[..|t1.skus|] == t3.skus[..|t2.skus|][..|t1.skus|];
  }

  // ---------------------------------------------------------------------------
  // Natural keys

  predicate HasProviderNamed(ps: seq<Provider>, name: string)
  {
    exists i :: 0 <= i < |ps| && ps[i].name == name
  }

  predicate HasRegionCode(rs: seq<Region>, code: string)
  {
    exists i :: 0 <= i < |rs| && rs[i].code == code
  }

  predicate HasServiceNamed(ss: seq<Service>, name: string)
  {
    exists i :: 0 <= i < |ss| && ss[i].name == name
  }

  predicate ProviderNamesUnique(ps: seq<Provider>)
  {
    forall i, j :: 0 <= i < j < |ps| ==> ps[i].name != ps[j].name
  }

  predicate RegionCodesUnique(rs: seq<Region>)
  {
    forall i, j :: 0 <= i < j < |rs| ==> rs[i].code != rs[j].code
  }

  predicate ServiceNamesUnique(ss: seq<Service>)
  {
    forall i, j :: 0 <= i < j < |ss| ==> ss[i].name != ss[j].name
  }

  /** No two providers share a name, no two regions a code, no two services a name. */
  predicate KeysUnique(t: Tables)
  {
    ProviderNamesUnique(t.providers) && RegionCodesUnique(t.regions) && ServiceNamesUnique(t.services)
  }

  function ProviderNamedAs(name: string): Provider -> bool { (p: Provider) => p.name == name }
  function RegionCodedAs(code: string): Region -> bool { (g: Region) => g.code == code }
  function RegionNamedAs(name: string): Region -> bool { (g: Region) => g.name == name }
  function ServiceNamedAs(name: string): Service -> bool { (s: Service) => s.name == name }

  /** A row found by a lookup or a find-or-create, and whether the call succeeded. */
  datatype Found<R> = Found(tables: Tables, row: R, ok: bool)

  // ---------------------------------------------------------------------------
  // Find-or-create: `Where(<key> = ?).FirstOrCreate(&row)`

  /**
   * Provider find-or-create keyed on the name. On failure the caller's struct
   * comes back as it went in, with the zero primary key.
   */
  function ResolveProvider(t: Tables, name: string): Found<Provider>
  {
    var t1 := Consume(t);
    if Fails(t) then Found(t1, Provider(0, name, false), false)
    else match FirstIndex(t.providers, ProviderNamedAs(name))
      case Some(i) => Found(t1, t.providers[i], true)
      case None =>
        var p := Provider(t.nextProviderId, name, false);
        Found(t1.(providers := t.providers + [p], nextProviderId := t.nextProviderId + 1), p, true)
  }

  /**
   * Region find-or-create keyed on the region code alone. A new region takes
   * the provider, code and name of `want`.
   */
  function ResolveRegion(t: Tables, want: Region): Found<Region>
  {
    var t1 := Consume(t);
    if Fails(t) then Found(t1, want, false)
    else match FirstIndex(t.regions, RegionCodedAs(want.code))
      case Some(i) => Found(t1, t.regions[i], true)
      case None =>
        var g := want.(id := t.nextRegionId);
        Found(t1.(regions := t.regions + [g], nextRegionId := t.nextRegionId + 1), g, true)
  }

  /** Service find-or-create keyed on the service name. */
  function ResolveService(t: Tables, want: Service): Found<Service>
  {
    var t1 := Consume(t);
    if Fails(t) then Found(t1, want, false)
    else match FirstIndex(t.services, ServiceNamedAs(want.name))
      case Some(i) => Found(t1, t.services[i], true)
      case None =>
        var s := want.(id := t.nextServiceId);
        Found(t1.(services := t.services + [s], nextServiceId := t.nextServiceId + 1), s, true)
  }

  /**
   * A provider is created only when none has the name; otherwise the first
   * one, in primary-key order, is returned and the table is left alone. A
   * failing call changes no table and hands back the zero-ID struct.
   */
  lemma ResolveProviderSpec(t: Tables, name: string)
    ensures var r := ResolveProvider(t, name);
      (WellFormed(t) ==> WellFormed(r.tables)) &&
      Extends(t, r.tables) &&
      r.tables == Consume(t).(providers := r.tables.providers, nextProviderId := r.tables.nextProviderId) &&
      r.ok == !Fails(t) &&
      (!r.ok ==> r.tables.providers == t.providers && r.row == Provider(0, name, false)) &&
      (r.ok && HasProviderNamed(t.providers, name) ==>
        r.tables.providers == t.providers &&
        exists i :: 0 <= i < |t.providers| && t.providers[i] == r.row &&
          forall j :: 0 <= j < i ==> t.providers[j].name != name) &&
      (r.ok && !HasProviderNamed(t.providers, name) ==>
        r.tables.providers == t.providers + [r.row] &&
        r.row == Provider(t.nextProviderId, name, false)) &&
      (r.ok ==> r.row.name == name && HasProviderNamed(r.tables.providers, name)) &&
      r.tables.nextProviderId ==
        (if r.ok && !HasProviderNamed(t.providers, name) then t.nextProviderId + 1 else t.nextProviderId)
  {
    var p := Provider(t.nextProviderId, name, false);
    AppendKeepsIdsOrdered(t.providers, ProviderId, t.nextProviderId, p);
    assert (t.providers + [p])[|t.providers|] == p;
  }

  /**
   * A region is keyed on its code alone: one already stored under the code is
   * returned as it is, whatever its name or provider. A new region takes the
   * next ID and the provider, code and name of `want`.
   */
  lemma ResolveRegionSpec(t: Tables, want: Region)
    ensures var r := ResolveRegion(t, want);
      (WellFormed(t) ==> WellFormed(r.tables)) &&
      Extends(t, r.tables) &&
      r.tables == Consume(t).(regions := r.tables.regions, nextRegionId := r.tables.nextRegionId) &&
      r.ok == !Fails(t) &&
      (!r.ok ==> r.tables.regions == t.regions && r.row == want) &&
      (r.ok && HasRegionCode(t.regions, want.code) ==>
        r.tables.regions == t.regions &&
        exists i :: 0 <= i < |t.regions| && t.regions[i] == r.row &&
          forall j :: 0 <= j < i ==> t.regions[j].code != want.code) &&
      (r.ok && !HasRegionCode(t.regions, want.code) ==>
        r.tables.regions == t.regions + [r.row] &&
        r.row == want.(id := t.nextRegionId)) &&
      (r.ok ==> r.row.code == want.code && HasRegionCode(r.tables.regions, want.code)) &&
      r.tables.nextRegionId ==
        (if r.ok && !HasRegionCode(t.regions, want.code) then t.nextRegionId + 1 else t.nextRegionId)
  {
    var g := want.(id := t.nextRegionId);
    AppendKeepsIdsOrdered(t.regions, RegionId, t.nextRegionId, g);
    assert (t.regions + [g])[|t.regions|] == g;
  }

  /** A service is created only when none has the name; otherwise the first one is returned. */
  lemma ResolveServiceSpec(t: Tables, want: Service)
    ensures var r := ResolveService(t, want);
      (WellFormed(t) ==> WellFormed(r.tables)) &&
      Extends(t, r.tables) &&
      r.tables == Consume(t).(services := r.tables.services, nextServiceId := r.tables.nextServiceId) &&
      r.ok == !Fails(t) &&
      (!r.ok ==> r.tables.services == t.services && r.row == want) &&
      (r.ok && HasServiceNamed(t.services, want.name) ==>
        r.tables.services == t.services &&
        exists i :: 0 <= i < |t.services| && t.services[i] == r.row &&
          forall j :: 0 <= j < i ==> t.services[j].name != want.name) &&
      (r.ok && !HasServiceNamed(t.services, want.name) ==>
        r.tables.services == t.services + [r.row] &&
        r.row == want.(id := t.nextServiceId)) &&
      (r.ok ==> r.row.name == want.name && HasServiceNamed(r.tables.services, want.name)) &&
      r.tables.nextServiceId ==
        (if r.ok && !HasServiceNamed(t.services, want.name) then t.nextServiceId + 1 else t.nextServiceId)
  {
    var s := want.(id := t.nextServiceId);
    AppendKeepsIdsOrdered(t.services, ServiceId, t.nextServiceId, s);
    assert (t.services + [s])[|t.services|] == s;
  }

  // ---------------------------------------------------------------------------
  // Plain lookups and insert: `Where(...).First(&row)` and `Create(&sku)`

  predicate HasRegionNamed(rs: seq<Region>, name: string)
  {
    exists i :: 0 <= i < |rs| && rs[i].name == name
  }

  /** The first service with this name; `None` when there is none or the call fails. */
  function ServiceNamed(t: Tables, name: string): (Tables, Option<Service>)
  {
    if Fails(t) then (Consume(t), None)
    else match FirstIndex(t.services, ServiceNamedAs(name))
      case Some(i) => (Consume(t), Some(t.services[i]))
      case None => (Consume(t), None)
  }

  /** The first region with this name (not code); `None` when there is none or the call fails. */
  function RegionNamed(t: Tables, name: string): (Tables, Option<Region>)
  {
    if Fails(t) then (Consume(t), None)
    else match FirstIndex(t.regions, RegionNamedAs(name))
      case Some(i) => (Consume(t), Some(t.regions[i]))
      case None => (Consume(t), None)
  }

  /** A lookup finds the first row with the name, in primary-key order, unless the call fails. */
  lemma LookupSpec(t: Tables, name: string)
    ensures var r := ServiceNamed(t, name);
      r.0 == Consume(t) &&
      (r.1.Some? <==> !Fails(t) && HasServiceNamed(t.services, name)) &&
      (r.1.Some? ==>
        exists i :: 0 <= i < |t.services| && t.services[i] == r.1.value && r.1.value.name == name &&
          forall j :: 0 <= j < i ==> t.services[j].name != name)
    ensures var r := RegionNamed(t, name);
      r.0 == Consume(t) &&
      (r.1.Some? <==> !Fails(t) && HasRegionNamed(t.regions, name)) &&
      (r.1.Some? ==>
        exists i :: 0 <= i < |t.regions| && t.regions[i] == r.1.value && r.1.value.name == name &&
          forall j :: 0 <= j < i ==> t.regions[j].name != name)
  {
  }

  /**
   * Insert a sku under the next primary key. No key is checked, so the same
   * sku can be stored many times. A failing call stores nothing.
   */
  function InsertSku(t: Tables, sku: Sku): Tables
  {
    if Fails(t) then Consume(t)
    else Consume(t).(skus := t.skus + [sku.(id := t.nextSkuId)], nextSkuId := t.nextSkuId + 1)
  }

  lemma InsertSkuSpec(t: Tables, sku: Sku)
    ensures var t' := InsertSku(t, sku);
      (WellFormed(t) ==> WellFormed(t')) &&
      Extends(t, t') &&
      t' == Consume(t).(skus := t'.skus, nextSkuId := t'.nextSkuId) &&
      (Fails(t) ==> t'.skus == t.skus) &&
      (!Fails(t) ==> t'.skus == t.skus + [sku.(id := t.nextSkuId)])
  {
    AppendKeepsIdsOrdered(t.skus, SkuId, t.nextSkuId, sku.(id := t.nextSkuId));
  }

  /** A natural key once stored stays stored: tables only grow. */
  lemma ExtendsKeepsKeys(t: Tables, t': Tables)
    requires Extends(t, t')
    ensures forall name :: HasProviderNamed(t.providers, name) ==> HasProviderNamed(t'.providers, name)
    ensures forall code :: HasRegionCode(t.regions, code) ==> HasRegionCode(t'.regions, code)
    ensures forall name :: HasServiceNamed(t.services, name) ==> HasServiceNamed(t'.services, name)
  {
    forall name | HasProviderNamed(t.providers, name)
      ensures HasProviderNamed(t'.providers, name)
    {
      var i :| 0 <= i < |t.providers| && t.providers[i].name == name;
      assert t'.providers[i] == t'.providers[..|t.providers|][i];
    }
    forall code | HasRegionCode(t.regions, code)
      ensures HasRegionCode(t'.regions, code)
    {
      var i :| 0 <= i < |t.regions| && t.regions[i].code == code;
      assert t'.regions[i] == t'.regions[..|t.regions|][i];
    }
    forall name | HasServiceNamed(t.services, name)
      ensures HasServiceNamed(t'.services, name)
    {
      var i :| 0 <= i < |t.services| && t.services[i].name == name;
      assert t'.services[i] == t'.services[..|t.services|][i];
    }
  }

  /** The invariant the store object keeps: ordered primary keys and unique natural keys. */
  predicate Consistent(t: Tables)
  {
    WellFormed(t) && KeysUnique(t)
  }

  lemma ResolveProviderKeepsConsistent(t: Tables, name: string)
    requires Consistent(t)
    ensures Consistent(ResolveProvider(t, name).tables)
  {
    ResolveProviderSpec(t, name);
  }

  lemma ResolveRegionKeepsConsistent(t: Tables, want: Region)
    requires Consistent(t)
    ensures Consistent(ResolveRegion(t, want).tables)
  {
    ResolveRegionSpec(t, want);
  }

  lemma ResolveServiceKeepsConsistent(t: Tables, want: Service)
    requires Consistent(t)
    ensures Consistent(ResolveService(t, want).tables)
  {
    ResolveServiceSpec(t, want);
  }

  /**
   * Find-or-create never makes a second row with the same natural key, so a
   * store whose keys are unique keeps them unique.
   */
  lemma ResolveKeepsKeysUnique(t: Tables, name: string, region: Region, service: Service)
    requires KeysUnique(t)
    ensures KeysUnique(ResolveProvider(t, name).tables)
    ensures KeysUnique(ResolveRegion(t, region).tables)
    ensures KeysUnique(ResolveService(t, service).tables)
  {
    ResolveProviderSpec(t, name);
    ResolveRegionSpec(t, region);
    ResolveServiceSpec(t, service);
  }

  // ---------------------------------------------------------------------------
  // The store object the importers write through (`config.DB`)

  class Db {
    var providers: seq<Provider>
    var regions: seq<Region>
    var services: seq<Service>
    var skus: seq<Sku>
    var nextProviderId: nat
    var nextRegionId: nat
    var nextServiceId: nat
    var nextSkuId: nat
    var faults: seq<bool>

    function State(): Tables
      reads this
    {
      Tables(providers, regions, services, skus,
             nextProviderId, nextRegionId, nextServiceId, nextSkuId, faults)
    }

    /**
     * Primary keys are ordered, and no two providers share a name, no two
     * regions a code and no two services a name.
     */
    ghost predicate Valid()
      reads this
    {
      Consistent(State())
    }

    /** An empty store whose calls fail as `faults` says. */
    constructor (faults: seq<bool>)
      ensures Valid() && State() == EmptyTables(faults)
    {
      providers, regions, services, skus := [], [], [], [];
      nextProviderId, nextRegionId, nextServiceId, nextSkuId := 1, 1, 1, 1;
      this.faults := faults;
    }

    /** Takes the next entry of the fault script: whether this call fails. */
    method NextCallFails() returns (fails: bool)
      modifies this`faults
      ensures fails == Fails(old(State()))
      ensures State() == Consume(old(State()))
    {
      fails := |faults| > 0 && faults[0];
      faults := if |faults| > 0 then faults[1..] else [];
    }

    method FirstOrCreateProvider(name: string) returns (row: Provider, ok: bool)
      requires Valid()
      modifies this
      ensures Valid()
      ensures Found(State(), row, ok) == ResolveProvider(old(State()), name)
    {
      ResolveProviderKeepsConsistent(State(), name);
      var fails := NextCallFails();
      if fails {
        return Provider(0, name, false), false;
      }
      var i := FirstIndex(providers, ProviderNamedAs(name));
      if i.Some? {
        return providers[i.value], true;
      }
      row, ok := Provider(nextProviderId, name, false), true;
      providers, nextProviderId := providers + [row], nextProviderId + 1;
    }

    method FirstOrCreateRegion(want: Region) returns (row: Region, ok: bool)
      requires Valid()
      modifies this
      ensures Valid()
      ensures Found(State(), row, ok) == ResolveRegion(old(State()), want)
    {
      ResolveRegionKeepsConsistent(State(), want);
      var fails := NextCallFails();
      if fails {
        return want, false;
      }
      var i := FirstIndex(regions, RegionCodedAs(want.code));
      if i.Some? {
        return regions[i.value], true;
      }
      row, ok := want.(id := nextRegionId), true;
      regions, nextRegionId := regions + [row], nextRegionId + 1;
    }

    method FirstOrCreateService(want: Service) returns (row: Service, ok: bool)
      requires Valid()
      modifies this
      ensures Valid()
      ensures Found(State(), row, ok) == ResolveService(old(State()), want)
    {
      ResolveServiceKeepsConsistent(State(), want);
      var fails := NextCallFails();
      if fails {
        return want, false;
      }
      var i := FirstIndex(services, ServiceNamedAs(want.name));
      if i.Some? {
        return services[i.value], true;
      }
      row, ok := want.(id := nextServiceId), true;
      services, nextServiceId := services + [row], nextServiceId + 1;
    }

    method FirstServiceNamed(name: string) returns (row: Option<Service>)
      requires Valid()
      modifies this
      ensures Valid()
      ensures (State(), row) == ServiceNamed(old(State()), name)
    {
      var fails := NextCallFails();
      if fails {
        return None;
      }
      var i := FirstIndex(services, ServiceNamedAs(name));
      row := if i.Some? then Some(services[i.value]) else None;
    }

    method FirstRegionNamed(name: string) returns (row: Option<Region>)
      requires Valid()
      modifies this
      ensures Valid()
      ensures (State(), row) == RegionNamed(old(State()), name)
    {
      var fails := NextCallFails();
      if fails {
        return None;
      }
      var i := FirstIndex(regions, RegionNamedAs(name));
      row := if i.Some? then Some(regions[i.value]) else None;
    }

    method CreateSku(sku: Sku)
      requires Valid()
      modifies this
      ensures Valid()
      ensures State() == InsertSku(old(State()), sku)
    {
      InsertSkuSpec(State(), sku);
      var fails := NextCallFails();
      if !fails {
        skus, nextSkuId := skus + [sku.(id := nextSkuId)], nextSkuId + 1;
      }
    }
  }
}
