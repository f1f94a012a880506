/**
 * `ImportSkuData`: load the environment, fetch the SKU catalog of the
 * subscription, then page through the retail price feed and store one `Sku`
 * row for every price item that names a catalog entry, with the hardware
 * capabilities of that entry. Items that cannot be used are skipped; a page
 * counter pauses the import after every batch of ten pages.
 */
module SkuImport {
  import opened Wrappers
  import opened Json
  import opened Store
  import opened Paging
  import opened Catalog

  /**
   * What the importer reads before its first request: whether the `.env`
   * file loaded, `AZURE_SUBSCRIPTION_ID`, and the bearer token (`None` when
   * it could not be obtained).
   */
  datatype Environment = Environment(envLoaded: bool, subscriptionId: string, token: Option<string>)

  /** The SKU catalog of a subscription. */
  function CatalogUrl(subscriptionId: string): (url: string)
    ensures |url| > 43 + |subscriptionId|
    ensures url[..43] == "https://management.azure.com/subscriptions/"
    ensures url[43..43 + |subscriptionId|] == subscriptionId
  {
    "https://management.azure.com/subscriptions/" + subscriptionId +
    "/providers/Microsoft.Compute/skus?api-version=2024-07-01"
  }

  /**
   * The row stored for price item `o` matched to catalog entry `m`: names and
   * size from the catalog, type and descriptive fields from the price item,
   * and no instance SKU, operating system or storage.
   */
  function NewSku(o: Obj, m: Obj, caps: Capabilities, serviceId: nat, regionId: nat): Sku
  {
    Sku(0, serviceId, regionId,
        StrField(o, "armSkuName"), StrField(m, "name"), StrField(o, "type"),
        Some(StrField(o, "skuId")), Some(StrField(o, "skuName")),
        Some(StrField(o, "productName")), Some(StrField(o, "serviceFamily")),
        None, StrField(m, "size"),
        caps.vcpus, caps.memoryGB, caps.cpuArchitectureType,
        None, caps.maxNetworkInterfaces, None, false)
  }

  /** Why a price item is passed over without touching the store. */
  predicate Skipped(catalog: seq<JVal>, item: JVal)
  {
    !item.JObj? ||
    !HasStr(item.fields, "armSkuName") ||
    !HasStr(item.fields, "type") ||
    FirstMatch(catalog, StrField(item.fields, "armSkuName")).None?
  }

  /**
   * One price item. Skipped items change nothing; a matched entry whose
   * capabilities panic stops the run; otherwise the service and the region
   * are looked up (skipping the item when either is missing or the lookup
   * fails) and the sku is inserted.
   */
  function SkuItem(t: Tables, catalog: seq<JVal>, item: JVal): Pass
  {
    if Skipped(catalog, item) then Pass(t, false)
    else
      var o := item.fields;
      var m := FirstMatch(catalog, StrField(o, "armSkuName")).value;
      match SkuCapabilities(m)
      case None => Pass(t, true)
      case Some(caps) =>
        var (t1, service) := ServiceNamed(t, ServiceName);
        if service.None? then Pass(t1, false)
        else
          var (t2, region) := RegionNamed(t1, StrField(o, "armRegionName"));
          if region.None? then Pass(t2, false)
          else Pass(InsertSku(t2, NewSku(o, m, caps, service.value.id, region.value.id)), false)
  }

  /** The items of one page, in order, up to the first panic. */
  function SkuItems(t: Tables, catalog: seq<JVal>, items: seq<JVal>): Pass
    decreases |items|
  {
    if items == [] then Pass(t, false)
    else
      var first := SkuItem(t, catalog, items[0]);
      if first.panicked then first
      else SkuItems(first.tables, catalog, items[1..])
  }

  function SkuPage(catalog: seq<JVal>): (Tables, seq<JVal>) -> Pass
  {
    (t: Tables, items: seq<JVal>) => SkuItems(t, catalog, items)
  }

  /** The catalog entries, or the error that stops the import before any price page. */
  function CatalogEntries(env: Environment, catalogApi: string -> FetchResult): Result
  {
    if !env.envLoaded then Failure(EnvFileNotLoaded)
    else if env.subscriptionId == "" then Failure(NoSubscriptionId)
    else if env.token.None? then Failure(TokenFailed)
    else match catalogApi(CatalogUrl(env.subscriptionId))
      case FetchFailed => Failure(CatalogFetchFailed)
      case Fetched(doc) =>
        match Get(doc, "value")
        case JArr(entries) => Success(entries)
        case _ => Failure(CatalogMalformed)
  }

  datatype Result = Success(entries: seq<JVal>) | Failure(error: ImportError)

  /** A whole `ImportSkuData` run. */
  function SkuRun(t: Tables, env: Environment, catalogApi: string -> FetchResult,
                  pages: seq<FetchResult>): Run
  {
    match CatalogEntries(env, catalogApi)
    case Failure(e) => Run(Aborted(e), t, [], 0)
    case Success(catalog) => Walk(t, PriceApiUrl, pages, SkuPage(catalog))
  }

  /** The catalog entry an item that is not skipped is matched to. */
  function MatchOf(catalog: seq<JVal>, item: JVal): Obj
    requires !Skipped(catalog, item)
  {
    FirstMatch(catalog, StrField(item.fields, "armSkuName")).value
  }

  /**
   * The item stores a row: it is not skipped, its capabilities do not panic,
   * and the service lookup, the region lookup and the insert all succeed.
   */
  predicate Inserts(t: Tables, catalog: seq<JVal>, item: JVal)
  {
    !Skipped(catalog, item) && SkuCapabilities(MatchOf(catalog, item)).Some? &&
    !Fails(t) && HasServiceNamed(t.services, ServiceName) &&
    !Fails(Consume(t)) && HasRegionNamed(t.regions, StrField(item.fields, "armRegionName")) &&
    !Fails(Consume(Consume(t)))
  }

  /** An item never touches providers, regions or services, and only appends skus. */
  lemma SkuItemKeepsOthers(t: Tables, catalog: seq<JVal>, item: JVal)
    ensures var p := SkuItem(t, catalog, item);
      p.tables.providers == t.providers && p.tables.regions == t.regions && p.tables.services == t.services &&
      p.tables.nextProviderId == t.nextProviderId && p.tables.nextRegionId == t.nextRegionId &&
      p.tables.nextServiceId == t.nextServiceId &&
      Extends(t, p.tables) && (WellFormed(t) ==> WellFormed(p.tables))
  {
    if !Skipped(catalog, item) && SkuCapabilities(MatchOf(catalog, item)).Some? {
      var o := item.fields;
      var m := MatchOf(catalog, item);
      var (t1, service) := ServiceNamed(t, ServiceName);
      var (t2, region) := RegionNamed(t1, StrField(o, "armRegionName"));
      if service.Some? && region.Some? {
        InsertSkuSpec(t2, NewSku(o, m, SkuCapabilities(m).value, service.value.id, region.value.id));
      }
    }
  }

  /**
   * An item panics exactly when it is not skipped and the capabilities of
   * its catalog entry hold a `vCPUs` entry whose value is not a string.
   */
  lemma SkuItemPanicIff(t: Tables, catalog: seq<JVal>, item: JVal)
    ensures SkuItem(t, catalog, item).panicked <==>
      !Skipped(catalog, item) &&
      var caps := Get(MatchOf(catalog, item), "capabilities");
      caps.JArr? && exists i :: 0 <= i < |caps.items| && Panics(caps.items[i])
  {
    if !Skipped(catalog, item) {
      SkuCapabilitiesPanicIff(MatchOf(catalog, item));
    }
  }

  /**
   * A row is stored exactly when `Inserts` holds. It is the first catalog
   * entry named by the item's `armSkuName`, joined with the first
   * "Virtual Machines" service and the first region named by the item's
   * `armRegionName`, and it takes that entry's capabilities.
   */
  lemma SkuItemInsertsIff(t: Tables, catalog: seq<JVal>, item: JVal)
    ensures var p := SkuItem(t, catalog, item);
      (|p.tables.skus| == |t.skus| + 1 <==> Inserts(t, catalog, item)) &&
      (!Inserts(t, catalog, item) ==> p.tables.skus == t.skus) &&
      (Inserts(t, catalog, item) ==>
        var o := item.fields;
        var m := MatchOf(catalog, item);
        var s := p.tables.skus[|t.skus|];
        p.tables.skus == t.skus + [s] &&
        s.id == t.nextSkuId &&
        s.name == s.armSkuName == StrField(o, "armSkuName") &&
        s.skuType == StrField(o, "type") &&
        s.size == StrField(m, "size") &&
        Some(Capabilities(s.vcpus, s.memoryGB, s.cpuArchitectureType, s.maxNetworkInterfaces)) == SkuCapabilities(m) &&
        s.skuIdApi == Some(StrField(o, "skuId")) &&
        s.skuName == Some(StrField(o, "skuName")) &&
        s.productName == Some(StrField(o, "productName")) &&
        s.serviceFamily == Some(StrField(o, "serviceFamily")) &&
        s.instanceSku.None? && s.operatingSystem.None? && s.storage.None? && !s.disabled &&
        (exists i :: 0 <= i < |t.services| && t.services[i].id == s.serviceId &&
          t.services[i].name == ServiceName &&
          forall j :: 0 <= j < i ==> t.services[j].name != ServiceName) &&
        (exists i :: 0 <= i < |t.regions| && t.regions[i].id == s.regionId &&
          t.regions[i].name == StrField(o, "armRegionName") &&
          forall j :: 0 <= j < i ==> t.regions[j].name != StrField(o, "armRegionName")))
  {
    if !Skipped(catalog, item) && SkuCapabilities(MatchOf(catalog, item)).Some? {
      var o := item.fields;
      var m := MatchOf(catalog, item);
      LookupSpec(t, ServiceName);
      var (t1, service) := ServiceNamed(t, ServiceName);
      LookupSpec(t1, StrField(o, "armRegionName"));
      var (t2, region) := RegionNamed(t1, StrField(o, "armRegionName"));
      if service.Some? && region.Some? {
        InsertSkuSpec(t2, NewSku(o, m, SkuCapabilities(m).value, service.value.id, region.value.id));
      }
    }
  }

  /** Skus have no natural key: importing the same item again stores a second row. */
  lemma SkuItemTwice(t: Tables, catalog: seq<JVal>, item: JVal)
    requires Healthy(t) && Inserts(t, catalog, item)
    ensures |SkuItem(SkuItem(t, catalog, item).tables, catalog, item).tables.skus| == |t.skus| + 2
  {
    var p := SkuItem(t, catalog, item);
    SkuItemInsertsIff(t, catalog, item);
    SkuItemKeepsOthers(t, catalog, item);
    SkuItemInsertsIff(p.tables, catalog, item);
  }

  /** A page panics exactly when one of its items panics on the store the items before it left. */
  lemma {:induction false} SkuItemsPanicAt(t: Tables, catalog: seq<JVal>, items: seq<JVal>)
    ensures SkuItems(t, catalog, items).panicked <==>
            exists i :: 0 <= i < |items| && SkuItem(SkuItems(t, catalog, items[..i]).tables, catalog, items[i]).panicked
    decreases |items|
  {
    if items != [] {
      var first := SkuItem(t, catalog, items[0]);
      assert items[..0] == [];
      if !first.panicked {
        SkuItemsPanicAt(first.tables, catalog, items[1..]);
        forall i | 1 <= i <= |items| ensures SkuItems(t, catalog, items[..i]) == SkuItems(first.tables, catalog, items[1..][..i - 1]) {
          assert items[..i][0] == items[0];
          assert items[..i][1..] == items[1..][..i - 1];
        }
        forall i | 1 <= i < |items| ensures items[i] == items[1..][i - 1] { }
        assert forall i :: 1 <= i < |items| ==>
          SkuItem(SkuItems(t, catalog, items[..i]).tables, catalog, items[i]) ==
          SkuItem(SkuItems(first.tables, catalog, items[1..][..i - 1]).tables, catalog, items[1..][i - 1]);
      }
    }
  }

  /** A page never touches providers, regions or services, and panics at its first panicking item. */
  lemma {:induction false} SkuItemsKeepOthers(t: Tables, catalog: seq<JVal>, items: seq<JVal>)
    ensures var p := SkuItems(t, catalog, items);
      p.tables.providers == t.providers && p.tables.regions == t.regions && p.tables.services == t.services &&
      Extends(t, p.tables) && (WellFormed(t) ==> WellFormed(p.tables)) &&
      (p.panicked <==> exists i :: 0 <= i < |items| && SkuItem(SkuItems(t, catalog, items[..i]).tables, catalog, items[i]).panicked)
    decreases |items|
  {
    SkuItemsPanicAt(t, catalog, items);
    if items != [] {
      var first := SkuItem(t, catalog, items[0]);
      SkuItemKeepsOthers(t, catalog, items[0]);
      if !first.panicked {
        SkuItemsKeepOthers(first.tables, catalog, items[1..]);
        ExtendsTransitive(t, first.tables, SkuItems(first.tables, catalog, items[1..]).tables);
      }
    }
  }


  /** Without a "Virtual Machines" service no item of a page stores a row. */
  lemma {:induction false} SkuItemsWithoutService(t: Tables, catalog: seq<JVal>, items: seq<JVal>)
    requires !HasServiceNamed(t.services, ServiceName)
    ensures SkuItems(t, catalog, items).tables.skus == t.skus
    ensures SkuItems(t, catalog, items).tables.services == t.services
    decreases |items|
  {
    if items != [] {
      var first := SkuItem(t, catalog, items[0]);
      SkuItemInsertsIff(t, catalog, items[0]);
      SkuItemKeepsOthers(t, catalog, items[0]);
      if !first.panicked {
        SkuItemsWithoutService(first.tables, catalog, items[1..]);
      }
    }
  }

  /**
   * The SKU importer fails before its first price request exactly when the
   * environment, the token or the catalog is unusable; it then leaves the
   * store as it was.
   */
  lemma SkuRunSetupFailure(t: Tables, env: Environment, catalogApi: string -> FetchResult,
                           pages: seq<FetchResult>)
    ensures var r := SkuRun(t, env, catalogApi, pages);
      ((r.outcome.Aborted? && r.outcome.error !in {PriceFetchFailed, PriceItemsMalformed}) <==>
        CatalogEntries(env, catalogApi).Failure?) &&
      (CatalogEntries(env, catalogApi).Failure? ==> r.requested == [] && r.tables == t)
    ensures CatalogEntries(env, catalogApi).Failure? <==>
      !env.envLoaded || env.subscriptionId == "" || env.token.None? ||
      catalogApi(CatalogUrl(env.subscriptionId)).FetchFailed? ||
      !Get(catalogApi(CatalogUrl(env.subscriptionId)).doc, "value").JArr?
  {
    if CatalogEntries(env, catalogApi).Success? {
      WalkAbortsOnPage(t, PriceApiUrl, pages, SkuPage(CatalogEntries(env, catalogApi).entries));
    }
  }

  /**
   * The SKU importer only adds skus: providers, regions and services are
   * read, never written, so `ImportData` must have run first.
   */
  lemma SkuRunKeepsOthers(t: Tables, env: Environment, catalogApi: string -> FetchResult,
                          pages: seq<FetchResult>)
    ensures var t' := SkuRun(t, env, catalogApi, pages).tables;
      t'.providers == t.providers && t'.regions == t.regions && t'.services == t.services &&
      Extends(t, t')
  {
    if CatalogEntries(env, catalogApi).Success? {
      var catalog := CatalogEntries(env, catalogApi).entries;
      var inv := (t': Tables) => t'.providers == t.providers && t'.regions == t.regions && t'.services == t.services;
      forall t': Tables, items: seq<JVal> | inv(t') ensures inv(SkuPage(catalog)(t', items).tables) {
        SkuItemsKeepOthers(t', catalog, items);
      }
      WalkKeeps(t, PriceApiUrl, pages, SkuPage(catalog), inv);
      forall t': Tables, items: seq<JVal> ensures Extends(t', SkuPage(catalog)(t', items).tables) {
        SkuItemsKeepOthers(t', catalog, items);
      }
      WalkExtends(t, PriceApiUrl, pages, SkuPage(catalog));
    }
  }

  /** Run before `ImportData` has created the "Virtual Machines" service, the SKU importer stores nothing. */
  lemma SkuRunWithoutService(t: Tables, env: Environment, catalogApi: string -> FetchResult,
                             pages: seq<FetchResult>)
    requires !HasServiceNamed(t.services, ServiceName)
    ensures SkuRun(t, env, catalogApi, pages).tables.skus == t.skus
  {
    if CatalogEntries(env, catalogApi).Success? {
      var catalog := CatalogEntries(env, catalogApi).entries;
      var inv := (t': Tables) => t'.services == t.services && t'.skus == t.skus;
      forall t': Tables, items: seq<JVal> | inv(t') ensures inv(SkuPage(catalog)(t', items).tables) {
        SkuItemsWithoutService(t', catalog, items);
      }
      WalkKeeps(t, PriceApiUrl, pages, SkuPage(catalog), inv);
    }
  }

  /** The item loop of one page. */
  method ImportSkuItems(db: Db, catalog: seq<JVal>, items: seq<JVal>) returns (panicked: bool)
    requires db.Valid()
    modifies db
    ensures db.Valid()
    ensures Pass(db.State(), panicked) == SkuItems(old(db.State()), catalog, items)
  {
    for i := 0 to |items|
      invariant db.Valid()
      invariant SkuItems(old(db.State()), catalog, items) == SkuItems(db.State(), catalog, items[i..])
    {
      assert items[i..][1..] == items[i + 1..];
      if !items[i].JObj? {
        continue;
      }
      var priceItem := items[i].fields;
      var (armSkuName, okArm) := SafeString(Get(priceItem, "armSkuName"));
      if !okArm {
        continue;
      }
      var (_, okType) := SafeString(Get(priceItem, "type"));
      if !okType {
        continue;
      }
      var matched := FindMatch(catalog, armSkuName);
      if matched.None? {
        continue;
      }
      var caps := ExtractCapabilities(matched.value);
      if caps.None? {
        return true;
      }
      var service := db.FirstServiceNamed(ServiceName);
      if service.None? {
        continue;
      }
      var region := db.FirstRegionNamed(StrField(priceItem, "armRegionName"));
      if region.None? {
        continue;
      }
      db.CreateSku(NewSku(priceItem, matched.value, caps.value, service.value.id, region.value.id));
    }
    panicked := false;
  }

  /**
   * The imperative importer, proved to do what `SkuRun` says. It also counts
   * the pauses between batches: one after every tenth finished page.
   */
  method ImportSkuData(db: Db, env: Environment, catalogApi: string -> FetchResult,
                       pages: seq<FetchResult>)
    returns (outcome: Outcome, requested: seq<string>, pauses: nat)
    requires db.Valid()
    modifies db
    ensures db.Valid()
    ensures var r := SkuRun(old(db.State()), env, catalogApi, pages);
            outcome == r.outcome && db.State() == r.tables && requested == r.requested &&
            pauses == r.pagesDone / BatchSize
  {
    requested, pauses := [], 0;
    if !env.envLoaded {
      return Aborted(EnvFileNotLoaded), requested, pauses;
    }
    if env.subscriptionId == "" {
      return Aborted(NoSubscriptionId), requested, pauses;
    }
    if env.token.None? {
      return Aborted(TokenFailed), requested, pauses;
    }
    var skuData := catalogApi(CatalogUrl(env.subscriptionId));
    if skuData.FetchFailed? {
      return Aborted(CatalogFetchFailed), requested, pauses;
    }
    if !Get(skuData.doc, "value").JArr? {
      return Aborted(CatalogMalformed), requested, pauses;
    }
    var skuItems := Get(skuData.doc, "value").items;
    outcome, requested, pauses := ImportPricePages(db, skuItems, pages);
  }

  /**
   * One price page: check the fetch, read `Items`, and import its items.
   * The result and the new store are those of `Visit`.
   */
  method ImportPricePage(db: Db, skuItems: seq<JVal>, url: string, response: FetchResult)
    returns (outcome: Outcome)
    requires db.Valid()
    modifies db
    ensures db.Valid()
    ensures var v := Visit(old(db.State()), url, response, SkuPage(skuItems));
            outcome == v.outcome && db.State() == v.tables
    ensures outcome.Completed? ==> response.Fetched?
  {
    if response.FetchFailed? {
      return Aborted(PriceFetchFailed);
    }
    var priceItems := PageItems(response.doc);
    if priceItems.None? {
      return Aborted(PriceItemsMalformed);
    }
    var panicked := ImportSkuItems(db, skuItems, priceItems.value);
    outcome := if panicked then Panicked else Completed;
  }

  /**
   * Count a finished page; a full batch resets the counter and pauses. After
   * `done + 1` pages the counter is where `Ticks` puts it.
   */
  method CountPage(pageCount: nat, pauses: nat, ghost done: nat) returns (pageCount': nat, pauses': nat)
    requires pageCount < BatchSize && Throttle(pageCount, pauses) == Ticks(done)
    ensures pageCount' < BatchSize && Throttle(pageCount', pauses') == Ticks(done + 1)
  {
    pageCount', pauses' := pageCount + 1, pauses;
    if pageCount' >= BatchSize {
      pageCount' := 0;
      pauses' := pauses' + 1;
    }
  }

  /** The pagination loop over the price feed, with the batch counter. */
  method ImportPricePages(db: Db, skuItems: seq<JVal>, pages: seq<FetchResult>)
    returns (outcome: Outcome, requested: seq<string>, pauses: nat)
    requires db.Valid()
    modifies db
    ensures db.Valid()
    ensures var r := Walk(old(db.State()), PriceApiUrl, pages, SkuPage(skuItems));
            outcome == r.outcome && db.State() == r.tables && requested == r.requested &&
            pauses == r.pagesDone / BatchSize
  {
    outcome, requested, pauses := Completed, [], 0;
    ghost var goal := Walk(db.State(), PriceApiUrl, pages, SkuPage(skuItems));
    ghost var done := 0;
    var nextPageUrl := PriceApiUrl;
    var pageCount: nat := 0;
    var k := 0;
    assert pages[k..] == pages;
    while nextPageUrl != ""
      invariant db.Valid()
      invariant outcome == Completed
      invariant k <= |pages| && |requested| == k
      invariant pageCount < BatchSize && Throttle(pageCount, pauses) == Ticks(done)
      invariant nextPageUrl != "" ==>
        goal == Resume(requested, done, Walk(db.State(), nextPageUrl, pages[k..], SkuPage(skuItems)))
      invariant nextPageUrl == "" ==> goal == Run(Completed, db.State(), requested, done)
      decreases |pages| - k
    {
      if k == |pages| {
        assert requested + [] == requested;
        outcome := OutOfResponses;
        break;
      }
      var response := pages[k];
      assert pages[k..][0] == response && pages[k..][1..] == pages[k + 1..];
      VisitStep(goal, requested, done, db.State(), nextPageUrl, pages[k..], SkuPage(skuItems));
      var pageOutcome := ImportPricePage(db, skuItems, nextPageUrl, response);
      requested, k := requested + [nextPageUrl], k + 1;
      if !pageOutcome.Completed? {
        outcome := pageOutcome;
        break;
      }
      pageCount, pauses := CountPage(pageCount, pauses, done);
      nextPageUrl := NextLink(response.doc);
      done := done + 1;
    }
    TicksCount(done);
  }
}
