/**
 * `ImportData`: page through the retail price feed and, for every price
 * item, find or create the provider "Azure", the item's region (keyed by its
 * `location`) and the service "Virtual Machines". Store errors are logged
 * and the item's remaining steps still run.
 */
module DataImport {
  import opened Json
  import opened Store
  import opened Paging

  const ProviderName: string := "Azure"

  /**
   * One price item. The item is cast to an object without a check, so any
   * other value panics. A provider that could not be resolved leaves the
   * zero provider ID in the region and service that follow.
   */
  function DataItem(t: Tables, item: JVal): Pass
  {
    if !item.JObj? then Pass(t, true)
    else
      var o := item.fields;
      var provider := ResolveProvider(t, ProviderName);
      var region := ResolveRegion(provider.tables,
        Region(0, provider.row.id, StrField(o, "location"), StrField(o, "armRegionName"), false));
      var service := ResolveService(region.tables, Service(0, provider.row.id, ServiceName, false));
      Pass(service.tables, false)
  }

  /** The items of one page, in order, up to the first panic. */
  function DataItems(t: Tables, items: seq<JVal>): Pass
    decreases |items|
  {
    if items == [] then Pass(t, false)
    else
      var first := DataItem(t, items[0]);
      if first.panicked then first
      else DataItems(first.tables, items[1..])
  }

  /**
   * An item panics exactly when it is not an object; otherwise it only adds
   * rows to providers, regions and services and never touches the skus.
   */
  lemma DataItemSpec(t: Tables, item: JVal)
    ensures var p := DataItem(t, item);
      (p.panicked <==> !item.JObj?) &&
      Extends(t, p.tables) &&
      (WellFormed(t) ==> WellFormed(p.tables)) &&
      p.tables.skus == t.skus
  {
    if item.JObj? {
      var o := item.fields;
      var provider := ResolveProvider(t, ProviderName);
      ResolveProviderSpec(t, ProviderName);
      var want := Region(0, provider.row.id, StrField(o, "location"), StrField(o, "armRegionName"), false);
      var region := ResolveRegion(provider.tables, want);
      ResolveRegionSpec(provider.tables, want);
      var svc := Service(0, provider.row.id, ServiceName, false);
      ResolveServiceSpec(region.tables, svc);
      ExtendsTransitive(t, provider.tables, region.tables);
      ExtendsTransitive(t, region.tables, ResolveService(region.tables, svc).tables);
    }
  }

  /** A page panics exactly when one of its items is not an object. */
  lemma {:induction false} DataItemsSpec(t: Tables, items: seq<JVal>)
    ensures var p := DataItems(t, items);
      (p.panicked <==> exists i :: 0 <= i < |items| && !items[i].JObj?) &&
      Extends(t, p.tables) &&
      (WellFormed(t) ==> WellFormed(p.tables)) &&
      p.tables.skus == t.skus
    decreases |items|
  {
    if items != [] {
      var first := DataItem(t, items[0]);
      DataItemSpec(t, items[0]);
      if !first.panicked {
        DataItemsSpec(first.tables, items[1..]);
        assert forall i :: 1 <= i < |items| ==> items[i] == items[1..][i - 1];
        ExtendsTransitive(t, first.tables, DataItems(first.tables, items[1..]).tables);
      }
    }
  }

  /** The rows an object item asks for are all in the store. */
  predicate ItemCovered(t: Tables, item: JVal)
  {
    item.JObj? &&
    HasProviderNamed(t.providers, ProviderName) &&
    HasRegionCode(t.regions, StrField(item.fields, "location")) &&
    HasServiceNamed(t.services, ServiceName)
  }

  /** Every item up to the first non-object one is covered. */
  predicate Covered(t: Tables, items: seq<JVal>)
    decreases |items|
  {
    items == [] || !items[0].JObj? || (ItemCovered(t, items[0]) && Covered(t, items[1..]))
  }

  /** After an object item, on a store that does not fail, its rows exist. */
  lemma DataItemCovers(t: Tables, item: JVal)
    requires Healthy(t) && item.JObj?
    ensures ItemCovered(DataItem(t, item).tables, item)
    ensures Healthy(DataItem(t, item).tables)
  {
    var o := item.fields;
    var provider := ResolveProvider(t, ProviderName);
    ResolveProviderSpec(t, ProviderName);
    var want := Region(0, provider.row.id, StrField(o, "location"), StrField(o, "armRegionName"), false);
    var region := ResolveRegion(provider.tables, want);
    ResolveRegionSpec(provider.tables, want);
    var svc := Service(0, provider.row.id, ServiceName, false);
    ResolveServiceSpec(region.tables, svc);
  }

  /**
   * An item whose rows exist changes no table, whichever of its three store
   * calls fail: each call only takes its entry of the fault script.
   */
  lemma CoveredItemStable(t: Tables, item: JVal)
    requires ItemCovered(t, item)
    ensures DataItem(t, item) == Pass(Consume(Consume(Consume(t))), false)
    ensures Healthy(t) ==> DataItem(t, item) == Pass(t, false)
  {
    var o := item.fields;
    var provider := ResolveProvider(t, ProviderName);
    ResolveProviderSpec(t, ProviderName);
    var want := Region(0, provider.row.id, StrField(o, "location"), StrField(o, "armRegionName"), false);
    ResolveRegionSpec(provider.tables, want);
    ResolveServiceSpec(ResolveRegion(provider.tables, want).tables, Service(0, provider.row.id, ServiceName, false));
  }

  lemma {:induction false} CoveredMonotone(t: Tables, t': Tables, items: seq<JVal>)
    requires Extends(t, t') && Covered(t, items)
    ensures Covered(t', items)
    decreases |items|
  {
    ExtendsKeepsKeys(t, t');
    if items != [] && items[0].JObj? {
      CoveredMonotone(t, t', items[1..]);
    }
  }

  /** A page processed on a store that does not fail leaves all its items covered. */
  lemma {:induction false} DataItemsCover(t: Tables, items: seq<JVal>)
    requires Healthy(t)
    ensures Covered(DataItems(t, items).tables, items)
    ensures Healthy(DataItems(t, items).tables)
    decreases |items|
  {
    if items != [] && items[0].JObj? {
      var first := DataItem(t, items[0]);
      DataItemSpec(t, items[0]);
      DataItemCovers(t, items[0]);
      DataItemsCover(first.tables, items[1..]);
      DataItemsSpec(first.tables, items[1..]);
      ExtendsKeepsKeys(first.tables, DataItems(first.tables, items[1..]).tables);
    }
  }

  /**
   * A covered page changes no table, whichever store calls fail; on a store
   * that does not fail it changes nothing at all.
   */
  lemma {:induction false} CoveredItemsStable(t: Tables, items: seq<JVal>)
    requires Covered(t, items)
    ensures SameRows(t, DataItems(t, items).tables)
    ensures Healthy(t) ==> DataItems(t, items).tables == t
    decreases |items|
  {
    if items != [] && items[0].JObj? {
      CoveredItemStable(t, items[0]);
      var t1 := Consume(Consume(Consume(t)));
      CoveredMonotone(t, t1, items[1..]);
      CoveredItemsStable(t1, items[1..]);
    }
  }

  /**
   * Processing a page twice in a row is processing it once. The first pass
   * must run on a store that does not fail; the second adds no rows and
   * panics as the first did, whichever of its calls fail (script `f`).
   */
  lemma DataItemsTwice(t: Tables, items: seq<JVal>, f: seq<bool>)
    requires Healthy(t)
    ensures DataItems(DataItems(t, items).tables, items) == DataItems(t, items)
    ensures var p := DataItems(t, items);
            var q := DataItems(p.tables.(faults := f), items);
            q.panicked == p.panicked && SameRows(p.tables, q.tables)
  {
    var p := DataItems(t, items);
    var u := p.tables.(faults := f);
    DataItemsCover(t, items);
    CoveredItemsStable(p.tables, items);
    CoveredMonotone(p.tables, u, items);
    CoveredItemsStable(u, items);
    DataItemsSpec(t, items);
    DataItemsSpec(p.tables, items);
    DataItemsSpec(u, items);
  }

  /** Processing a page only adds rows and never breaks the uniqueness of natural keys. */
  lemma {:induction false} DataItemsKeepKeysUnique(t: Tables, items: seq<JVal>)
    requires KeysUnique(t)
    ensures KeysUnique(DataItems(t, items).tables)
    decreases |items|
  {
    if items != [] && items[0].JObj? {
      var o := items[0].fields;
      var provider := ResolveProvider(t, ProviderName);
      ResolveKeepsKeysUnique(t, ProviderName, Region(0, 0, "", "", false), Service(0, 0, "", false));
      var want := Region(0, provider.row.id, StrField(o, "location"), StrField(o, "armRegionName"), false);
      var svc := Service(0, provider.row.id, ServiceName, false);
      ResolveKeepsKeysUnique(provider.tables, ProviderName, want, svc);
      ResolveKeepsKeysUnique(ResolveRegion(provider.tables, want).tables, ProviderName, want, svc);
      DataItemsKeepKeysUnique(DataItem(t, items[0]).tables, items[1..]);
    }
  }

  /**
   * When the provider lookup fails, the region and service the item creates
   * carry provider ID 0: the error is logged and the zero-ID struct is used.
   */
  lemma ProviderFailureOrphans(t: Tables, item: JVal)
    requires Fails(t) && !Fails(Consume(t)) && !Fails(Consume(Consume(t))) && item.JObj?
    requires !HasRegionCode(t.regions, StrField(item.fields, "location"))
    requires !HasServiceNamed(t.services, ServiceName)
    ensures var t' := DataItem(t, item).tables;
      t'.providers == t.providers &&
      t'.regions == t.regions + [Region(t.nextRegionId, 0, StrField(item.fields, "location"),
                                        StrField(item.fields, "armRegionName"), false)] &&
      t'.services == t.services + [Service(t.nextServiceId, 0, ServiceName, false)]
  {
    var o := item.fields;
    ResolveProviderSpec(t, ProviderName);
    var provider := ResolveProvider(t, ProviderName);
    var want := Region(0, 0, StrField(o, "location"), StrField(o, "armRegionName"), false);
    ResolveRegionSpec(provider.tables, want);
    ResolveServiceSpec(ResolveRegion(provider.tables, want).tables, Service(0, 0, ServiceName, false));
  }

  /**
   * A new region takes its code from `location`, its name from
   * `armRegionName` and its provider from the "Azure" row.
   */
  lemma NewRegionFromItem(t: Tables, item: JVal)
    requires Healthy(t) && item.JObj?
    requires !HasRegionCode(t.regions, StrField(item.fields, "location"))
    ensures var t' := DataItem(t, item).tables;
      |t'.regions| == |t.regions| + 1 &&
      var g := t'.regions[|t.regions|];
      g.id == t.nextRegionId &&
      g.code == StrField(item.fields, "location") &&
      g.name == StrField(item.fields, "armRegionName") &&
      exists i :: 0 <= i < |t'.providers| && t'.providers[i].name == ProviderName && t'.providers[i].id == g.providerId
  {
    var o := item.fields;
    ResolveProviderSpec(t, ProviderName);
    var provider := ResolveProvider(t, ProviderName);
    assert provider.row in provider.tables.providers;
    var want := Region(0, provider.row.id, StrField(o, "location"), StrField(o, "armRegionName"), false);
    ResolveRegionSpec(provider.tables, want);
    ResolveServiceSpec(ResolveRegion(provider.tables, want).tables, Service(0, provider.row.id, ServiceName, false));
  }

  function DataPage(): (Tables, seq<JVal>) -> Pass
  {
    (t: Tables, items: seq<JVal>) => DataItems(t, items)
  }

  /** A whole `ImportData` run over the fetcher's responses. */
  function DataRun(t: Tables, pages: seq<FetchResult>): Run
  {
    Walk(t, PriceApiUrl, pages, DataPage())
  }

  /**
   * Natural keys stay unique over a whole run: importing a feed in which many
   * items share a region never creates a second "Azure" provider, a second
   * region with the same code or a second "Virtual Machines" service.
   */
  lemma DataRunKeepsKeysUnique(t: Tables, pages: seq<FetchResult>)
    requires KeysUnique(t)
    ensures KeysUnique(DataRun(t, pages).tables)
  {
    var inv := (t': Tables) => KeysUnique(t');
    forall t': Tables, items: seq<JVal> | inv(t') ensures inv(DataPage()(t', items).tables) {
      DataItemsKeepKeysUnique(t', items);
    }
    WalkKeeps(t, PriceApiUrl, pages, DataPage(), inv);
  }

  /**
   * A run from `url` on a store that does not fail, then the same run on any
   * store `u` holding its rows: the second fetches the same URLs, ends the
   * same way and changes no table, whichever of its calls fail.
   */
  lemma {:induction false} WalkRerun(t: Tables, u: Tables, url: string, pages: seq<FetchResult>)
    requires url != "" && Healthy(t)
    requires Extends(Walk(t, url, pages, DataPage()).tables, u)
    ensures var r := Walk(t, url, pages, DataPage());
            var r2 := Walk(u, url, pages, DataPage());
            r2.outcome == r.outcome && r2.requested == r.requested && r2.pagesDone == r.pagesDone &&
            SameRows(u, r2.tables)
    decreases |pages|
  {
    if pages != [] && pages[0].Fetched? && PageItems(pages[0].doc).Some? {
      var doc := pages[0].doc;
      var items := PageItems(doc).value;
      var p := DataItems(t, items);
      var q := DataItems(u, items);
      DataItemsCover(t, items);
      DataItemsSpec(t, items);
      DataItemsSpec(u, items);
      if !p.panicked && NextLink(doc) != "" {
        var rest := Walk(p.tables, NextLink(doc), pages[1..], DataPage());
        DataRunExtendsFrom(p.tables, NextLink(doc), pages[1..]);
        ExtendsTransitive(p.tables, rest.tables, u);
        CoveredMonotone(p.tables, u, items);
        CoveredItemsStable(u, items);
        assert Extends(rest.tables, q.tables);
        WalkRerun(p.tables, q.tables, NextLink(doc), pages[1..]);
      } else {
        CoveredMonotone(p.tables, u, items);
        CoveredItemsStable(u, items);
      }
    }
  }

  /** A run from any link only adds rows. */
  lemma DataRunExtendsFrom(t: Tables, url: string, pages: seq<FetchResult>)
    requires url != ""
    ensures Extends(t, Walk(t, url, pages, DataPage()).tables)
  {
    forall t': Tables, items: seq<JVal> ensures Extends(t', DataPage()(t', items).tables) {
      DataItemsSpec(t', items);
    }
    WalkExtends(t, url, pages, DataPage());
  }

  /**
   * Importing is idempotent once an import has run on a store that does not
   * fail: running the import again over the same responses, whichever of its
   * store calls fail (script `f`), fetches the same URLs, ends the same way
   * and changes no table. With no failures it changes nothing at all.
   */
  lemma DataRunRerun(t: Tables, pages: seq<FetchResult>, f: seq<bool>)
    requires Healthy(t)
    ensures var r := DataRun(t, pages);
            DataRun(r.tables, pages) == r
    ensures var r := DataRun(t, pages);
            var r2 := DataRun(r.tables.(faults := f), pages);
            r2.outcome == r.outcome && r2.requested == r.requested && r2.pagesDone == r.pagesDone &&
            SameRows(r.tables, r2.tables)
  {
    var r := DataRun(t, pages);
    DataRunExtendsFrom(t, PriceApiUrl, pages);
    WalkHealthy(t, PriceApiUrl, pages);
    WalkRerun(t, r.tables, PriceApiUrl, pages);
    WalkHealthy(r.tables, PriceApiUrl, pages);
    var u := r.tables.(faults := f);
    assert Extends(r.tables, u);
    WalkRerun(t, u, PriceApiUrl, pages);
  }

  lemma WalkHealthy(t: Tables, url: string, pages: seq<FetchResult>)
    requires url != "" && Healthy(t)
    ensures Healthy(Walk(t, url, pages, DataPage()).tables)
  {
    var inv := (t': Tables) => Healthy(t');
    forall t': Tables, items: seq<JVal> | inv(t') ensures inv(DataPage()(t', items).tables) {
      DataItemsCover(t', items);
    }
    WalkKeeps(t, url, pages, DataPage(), inv);
  }

  /** The item loop of one page. */
  method ImportItems(db: Db, items: seq<JVal>) returns (panicked: bool)
    requires db.Valid()
    modifies db
    ensures db.Valid()
    ensures Pass(db.State(), panicked) == DataItems(old(db.State()), items)
  {
    for i := 0 to |items|
      invariant db.Valid()
      invariant DataItems(old(db.State()), items) == DataItems(db.State(), items[i..])
    {
      assert items[i..][1..] == items[i + 1..];
      var item := items[i];
      if !item.JObj? {
        return true;
      }
      var data := item.fields;
      var regionName := SafeString(Get(data, "armRegionName")).0;
      var regionCode := SafeString(Get(data, "location")).0;
      var provider, _ := db.FirstOrCreateProvider(ProviderName);
      var region, _ := db.FirstOrCreateRegion(Region(0, provider.id, regionCode, regionName, false));
      var service, _ := db.FirstOrCreateService(Service(0, provider.id, ServiceName, false));
    }
    panicked := false;
  }

  /** The imperative importer, proved to do what `DataRun` says. */
  method ImportData(db: Db, pages: seq<FetchResult>) returns (outcome: Outcome, requested: seq<string>)
    requires db.Valid()
    modifies db
    ensures db.Valid()
    ensures var r := DataRun(old(db.State()), pages);
            outcome == r.outcome && db.State() == r.tables && requested == r.requested
  {
    ghost var goal := DataRun(db.State(), pages);
    ghost var done := 0;
    var nextPageLink := PriceApiUrl;
    var k := 0;
    requested := [];
    assert pages[k..] == pages;
    while nextPageLink != ""
      invariant db.Valid()
      invariant k <= |pages| && |requested| == k
      invariant nextPageLink != "" ==>
        goal == Resume(requested, done, Walk(db.State(), nextPageLink, pages[k..], DataPage()))
      invariant nextPageLink == "" ==> goal == Run(Completed, db.State(), requested, done)
      decreases |pages| - k
    {
      ghost var before := db.State();
      ghost var rest := Walk(before, nextPageLink, pages[k..], DataPage());
      if k == |pages| {
        assert rest == Run(OutOfResponses, before, [], 0);
        assert requested + [] == requested;
        return OutOfResponses, requested;
      }
      ghost var link := nextPageLink;
      assert pages[k..][0] == pages[k] && pages[k..][1..] == pages[k + 1..];
      var response := pages[k];
      requested, k := requested + [nextPageLink], k + 1;
      if response.FetchFailed? {
        assert rest == Run(Aborted(PriceFetchFailed), before, [link], 0);
        return Aborted(PriceFetchFailed), requested;
      }
      var priceData := response.doc;
      var items := PageItems(priceData);
      if items.None? {
        assert rest == Run(Aborted(PriceItemsMalformed), before, [link], 0);
        return Aborted(PriceItemsMalformed), requested;
      }
      ghost var p := DataItems(before, items.value);
      assert DataPage()(before, items.value) == p;
      var panicked := ImportItems(db, items.value);
      if panicked {
        assert rest == Run(Panicked, p.tables, [link], 0);
        return Panicked, requested;
      }
      nextPageLink := NextLink(priceData);
      if nextPageLink == "" {
        assert rest == Run(Completed, p.tables, [link], 1);
      } else {
        WalkNextPage(before, link, pages[k - 1..], DataPage(), p);
        ghost var after := Walk(p.tables, nextPageLink, pages[k..], DataPage());
        ResumeTwice(requested[..k - 1], done, [link], 1, after);
        assert requested[..k - 1] + [link] == requested;
      }
      done := done + 1;
    }
    outcome := Completed;
  }
}
