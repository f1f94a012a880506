/**
 * A full import on a concrete feed: `ImportData` followed by
 * `ImportSkuData` on an empty store, over one price page holding one item.
 */
module Scenarios {
  import opened Wrappers
  import opened Json
  import opened Store
  import opened Paging
  import opened Catalog
  import opened DataImport
  import opened SkuImport
  import Strconv

  const PriceItem: JVal := JObj(map[
    "armRegionName" := JStr("eastus"),
    "location" := JStr("US East"),
    "armSkuName" := JStr("Standard_D2s_v3"),
    "type" := JStr("Consumption")])

  const PricePage: FetchResult := Fetched(map["Items" := JArr([PriceItem])])

  const CatalogEntry: JVal := JObj(map[
    "name" := JStr("Standard_D2s_v3"),
    "capabilities" := JArr([
      JObj(map["name" := JStr("vCPUs"), "value" := JStr("2")]),
      JObj(map["name" := JStr("MemoryGB"), "value" := JStr("8")])])])

  function CatalogApi(url: string): FetchResult
  {
    Fetched(map["value" := JArr([CatalogEntry])])
  }

  /** The store after the price import: one provider, one region, one service. */
  const AfterPrices: Tables :=
    Tables([Provider(1, "Azure", false)], [Region(1, 1, "US East", "eastus", false)],
           [Service(1, 1, "Virtual Machines", false)], [], 2, 2, 2, 1, [])

  /** The price import on an empty store completes after its one page. */
  lemma PriceImportOnEmpty()
    ensures DataRun(EmptyTables([]), [PricePage]) == Run(Completed, AfterPrices, [PriceApiUrl], 1)
  {
    var t0 := EmptyTables([]);
    var o := PriceItem.fields;
    assert StrField(o, "location") == "US East" && StrField(o, "armRegionName") == "eastus";
    var provider := ResolveProvider(t0, "Azure");
    assert provider.row == Provider(1, "Azure", false);
    var region := ResolveRegion(provider.tables, Region(0, 1, "US East", "eastus", false));
    assert region.tables.regions == [Region(1, 1, "US East", "eastus", false)];
    var service := ResolveService(region.tables, Service(0, 1, ServiceName, false));
    assert service.tables == AfterPrices;
    assert DataItem(t0, PriceItem) == Pass(AfterPrices, false);
    assert DataItems(t0, [PriceItem]) == Pass(AfterPrices, false) by {
      assert [PriceItem][1..] == [];
    }
    var doc := PricePage.doc;
    assert PageItems(doc) == Some([PriceItem]);
    assert NextLink(doc) == "";
  }

  /**
   * Idempotence needs a first pass that did not fail: when all three calls
   * of the first pass fail it stores nothing, and the second pass then
   * creates the provider.
   */
  lemma FailedPassNotIdempotent()
    ensures var p := DataItems(EmptyTables([true, true, true]), [PriceItem]);
            p.tables.providers == [] &&
            DataItems(p.tables, [PriceItem]).tables.providers == [Provider(1, "Azure", false)]
  {
    var t0 := EmptyTables([true, true, true]);
    assert [PriceItem][1..] == [];
    assert DataItem(t0, PriceItem).tables == EmptyTables([]);
    assert DataItem(EmptyTables([]), PriceItem).tables == AfterPrices by {
      PriceImportOnEmpty();
    }
  }

  /** The price item names the one catalog entry. */
  lemma ItemMatchesEntry()
    ensures !Skipped([CatalogEntry], PriceItem) && MatchOf([CatalogEntry], PriceItem) == CatalogEntry.fields
  {
    assert NamedEntry([CatalogEntry][0], "Standard_D2s_v3");
  }

  /** The catalog entry has 2 vCPUs and "8" GB of memory, and nothing else. */
  lemma EntryCapabilities()
    ensures SkuCapabilities(CatalogEntry.fields) == Some(Capabilities(2, "8", "", ""))
  {
    var caps := Get(CatalogEntry.fields, "capabilities").items;
    assert Strconv.Atoi("2") == 2 by {
      assert Strconv.Magnitude("2") == "2";
      assert Strconv.DecimalValue("2") == 2;
    }
    var afterVcpus := Capabilities(2, "", "", "");
    assert ReadCapability(NoCapabilities, caps[0]) == Some(afterVcpus);
    assert ReadCapability(afterVcpus, caps[1]) == Some(Capabilities(2, "8", "", ""));
    assert caps[1..][1..] == [];
  }

  /** The sku the import stores for the item. */
  const StoredSku: Sku := NewSku(PriceItem.fields, CatalogEntry.fields, Capabilities(2, "8", "", ""), 1, 1)

  /** The item is matched, finds the service and the region, and is inserted. */
  lemma ItemStoredAfterPrices()
    ensures SkuItem(AfterPrices, [CatalogEntry], PriceItem) == Pass(InsertSku(AfterPrices, StoredSku), false)
  {
    ItemMatchesEntry();
    EntryCapabilities();
    assert ServiceNamed(AfterPrices, ServiceName) == (AfterPrices, Some(Service(1, 1, "Virtual Machines", false)));
    assert StrField(PriceItem.fields, "armRegionName") == "eastus";
    assert RegionNamed(AfterPrices, "eastus") == (AfterPrices, Some(Region(1, 1, "US East", "eastus", false)));
  }

  /** The environment is complete and the catalog response holds one entry. */
  lemma CatalogLoads()
    ensures CatalogEntries(Environment(true, "sub", Some("token")), CatalogApi) == Success([CatalogEntry])
  {
  }

  /** The SKU import's page loop then completes after its one page with that sku stored. */
  lemma SkuPagesAfterPrices()
    ensures Walk(AfterPrices, PriceApiUrl, [PricePage], SkuPage([CatalogEntry])) ==
            Run(Completed, InsertSku(AfterPrices, StoredSku), [PriceApiUrl], 1)
  {
    var t2 := InsertSku(AfterPrices, StoredSku);
    assert SkuItems(AfterPrices, [CatalogEntry], [PriceItem]) == Pass(t2, false) by {
      ItemStoredAfterPrices();
      assert [PriceItem][1..] == [];
    }
    assert PageItems(PricePage.doc) == Some([PriceItem]);
    assert NextLink(PricePage.doc) == "";
  }

  /**
   * One provider "Azure", one region "eastus", one service
   * "Virtual Machines" and one sku with 2 vCPUs and "8" GB of memory.
   */
  lemma PriceThenSku()
    ensures var first := DataRun(EmptyTables([]), [PricePage]);
      var second := SkuRun(first.tables, Environment(true, "sub", Some("token")), CatalogApi, [PricePage]);
      first.outcome == Completed && second.outcome == Completed &&
      second.tables.providers == [Provider(1, "Azure", false)] &&
      second.tables.regions == [Region(1, 1, "US East", "eastus", false)] &&
      second.tables.services == [Service(1, 1, "Virtual Machines", false)] &&
      |second.tables.skus| == 1 &&
      second.tables.skus[0].vcpus == 2 && second.tables.skus[0].memoryGB == "8" &&
      second.tables.skus[0].serviceId == 1 && second.tables.skus[0].regionId == 1
  {
    PriceImportOnEmpty();
    CatalogLoads();
    SkuPagesAfterPrices();
  }
}
