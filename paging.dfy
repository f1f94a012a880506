/**
 * The pagination loop both importers share: fetch the current page, fail the
 * run on a fetch error or when `Items` is not an array, process the items,
 * then follow `NextPageLink` until it is missing, not a string, or empty.
 *
 * The HTTP fetcher is replaced by the finite list of responses it gives, in
 * the order it is called. A run that would need more responses than that
 * ends with `OutOfResponses`.
 */
module Paging {
  import opened Wrappers
  import opened Json
  import opened Store

  /** The first page of the retail price feed, filtered to virtual machines. */
  const PriceApiUrl: string :=
    "https://prices.azure.com/api/retail/prices?api-version=2023-01-01-preview&$filter=serviceName%20eq%20%27Virtual%20Machines%27"

  /** The service the feed is filtered to, and the service row both importers use. */
  const ServiceName: string := "Virtual Machines"

  /** One call of the fetcher: the decoded JSON object, or a fetch error. */
  datatype FetchResult = Fetched(doc: Obj) | FetchFailed

  datatype ImportError =
    | EnvFileNotLoaded      // `godotenv.Load` failed
    | NoSubscriptionId      // AZURE_SUBSCRIPTION_ID is empty
    | TokenFailed           // the bearer token could not be obtained
    | CatalogFetchFailed    // fetching the SKU catalog failed
    | CatalogMalformed      // the catalog's `value` is not an array
    | PriceFetchFailed      // fetching a price page failed
    | PriceItemsMalformed   // a price page's `Items` is not an array

  /**
   * How a run ends: `nil`, one of the errors above, a panic from an unchecked
   * type assertion, or the supplied responses ran out before the feed ended.
   */
  datatype Outcome = Completed | Aborted(error: ImportError) | Panicked | OutOfResponses

  /** The items of a page, when `Items` is an array. */
  function PageItems(doc: Obj): (r: Option<seq<JVal>>)
    ensures r.Some? <==> Get(doc, "Items").JArr?
    ensures r.Some? ==> r.value == Get(doc, "Items").items
  {
    match Get(doc, "Items")
    case JArr(items) => Some(items)
    case _ => None
  }

  /** The link to follow next; "" ends the loop. */
  function NextLink(doc: Obj): (link: string)
    ensures link == "" <==> !Get(doc, "NextPageLink").JStr? || Get(doc, "NextPageLink").s == ""
    ensures link != "" ==> link == Get(doc, "NextPageLink").s
  {
    StrField(doc, "NextPageLink")
  }

  /** What processing one page's items leaves behind. */
  datatype Pass = Pass(tables: Tables, panicked: bool)

  /** A whole run: how it ended, the store, the URLs fetched, and the pages finished. */
  datatype Run = Run(outcome: Outcome, tables: Tables, requested: seq<string>, pagesDone: nat)

  /** The run `r` continued after `requested` were fetched and `done` pages finished. */
  function Resume(requested: seq<string>, done: nat, r: Run): Run
  {
    Run(r.outcome, r.tables, requested + r.requested, done + r.pagesDone)
  }

  /** Page `i` was fetched, had an `Items` array and a non-empty next link. */
  predicate Continues(pages: seq<FetchResult>, i: nat)
    requires i < |pages|
  {
    pages[i].Fetched? && PageItems(pages[i].doc).Some? && NextLink(pages[i].doc) != ""
  }

  /**
   * The shape of every run from `url`: which URLs were fetched, in which
   * order, and why the run stopped where it did.
   */
  ghost predicate WalkShape(url: string, pages: seq<FetchResult>, r: Run)
  {
    |r.requested| <= |pages| &&
    (|r.requested| > 0 ==> r.requested[0] == url) &&
    (forall i :: 0 <= i < |r.requested| - 1 ==>
       Continues(pages, i) && r.requested[i + 1] == NextLink(pages[i].doc)) &&
    (r.outcome.Completed? || r.outcome.OutOfResponses? ==> r.pagesDone == |r.requested|) &&
    (r.outcome.Aborted? || r.outcome.Panicked? ==> r.pagesDone + 1 == |r.requested|) &&
    (r.outcome.Completed? ==>
       var k := |r.requested| - 1;
       0 <= k && pages[k].Fetched? && PageItems(pages[k].doc).Some? && NextLink(pages[k].doc) == "") &&
    (r.outcome.OutOfResponses? ==>
       |r.requested| == |pages| && (|pages| > 0 ==> Continues(pages, |pages| - 1))) &&
    (r.outcome.Aborted? ==>
       var k := |r.requested| - 1;
       0 <= k &&
       (r.outcome.error == PriceFetchFailed <==> pages[k].FetchFailed?) &&
       (r.outcome.error == PriceItemsMalformed <==> pages[k].Fetched? && PageItems(pages[k].doc).None?)) &&
    (r.outcome.Panicked? ==>
       var k := |r.requested| - 1;
       0 <= k && pages[k].Fetched? && PageItems(pages[k].doc).Some?)
  }

  /**
   * The page loop from `url`, with `process` standing for what the importer
   * does with one page's items.
   */
  function Walk(t: Tables, url: string, pages: seq<FetchResult>,
                process: (Tables, seq<JVal>) -> Pass): (r: Run)
    requires url != ""
    decreases |pages|
  {
    if pages == [] then Run(OutOfResponses, t, [], 0)
    else match pages[0]
      case FetchFailed => Run(Aborted(PriceFetchFailed), t, [url], 0)
      case Fetched(doc) =>
        match PageItems(doc)
        case None => Run(Aborted(PriceItemsMalformed), t, [url], 0)
        case Some(items) =>
          var p := process(t, items);
          if p.panicked then Run(Panicked, p.tables, [url], 0)
          else if NextLink(doc) == "" then Run(Completed, p.tables, [url], 1)
          else
            var rest := Walk(p.tables, NextLink(doc), pages[1..], process);
            Run(rest.outcome, rest.tables, [url] + rest.requested, rest.pagesDone + 1)
  }

  /**
   * One page of the loop on its own: how the run ends if it stops after
   * this page. `Completed` means the page's items were all processed.
   */
  function Visit(t: Tables, url: string, page: FetchResult,
                 process: (Tables, seq<JVal>) -> Pass): (r: Run)
    ensures r.requested == [url]
    ensures r.pagesDone == if r.outcome.Completed? then 1 else 0
    ensures r.outcome.Completed? || r.outcome.Panicked? ==> page.Fetched? && PageItems(page.doc).Some?
  {
    match page
    case FetchFailed => Run(Aborted(PriceFetchFailed), t, [url], 0)
    case Fetched(doc) =>
      match PageItems(doc)
      case None => Run(Aborted(PriceItemsMalformed), t, [url], 0)
      case Some(items) =>
        var p := process(t, items);
        if p.panicked then Run(Panicked, p.tables, [url], 0)
        else Run(Completed, p.tables, [url], 1)
  }

  /**
   * One turn of the loop, for a run `goal` that has fetched `requested` and
   * finished `done` pages and goes on from `url`: after visiting the next
   * page the run either goes on from that page's link, or it is over.
   */
  lemma VisitStep(goal: Run, requested: seq<string>, done: nat, t: Tables, url: string,
                  pages: seq<FetchResult>, process: (Tables, seq<JVal>) -> Pass)
    requires url != "" && pages != []
    requires goal == Resume(requested, done, Walk(t, url, pages, process))
    ensures var v := Visit(t, url, pages[0], process);
            if v.outcome.Completed? && NextLink(pages[0].doc) != "" then
              goal == Resume(requested + [url], done + 1,
                             Walk(v.tables, NextLink(pages[0].doc), pages[1..], process))
            else goal == Run(v.outcome, v.tables, requested + [url], done + v.pagesDone)
  {
    var v := Visit(t, url, pages[0], process);
    if v.outcome.Completed? && NextLink(pages[0].doc) != "" {
      var rest := Walk(v.tables, NextLink(pages[0].doc), pages[1..], process);
      assert Walk(t, url, pages, process) == Resume([url], 1, rest);
      ResumeTwice(requested, done, [url], 1, rest);
    } else {
      assert Walk(t, url, pages, process) == v;
    }
  }

  /** Resuming twice is resuming once with the URLs and pages of both. */
  lemma ResumeTwice(requested: seq<string>, done: nat, more: seq<string>, moreDone: nat, r: Run)
    ensures Resume(requested, done, Resume(more, moreDone, r)) == Resume(requested + more, done + moreDone, r)
  {
    assert requested + (more + r.requested) == (requested + more) + r.requested;
  }

  /**
   * A page that is processed without a panic and links onward: the run is
   * that page followed by the run from the link over the remaining responses.
   */
  lemma WalkNextPage(t: Tables, url: string, pages: seq<FetchResult>,
                     process: (Tables, seq<JVal>) -> Pass, p: Pass)
    requires url != "" && pages != [] && Continues(pages, 0)
    requires p == process(t, PageItems(pages[0].doc).value) && !p.panicked
    ensures Walk(t, url, pages, process) ==
            Resume([url], 1, Walk(p.tables, NextLink(pages[0].doc), pages[1..], process))
  {
  }

  /** Every run has the shape `WalkShape` describes, whatever `process` does. */
  lemma {:induction false} WalkHasShape(t: Tables, url: string, pages: seq<FetchResult>,
                                        process: (Tables, seq<JVal>) -> Pass)
    requires url != ""
    ensures WalkShape(url, pages, Walk(t, url, pages, process))
    decreases |pages|
  {
    if pages != [] && pages[0].Fetched? && PageItems(pages[0].doc).Some? {
      var doc := pages[0].doc;
      var p := process(t, PageItems(doc).value);
      if !p.panicked && NextLink(doc) != "" {
        var rest := Walk(p.tables, NextLink(doc), pages[1..], process);
        WalkHasShape(p.tables, NextLink(doc), pages[1..], process);
        var r := Walk(t, url, pages, process);
        assert r == Run(rest.outcome, rest.tables, [url] + rest.requested, rest.pagesDone + 1);
        assert forall i :: 1 <= i < |r.requested| ==> r.requested[i] == rest.requested[i - 1];
        assert forall i :: 1 <= i < |pages| ==> pages[i] == pages[1..][i - 1];
      }
    }
  }

  /** The page loop fails only on a price page: a fetch error or a malformed `Items`. */
  lemma {:induction false} WalkAbortsOnPage(t: Tables, url: string, pages: seq<FetchResult>,
                                            process: (Tables, seq<JVal>) -> Pass)
    requires url != ""
    ensures Walk(t, url, pages, process).outcome.Aborted? ==>
            Walk(t, url, pages, process).outcome.error in {PriceFetchFailed, PriceItemsMalformed}
    decreases |pages|
  {
    if pages != [] && pages[0].Fetched? && PageItems(pages[0].doc).Some? {
      var doc := pages[0].doc;
      var p := process(t, PageItems(doc).value);
      if !p.panicked && NextLink(doc) != "" {
        WalkAbortsOnPage(p.tables, NextLink(doc), pages[1..], process);
      }
    }
  }

  /** Every table the run ends with starts with the rows it started with. */
  lemma {:induction false} WalkExtends(t: Tables, url: string, pages: seq<FetchResult>,
                                       process: (Tables, seq<JVal>) -> Pass)
    requires url != ""
    requires forall t': Tables, items: seq<JVal> :: Extends(t', process(t', items).tables)
    ensures Extends(t, Walk(t, url, pages, process).tables)
    decreases |pages|
  {
    if pages != [] && pages[0].Fetched? && PageItems(pages[0].doc).Some? {
      var doc := pages[0].doc;
      var p := process(t, PageItems(doc).value);
      if !p.panicked && NextLink(doc) != "" {
        WalkExtends(p.tables, NextLink(doc), pages[1..], process);
        ExtendsTransitive(t, p.tables, Walk(p.tables, NextLink(doc), pages[1..], process).tables);
      }
    }
  }

  /** A property of the store that processing a page never breaks holds after the whole run. */
  lemma {:induction false} WalkKeeps(t: Tables, url: string, pages: seq<FetchResult>,
                                     process: (Tables, seq<JVal>) -> Pass, inv: Tables -> bool)
    requires url != "" && inv(t)
    requires forall t': Tables, items: seq<JVal> :: inv(t') ==> inv(process(t', items).tables)
    ensures inv(Walk(t, url, pages, process).tables)
    decreases |pages|
  {
    if pages != [] && pages[0].Fetched? && PageItems(pages[0].doc).Some? {
      var doc := pages[0].doc;
      var p := process(t, PageItems(doc).value);
      if !p.panicked && NextLink(doc) != "" {
        WalkKeeps(p.tables, NextLink(doc), pages[1..], process, inv);
      }
    }
  }

  /**
   * No rollback: a run that fails on a page leaves the store exactly as the
   * pages before it left it, and had fetched the same URLs before it.
   */
  lemma {:induction false} AbortKeepsEarlierPages(t: Tables, url: string, pages: seq<FetchResult>,
                                                  process: (Tables, seq<JVal>) -> Pass)
    requires url != ""
    requires Walk(t, url, pages, process).outcome.Aborted?
    ensures var r := Walk(t, url, pages, process);
            1 <= |r.requested| <= |pages| &&
            var before := Walk(t, url, pages[..|r.requested| - 1], process);
            before.outcome == OutOfResponses && r.tables == before.tables
    decreases |pages|
  {
    var r := Walk(t, url, pages, process);
    WalkHasShape(t, url, pages, process);
    var k := |r.requested| - 1;
    if k > 0 {
      assert Continues(pages, 0);
      var doc := pages[0].doc;
      var p := process(t, PageItems(doc).value);
      var link := NextLink(doc);
      var rest := Walk(p.tables, link, pages[1..], process);
      assert r == Run(rest.outcome, rest.tables, [url] + rest.requested, rest.pagesDone + 1);
      AbortKeepsEarlierPages(p.tables, link, pages[1..], process);
      var pre := pages[..k];
      assert pre[0] == pages[0];
      assert pre[1..] == pages[1..][..k - 1];
      var preRest := Walk(p.tables, link, pre[1..], process);
      assert Walk(t, url, pre, process) ==
        Run(preRest.outcome, preRest.tables, [url] + preRest.requested, preRest.pagesDone + 1);
    }
  }

  // ---------------------------------------------------------------------------
  // Batch throttling

  /** Pages per batch; a pause follows each full batch. */
  const BatchSize: nat := 10

  /** The page counter and the number of pauses taken so far. */
  datatype Throttle = Throttle(pageCount: nat, pauses: nat)

  /**
   * After a page: count it, and once a batch is complete reset the counter
   * and pause.
   */
  function Tick(c: Throttle): (c': Throttle)
    requires c.pageCount < BatchSize
    ensures c'.pageCount < BatchSize
    ensures c'.pageCount == (c.pageCount + 1) % BatchSize
    ensures c'.pauses == c.pauses + 1 <==> c.pageCount + 1 == BatchSize
    ensures c'.pauses == c.pauses || c'.pauses == c.pauses + 1
  {
    var n := c.pageCount + 1;
    if n >= BatchSize then Throttle(0, c.pauses + 1) else Throttle(n, c.pauses)
  }

  /** The throttle after `n` pages, starting from zero. */
  function Ticks(n: nat): (c: Throttle)
    ensures c.pageCount < BatchSize
  {
    if n == 0 then Throttle(0, 0) else Tick(Ticks(n - 1))
  }

  /** After `n` pages the counter is `n % 10` and there have been `n / 10` pauses. */
  lemma {:induction false} TicksCount(n: nat)
    ensures Ticks(n) == Throttle(n % BatchSize, n / BatchSize)
  {
    if n > 0 {
      TicksCount(n - 1);
    }
  }
}
