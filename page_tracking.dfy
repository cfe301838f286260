/** The page-session rules of addEvent, stated on values: which records one call hands to
    the network layer and what the current page becomes; plus the page snapshot that
    getCurrentPageData returns and returnToPage reads back. */
module PageTracking {
  import opened Values
  import opened EventModel

  /** The current page: an empty code means that no page is open. */
  datatype Page = Page(code: string, name: string, extra: Option<Extra>)

  /** The page before any page has been entered. */
  const NoPage := Page("", "", None)

  predicate IsOpen(p: Page)
  {
    p.code != ""
  }

  /** The page an event enters. */
  function Entered(e: AnalyticModel): Page
  {
    Page(e.eventCode, e.eventName, e.extra)
  }

  /** The page-out record synthesised for `p` when another page is entered at `timestamp`. */
  function ImplicitClose(p: Page, sessionId: string, timestamp: int): (r: AnalyticModel)
    ensures r.eventType == PageOut && r.timestamp < timestamp
    ensures r.eventCode == p.code && r.eventName == p.name && r.belongPage == Some(p.code)
    ensures r.extra == None && r.sessionId == sessionId
  {
    AnalyticModel(sessionId, p.code, p.name, PageOut, timestamp - 1, Some(p.code), None)
  }

  /** The records one addEvent call for `e` dispatches, in order, while `p` is current. */
  function Dispatches(p: Page, e: AnalyticModel): (out: seq<AnalyticModel>)
    ensures |out| == (if e.eventType == PageIn && IsOpen(p) then 2 else 1)
    ensures out[|out| - 1] == e
  {
    if e.eventType == PageIn && IsOpen(p) then [ImplicitClose(p, e.sessionId, e.timestamp), e] else [e]
  }

  /** The current page after addEvent for `e`: the page stays or becomes the entered one,
      and a page only becomes open through a page-in. */
  function NextPage(p: Page, e: AnalyticModel): (r: Page)
    ensures r == p || r == Entered(e)
    ensures IsOpen(r) && !IsOpen(p) ==> e.eventType == PageIn && e.eventCode != ""
  {
    if e.eventType == PageIn then Entered(e) else p
  }

  /** Entering a page while another is open first closes the open one, exactly once, one
      millisecond earlier, under its own code, and then records the new event. */
  lemma PreviousPageClosed(p: Page, e: AnalyticModel)
    requires e.eventType == PageIn && IsOpen(p)
    ensures var out := Dispatches(p, e);
      |out| == 2 && out[1] == e &&
      out[0].eventType == PageOut && out[0].timestamp == e.timestamp - 1 &&
      out[0].eventCode == p.code && out[0].eventName == p.name &&
      out[0].belongPage == Some(p.code) && out[0].extra == None &&
      out[0].sessionId == e.sessionId
    ensures NextPage(p, e) == Page(e.eventCode, e.eventName, e.extra)
  {
  }

  /** Without an open page, or for any other kind of event, only the event itself goes out. */
  lemma NoImplicitClose(p: Page, e: AnalyticModel)
    requires e.eventType != PageIn || !IsOpen(p)
    ensures Dispatches(p, e) == [e]
    ensures forall r :: r in Dispatches(p, e) && r.eventType == PageOut ==> r == e
  {
  }

  /** Only a page-in changes the current page; every other kind, an explicit page-out
      included, leaves code, name and extra as they were. */
  lemma OnlyPageInMovesPage(p: Page, e: AnalyticModel)
    ensures NextPage(p, e) != p ==> e.eventType == PageIn
    ensures e.eventType != PageIn ==> NextPage(p, e) == p
    ensures e.eventType == PageIn ==> NextPage(p, e) == Entered(e)
  {
  }

  /** The synthesised page-out does not trigger page logic again: dispatching it on its own
      emits nothing more and keeps the page. */
  lemma ImplicitCloseIsInert(p: Page, q: Page, sessionId: string, timestamp: int)
    ensures Dispatches(q, ImplicitClose(p, sessionId, timestamp)) == [ImplicitClose(p, sessionId, timestamp)]
    ensures NextPage(q, ImplicitClose(p, sessionId, timestamp)) == q
  {
  }

  /** Feeding events one after the other, from page `p`: the final page and everything
      dispatched, in order. */
  function Run(p: Page, es: seq<AnalyticModel>): (Page, seq<AnalyticModel>)
    decreases |es|
  {
    if es == [] then (p, [])
    else
      var (q, out) := Run(p, es[..|es| - 1]);
      var e := es[|es| - 1];
      (NextPage(q, e), out + Dispatches(q, e))
  }

  /** A sequence of page entries (each with a non-empty code), starting with no page open:
      the first entry goes out alone, every later entry is preceded by exactly one page-out
      for the entry before it, stamped one millisecond earlier; the last entry is the
      current page. */
  lemma {:induction false} PageEntryTrace(es: seq<AnalyticModel>)
    requires es != []
    requires forall k :: 0 <= k < |es| ==> es[k].eventType == PageIn && es[k].eventCode != ""
    ensures var (q, out) := Run(NoPage, es);
      |out| == 2 * |es| - 1 && out[0] == es[0] && q == Entered(es[|es| - 1]) &&
      forall k :: 1 <= k < |es| ==>
        out[2 * k] == es[k] &&
        out[2 * k - 1] == ImplicitClose(Entered(es[k - 1]), es[k].sessionId, es[k].timestamp)
    decreases |es|
  {
    var init := es[..|es| - 1];
    var e := es[|es| - 1];
    assert Run(NoPage, es) == (NextPage(Run(NoPage, init).0, e), Run(NoPage, init).1 + Dispatches(Run(NoPage, init).0, e));
    if init == [] {
      assert Run(NoPage, init) == (NoPage, []);
    } else {
      PageEntryTrace(init);
      var (q, out) := Run(NoPage, init);
      assert q == Entered(init[|init| - 1]) && IsOpen(q);
      var out' := out + Dispatches(q, e);
      assert Dispatches(q, e) == [ImplicitClose(q, e.sessionId, e.timestamp), e];
      forall k | 1 <= k < |es|
        ensures out'[2 * k] == es[k]
        ensures out'[2 * k - 1] == ImplicitClose(Entered(es[k - 1]), es[k].sessionId, es[k].timestamp)
      {
        if k < |init| {
          assert init[k] == es[k] && init[k - 1] == es[k - 1];
        }
      }
    }
  }

  // ---------------------------------------------------------------------------------
  // Page snapshots
  // ---------------------------------------------------------------------------------

  /** getCurrentPageData: the page as a dictionary; a missing extra is stored as nil. */
  function PageData(p: Page): (d: map<string, Json>)
    ensures d.Keys == {"code", "name", "extra"}
    ensures d["code"] == JString(p.code) && d["name"] == JString(p.name)
  {
    map["code" := JString(p.code),
        "name" := JString(p.name),
        "extra" := if p.extra.Some? then JObject(p.extra.value) else JNull]
  }

  /** The casts returnToPage applies to a snapshot: it needs a string under "code" and
      under "name"; "extra" counts only when it holds a dictionary. */
  function ParsePageData(pageData: Option<map<string, Json>>): (r: Option<Page>)
    ensures r.Some? <==>
      pageData.Some? && "code" in pageData.value && pageData.value["code"].JString? &&
      "name" in pageData.value && pageData.value["name"].JString?
    ensures r.Some? ==> r.value.code == pageData.value["code"].s && r.value.name == pageData.value["name"].s
  {
    match pageData
    case None => None
    case Some(d) =>
      if "code" in d && d["code"].JString? && "name" in d && d["name"].JString? then
        var extra := if "extra" in d && d["extra"].JObject? then Some(d["extra"].fields) else None;
        Some(Page(d["code"].s, d["name"].s, extra))
      else None
  }

  /** A snapshot reads back as the page it was taken from. */
  lemma PageDataRoundTrip(p: Page)
    ensures ParsePageData(Some(PageData(p))) == Some(p)
  {
    var d := PageData(p);
    assert "code" in d && "name" in d && "extra" in d;
  }

  /** The page-in record returnToPage issues for a page. */
  function ReturnEvent(p: Page, sessionId: string, timestamp: int): (e: AnalyticModel)
    ensures e.eventType == PageIn && Entered(e) == p && e.belongPage == Some(p.code)
  {
    AnalyticModel(sessionId, p.code, p.name, PageIn, timestamp, Some(p.code), p.extra)
  }

  /** Returning to the page that is open closes it and enters it again, and the current
      page stays the same. */
  lemma ReturnToOpenPage(p: Page, sessionId: string, timestamp: int)
    requires IsOpen(p)
    ensures var e := ReturnEvent(p, sessionId, timestamp);
      Dispatches(p, e) == [ImplicitClose(p, sessionId, timestamp), e] &&
      NextPage(p, e) == p
  {
  }
}
