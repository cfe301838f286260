/** Short runs of the analytics tool that pin down how its asynchronous steps interleave:
    which session id a failed record carries, how far a drain goes, what a second network
    signal does, and what happens to events recorded before initialize. */
module Scenarios {
  import opened Values
  import opened EventModel
  import opened RequestContent
  import opened PageTracking
  import opened Analytics

  /** A click whose post fails after the session id was rotated is queued under the new
      session id, although the dictionary the tool posted for it, read back from its log
      of transmissions, carries the old one. */
  method SessionRotatedBeforeFailure(platform: Platform, userid: string, api: string,
                                     s1: string, s2: string, location: Location, now: int)
    returns (submitted: AnalyticModel, ghost posted: Payload, queued: AnalyticModel)
    requires platform.isValidUrl(api)
    ensures submitted == AnalyticModel(s1, "btn_buy", "Buy", Click, now, None, None)
    ensures posted == BuildPayload(submitted, userid, location, platform)
    ensures posted.sessionId == s1
    ensures queued == submitted.(sessionId := s2)
  {
    var tool := new AnalyticTool(s1, platform);
    tool.Initialize(userid, api);
    tool.AddEvent("btn_buy", "Buy", None, Click, None, None, now);
    SubmittedRequests(true, [AnalyticModel(s1, "btn_buy", "Buy", Click, now, None, None)], Fresh);
    submitted := tool.inFlight[0].sent;
    tool.UpdateSessionId(s2);
    ghost var before := tool.transmitted;
    tool.CompleteRequest(0, location, false);
    posted := tool.transmitted[|before|];
    queued := tool.failedEvents[0];
  }

  /** A tool, initialized, on which two clicks were recorded and wait for the IP lookup. */
  method TwoClicksWaiting(platform: Platform, userid: string, api: string, s: string, now: int)
    returns (tool: AnalyticTool)
    ensures fresh(tool) && tool.Valid() && tool.ipLookupInstalled && tool.api == api
    ensures tool.platform == platform && tool.sessionId == s
    ensures tool.inFlight == [Request(AnalyticModel(s, "a", "A", Click, now, None, None), Fresh),
                              Request(AnalyticModel(s, "b", "B", Click, now, None, None), Fresh)]
    ensures tool.failedEvents == [] && !tool.isSending
  {
    tool := new AnalyticTool(s, platform);
    tool.Initialize(userid, api);
    tool.AddEvent("a", "A", None, Click, None, None, now);
    tool.AddEvent("b", "B", None, Click, None, None, now);
    SubmittedRequests(true, [AnalyticModel(s, "a", "A", Click, now, None, None)], Fresh);
    SubmittedRequests(true, [AnalyticModel(s, "b", "B", Click, now, None, None)], Fresh);
  }

  /** The same tool after both posts failed, the session id unchanged: both clicks are
      queued as they were recorded. */
  method TwoFailedClicks(platform: Platform, userid: string, api: string, s: string,
                         location: Location, now: int)
    returns (tool: AnalyticTool)
    requires platform.isValidUrl(api)
    ensures fresh(tool) && tool.Valid() && tool.ipLookupInstalled && tool.platform.isValidUrl(tool.api)
    ensures tool.failedEvents == [AnalyticModel(s, "a", "A", Click, now, None, None),
                                  AnalyticModel(s, "b", "B", Click, now, None, None)]
    ensures tool.inFlight == [] && !tool.isSending && tool.sessionId == s
  {
    tool := TwoClicksWaiting(platform, userid, api, s, now);
    tool.CompleteRequest(0, location, false);
    tool.CompleteRequest(0, location, false);
  }

  /** A network signal drains the queue [a, b]: both are resubmitted at once. The first
      resubmission fails again and the second gets through, leaving [a] queued. */
  method DrainWithOneFailure(tool: AnalyticTool, a: AnalyticModel, b: AnalyticModel, location: Location)
    returns (resubmitted: seq<Request>)
    requires tool.Valid() && tool.ipLookupInstalled && tool.platform.isValidUrl(tool.api)
    requires tool.failedEvents == [a, b] && tool.inFlight == [] && !tool.isSending
    modifies tool
    ensures tool.Valid() && tool.isSending
    ensures resubmitted == [Request(a, Retry), Request(b, Retry)]
    ensures tool.failedEvents == [a] && tool.inFlight == []
  {
    tool.NetworkStatusChanged(true);
    SubmittedRequests(true, [a, b], Retry);
    resubmitted := tool.inFlight;
    tool.CompleteRequest(0, location, false);
    assert tool.failedEvents == [a] && tool.inFlight == [Request(b, Retry)];
    tool.CompleteRequest(0, location, true);
  }

  /** Two failed clicks are drained together: both are resubmitted before either outcome is
      known, so the failure of the first does not hold back the second. The drain flag is
      never cleared, so a later network signal leaves the re-queued record where it is. */
  method DrainRunsPastFailure(platform: Platform, userid: string, api: string, s: string,
                              location: Location, now: int)
    returns (resubmitted: seq<Request>, left: seq<AnalyticModel>,
             leftAfterSecondSignal: seq<AnalyticModel>, waitingAfterSecondSignal: seq<Request>)
    requires platform.isValidUrl(api)
    ensures var a := AnalyticModel(s, "a", "A", Click, now, None, None);
      var b := AnalyticModel(s, "b", "B", Click, now, None, None);
      resubmitted == [Request(a, Retry), Request(b, Retry)] &&
      left == [a] && leftAfterSecondSignal == [a] && waitingAfterSecondSignal == []
  {
    var tool := TwoFailedClicks(platform, userid, api, s, location, now);
    resubmitted := DrainWithOneFailure(tool, AnalyticModel(s, "a", "A", Click, now, None, None),
                                       AnalyticModel(s, "b", "B", Click, now, None, None), location);
    left := tool.failedEvents;
    tool.NetworkStatusChanged(true);
    leftAfterSecondSignal := tool.failedEvents;
    waitingAfterSecondSignal := tool.inFlight;
  }

  /** Before initialize no lookup closure is installed: an event is dispatched but never
      waits, so it is neither posted nor queued, and a drain has nothing to resend. */
  method EventBeforeInitializeIsDropped(platform: Platform, s: string, now: int)
    returns (waiting: seq<Request>, queue: seq<AnalyticModel>)
    ensures waiting == [] && queue == []
  {
    var tool := new AnalyticTool(s, platform);
    tool.AddEvent("home", "Home", None, PageIn, Some("home"), None, now);
    tool.NetworkStatusChanged(true);
    waiting := tool.inFlight;
    queue := tool.failedEvents;
  }

  /** An initialized tool on which the page "home" was entered at `t1`, with a snapshot of
      it. */
  method OnHome(platform: Platform, userid: string, api: string, s: string, t1: int)
    returns (tool: AnalyticTool, snapshot: map<string, Json>)
    ensures fresh(tool) && tool.Valid() && tool.ipLookupInstalled && tool.sessionId == s
    ensures tool.inFlight == [Request(AnalyticModel(s, "home", "Home", PageIn, t1, Some("home"), None), Fresh)]
    ensures tool.CurrentPage() == Page("home", "Home", None)
    ensures ParsePageData(Some(snapshot)) == Some(Page("home", "Home", None))
  {
    tool := new AnalyticTool(s, platform);
    tool.Initialize(userid, api);
    tool.AddEvent("home", "Home", Some(t1), PageIn, Some("home"), None, t1);
    SubmittedRequests(true, [AnalyticModel(s, "home", "Home", PageIn, t1, Some("home"), None)], Fresh);
    snapshot := tool.GetCurrentPageData();
  }

  /** Entering two pages: the second entry first closes the first page one millisecond
      earlier. A snapshot taken on the first page brings it back as the current page, after
      closing the second. */
  method EnterLeaveReturn(platform: Platform, userid: string, api: string, s: string,
                          t1: int, t2: int, t3: int)
    returns (requests: seq<Request>, page: Page)
    ensures var home := AnalyticModel(s, "home", "Home", PageIn, t1, Some("home"), None);
      var cart := AnalyticModel(s, "cart", "Cart", PageIn, t2, Some("cart"), None);
      requests == [Request(home, Fresh),
                   Request(ImplicitClose(Entered(home), s, t2), Fresh),
                   Request(cart, Fresh),
                   Request(ImplicitClose(Entered(cart), s, t3), Fresh),
                   Request(ReturnEvent(Entered(home), s, t3), Fresh)] &&
      page == Entered(home)
  {
    ghost var home := AnalyticModel(s, "home", "Home", PageIn, t1, Some("home"), None);
    ghost var cart := AnalyticModel(s, "cart", "Cart", PageIn, t2, Some("cart"), None);
    var tool, snapshot := OnHome(platform, userid, api, s, t1);
    tool.AddEvent("cart", "Cart", Some(t2), PageIn, Some("cart"), None, t2);
    SubmittedRequests(true, [ImplicitClose(Entered(home), s, t2), cart], Fresh);
    tool.ReturnToPage(Some(snapshot), t3);
    SubmittedRequests(true, [ImplicitClose(Entered(cart), s, t3), ReturnEvent(Entered(home), s, t3)], Fresh);
    requests := tool.inFlight;
    page := Page(tool.currentPageCode, tool.currentPageName, tool.currentPageExtra);
  }
}
