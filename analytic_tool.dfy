/** The analytics tool: the current-page tracker, the session id, and the retry queue of
    failed events with its drain loop.

    The source's asynchronous pipeline is cut into atomic steps. A call of requestApi is
    split in two: RequestApi hands the record to the IP lookup (or drops it when no lookup
    closure is installed), and CompleteRequest is the lookup's answer followed by the post
    and the transport's answer. Between the two, any other step may run; in particular
    UpdateSessionId, whose effect on a fresh record's failure handler the model keeps. */
module Analytics {
  import opened Values
  import opened EventModel
  import opened RequestContent
  import opened PageTracking

  /** Whose failure handler waits on a request: addEvent's, which rebuilds the record from
      its captured fields and the live session id, or the drain loop's, which puts the
      stored record back. */
  datatype Origin = Fresh | Retry

  /** A request handed to the IP lookup whose continuation has not run yet. */
  datatype Request = Request(sent: AnalyticModel, origin: Origin)

  /** The requests that start waiting when the records `ms` are handed to requestApi in
      order: all of them when an IP-lookup closure is installed, none otherwise. */
  function Submitted(installed: bool, ms: seq<AnalyticModel>, origin: Origin): (r: seq<Request>)
    ensures |r| == if installed then |ms| else 0
  {
    if !installed || ms == [] then [] else [Request(ms[0], origin)] + Submitted(installed, ms[1..], origin)
  }

  /** Exactly the submitted records start waiting, in order and each tagged with the
      submitter, or none at all without a lookup closure. */
  lemma {:induction false} SubmittedRequests(installed: bool, ms: seq<AnalyticModel>, origin: Origin)
    ensures var r := Submitted(installed, ms, origin);
      |r| == (if installed then |ms| else 0) &&
      forall k :: 0 <= k < |r| ==> r[k] == Request(ms[k], origin)
  {
    if installed && ms != [] {
      SubmittedRequests(installed, ms[1..], origin);
    }
  }

  /** Submitting two batches one after the other is submitting their concatenation. */
  lemma {:induction false} SubmittedConcat(installed: bool, a: seq<AnalyticModel>, b: seq<AnalyticModel>, origin: Origin)
    ensures Submitted(installed, a + b, origin) == Submitted(installed, a, origin) + Submitted(installed, b, origin)
  {
    if installed && a != [] {
      assert (a + b)[0] == a[0] && (a + b)[1..] == a[1..] + b;
      SubmittedConcat(installed, a[1..], b, origin);
    } else if a == [] {
      assert a + b == b;
    }
  }

  /** The record a failure handler appends to the retry queue: the dispatched record, with
      the session id read when the failure arrives for a fresh request. */
  function QueuedRecord(r: Request, liveSessionId: string): (m: AnalyticModel)
    ensures m.(sessionId := r.sent.sessionId) == r.sent
    ensures m.sessionId == if r.origin == Fresh then liveSessionId else r.sent.sessionId
  {
    if r.origin == Fresh then r.sent.(sessionId := liveSessionId) else r.sent
  }

  class AnalyticTool {
    var userid: string
    var api: string
    /** Whether a getIpLocationAction closure is installed: it is once initialize has run. */
    var ipLookupInstalled: bool
    var sessionId: string
    var currentPageCode: string
    var currentPageName: string
    var currentPageExtra: Option<Extra>
    /** The retry queue, oldest failure first. */
    var failedEvents: seq<AnalyticModel>
    var isSending: bool
    /** Requests whose IP lookup has not answered yet, i.e. the pending continuations. */
    var inFlight: seq<Request>
    const platform: Platform

    /** Every record handed to requestApi, in order. */
    ghost var dispatched: seq<AnalyticModel>
    /** Every parameter dictionary handed to the transport, in order. */
    ghost var transmitted: seq<Payload>

    ghost function CurrentPage(): Page
      reads this
    {
      Page(currentPageCode, currentPageName, currentPageExtra)
    }

    /** Nothing waits that was not dispatched: a waiting request carries a record that
        went through requestApi. */
    ghost predicate Valid()
      reads this
    {
      forall r :: r in inFlight ==> r.sent in dispatched
    }

    twostate predicate SettingsKept()
      reads this
    {
      userid == old(userid) && api == old(api) && ipLookupInstalled == old(ipLookupInstalled)
    }

    /** The call dispatched `e` alone, as a fresh request, and changed nothing else. */
    twostate predicate OnlyRecorded(new e: AnalyticModel)
      reads this
    {
      dispatched == old(dispatched) + [e] &&
      inFlight == old(inFlight) + Submitted(ipLookupInstalled, [e], Fresh) &&
      CurrentPage() == old(CurrentPage()) && sessionId == old(sessionId) && SettingsKept() &&
      failedEvents == old(failedEvents) && isSending == old(isSending) && transmitted == old(transmitted)
    }

    /** Everything but the queue, the drain flag and the requests is as it was. */
    twostate predicate OutsideQueueKept()
      reads this
    {
      SettingsKept() && sessionId == old(sessionId) && CurrentPage() == old(CurrentPage()) &&
      transmitted == old(transmitted)
    }

    /** What resendFailedEvents does: nothing when a drain has already started or the queue
        is empty; otherwise it marks the drain started and resubmits every queued record,
        oldest first, emptying the queue. */
    twostate predicate ResendEffect()
      reads this
    {
      OutsideQueueKept() &&
      if old(isSending) || old(failedEvents) == [] then
        isSending == old(isSending) && failedEvents == old(failedEvents) &&
        dispatched == old(dispatched) && inFlight == old(inFlight)
      else
        isSending && failedEvents == [] &&
        dispatched == old(dispatched) + old(failedEvents) &&
        inFlight == old(inFlight) + Submitted(ipLookupInstalled, old(failedEvents), Retry)
    }

    /** The tool as created: a fresh session id, no page, an empty queue, no lookup closure. */
    constructor (initialSessionId: string, platform: Platform)
      ensures Valid()
      ensures userid == "" && api == "" && !ipLookupInstalled && sessionId == initialSessionId
      ensures CurrentPage() == NoPage && failedEvents == [] && !isSending && inFlight == []
      ensures dispatched == [] && transmitted == [] && this.platform == platform
    {
      userid, api, ipLookupInstalled := "", "", false;
      sessionId := initialSessionId;
      currentPageCode, currentPageName, currentPageExtra := "", "", None;
      failedEvents, isSending, inFlight := [], false, [];
      this.platform := platform;
      dispatched, transmitted := [], [];
    }

    /** Stores the user id and the endpoint and installs the IP-lookup closure. */
    method Initialize(userid: string, api: string)
      requires Valid()
      modifies this
      ensures Valid()
      ensures this.userid == userid && this.api == api && ipLookupInstalled
      ensures sessionId == old(sessionId) && CurrentPage() == old(CurrentPage())
      ensures failedEvents == old(failedEvents) && isSending == old(isSending) && inFlight == old(inFlight)
      ensures dispatched == old(dispatched) && transmitted == old(transmitted)
    {
      this.userid := userid;
      this.api := api;
      ipLookupInstalled := true;
    }

    /** Records an event. A page-in first closes the open page, if any, through the same
        path (where it cannot trigger page logic again), then becomes the current page. */
    method AddEvent(code: string, name: string, timestamp: Option<int>, eventType: EventType,
                    belongPage: Option<string>, extra: Option<Extra>, now: int)
      requires Valid()
      modifies this
      decreases if eventType == PageIn then 1 else 0
      ensures Valid()
      ensures var e := AnalyticModel(old(sessionId), code, name, eventType, timestamp.GetOr(now), belongPage, extra);
        CurrentPage() == NextPage(old(CurrentPage()), e) &&
        dispatched == old(dispatched) + Dispatches(old(CurrentPage()), e) &&
        inFlight == old(inFlight) + Submitted(ipLookupInstalled, Dispatches(old(CurrentPage()), e), Fresh)
      ensures SettingsKept() && sessionId == old(sessionId)
      ensures failedEvents == old(failedEvents) && isSending == old(isSending) && transmitted == old(transmitted)
    {
      var newTimestamp := timestamp.GetOr(now);
      ghost var e := AnalyticModel(sessionId, code, name, eventType, newTimestamp, belongPage, extra);
      ghost var page := CurrentPage();
      ghost var closes: seq<AnalyticModel> := [];
      if eventType == PageIn {
        if currentPageCode != "" {
          AddEvent(currentPageCode, currentPageName, Some(newTimestamp - 1), PageOut, Some(currentPageCode), None, now);
          closes := [ImplicitClose(page, sessionId, newTimestamp)];
        }
        currentPageCode := code;
        currentPageName := name;
        currentPageExtra := extra;
      }
      assert Dispatches(page, e) == closes + [e];
      assert CurrentPage() == NextPage(page, e);
      assert dispatched == old(dispatched) + closes;
      assert inFlight == old(inFlight) + Submitted(ipLookupInstalled, closes, Fresh);
      assert SettingsKept() && sessionId == old(sessionId);
      assert failedEvents == old(failedEvents) && isSending == old(isSending) && transmitted == old(transmitted);
      RequestApi(AnalyticModel(sessionId, code, name, eventType, newTimestamp, belongPage, extra), Fresh);
      SubmittedConcat(ipLookupInstalled, closes, [e], Fresh);
    }

    /** requestApi up to the IP lookup: the record is dispatched, and it waits for the
        lookup when a lookup closure is installed; otherwise it is dropped silently, so
        neither callback will ever run for it. */
    method RequestApi(m: AnalyticModel, origin: Origin)
      requires Valid()
      modifies this
      ensures Valid()
      ensures dispatched == old(dispatched) + [m]
      ensures inFlight == old(inFlight) + Submitted(ipLookupInstalled, [m], origin)
      ensures SettingsKept() && sessionId == old(sessionId) && CurrentPage() == old(CurrentPage())
      ensures failedEvents == old(failedEvents) && isSending == old(isSending) && transmitted == old(transmitted)
    {
      dispatched := dispatched + [m];
      if ipLookupInstalled {
        inFlight := inFlight + [Request(m, origin)];
      }
    }

    /** The IP lookup of waiting request `i` answers with `location`. The parameter
        dictionary is built; when `api` does not parse as a URL the request is dropped
        silently; otherwise it is posted and `delivered` is the transport's answer. A failed
        post appends one record to the tail of the retry queue; a successful one leaves the
        queue alone. */
    method CompleteRequest(i: nat, location: Location, delivered: bool)
      requires Valid() && i < |inFlight|
      modifies this
      ensures Valid()
      ensures inFlight == old(inFlight[..i] + inFlight[i + 1..])
      ensures old(inFlight[i]).sent in dispatched
      ensures var r := old(inFlight[i]);
        var posted := platform.isValidUrl(api);
        transmitted == old(transmitted) + (if posted then [BuildPayload(r.sent, userid, location, platform)] else []) &&
        failedEvents == old(failedEvents) + (if posted && !delivered then [QueuedRecord(r, sessionId)] else [])
      ensures SettingsKept() && sessionId == old(sessionId) && CurrentPage() == old(CurrentPage())
      ensures isSending == old(isSending) && dispatched == old(dispatched)
    {
      var r := inFlight[i];
      assert r in inFlight;
      inFlight := inFlight[..i] + inFlight[i + 1..];
      var payload := BuildPayload(r.sent, userid, location, platform);
      if !platform.isValidUrl(api) {
        return;
      }
      transmitted := transmitted + [payload];
      if !delivered {
        failedEvents := failedEvents + [QueuedRecord(r, sessionId)];
      }
    }

    /** Replaces the session id; records already queued or waiting keep theirs. */
    method UpdateSessionId(newSessionId: string)
      requires Valid()
      modifies this
      ensures Valid()
      ensures sessionId == newSessionId
      ensures SettingsKept() && CurrentPage() == old(CurrentPage())
      ensures failedEvents == old(failedEvents) && isSending == old(isSending) && inFlight == old(inFlight)
      ensures dispatched == old(dispatched) && transmitted == old(transmitted)
    {
      sessionId := newSessionId;
    }

    /** getCurrentPageData: a snapshot that returnToPage reads back as the current page. */
    function GetCurrentPageData(): (d: map<string, Json>)
      reads this
      ensures d == PageData(CurrentPage())
      ensures ParsePageData(Some(d)) == Some(CurrentPage())
    {
      PageDataRoundTrip(CurrentPage());
      PageData(Page(currentPageCode, currentPageName, currentPageExtra))
    }

    /** Enters the page of a snapshot again, when it holds a code and a name; does nothing
        otherwise. */
    method ReturnToPage(pageData: Option<map<string, Json>>, now: int)
      requires Valid()
      modifies this
      ensures Valid()
      ensures match ParsePageData(pageData)
        case None =>
          CurrentPage() == old(CurrentPage()) && dispatched == old(dispatched) && inFlight == old(inFlight)
        case Some(p) =>
          var e := ReturnEvent(p, old(sessionId), now);
          CurrentPage() == NextPage(old(CurrentPage()), e) &&
          dispatched == old(dispatched) + Dispatches(old(CurrentPage()), e) &&
          inFlight == old(inFlight) + Submitted(ipLookupInstalled, Dispatches(old(CurrentPage()), e), Fresh)
      ensures SettingsKept() && sessionId == old(sessionId)
      ensures failedEvents == old(failedEvents) && isSending == old(isSending) && transmitted == old(transmitted)
    {
      match ParsePageData(pageData)
      case None =>
      case Some(p) =>
        AddEvent(p.code, p.name, None, PageIn, Some(p.code), p.extra, now);
    }

    /** resendFailedEvents. The drain runs to the end of the queue: each resubmission's
        outcome arrives later through CompleteRequest, so a failure does not stop it.
        Nothing ever clears isSending, so only the first call that finds a non-empty queue
        drains it. */
    method ResendFailedEvents()
      requires Valid()
      modifies this
      ensures Valid()
      ensures ResendEffect()
    {
      if isSending {
        return;
      }
      if failedEvents == [] {
        return;
      }
      isSending := true;
      ghost var queued := failedEvents;
      ghost var popped := 0;
      while true
        invariant 0 <= popped <= |queued|
        invariant failedEvents == queued[popped..]
        invariant dispatched == old(dispatched) + queued[..popped]
        invariant inFlight == old(inFlight) + Submitted(ipLookupInstalled, queued[..popped], Retry)
        invariant Valid() && isSending
        invariant OutsideQueueKept()
        decreases |failedEvents|
      {
        if failedEvents == [] {
          break;
        }
        var model := failedEvents[0];
        failedEvents := failedEvents[1..];
        RequestApi(model, Retry);
        SubmittedConcat(ipLookupInstalled, queued[..popped], [model], Retry);
        assert queued[..popped + 1] == queued[..popped] + [model];
        popped := popped + 1;
      }
      assert popped == |queued| && queued[..popped] == queued;
    }

    /** The reachability listener: a reachable network starts a drain. */
    method NetworkStatusChanged(reachable: bool)
      requires Valid()
      modifies this
      ensures Valid()
      ensures reachable ==> ResendEffect()
      ensures !reachable ==>
        SettingsKept() && sessionId == old(sessionId) && CurrentPage() == old(CurrentPage()) &&
        failedEvents == old(failedEvents) && isSending == old(isSending) && inFlight == old(inFlight) &&
        dispatched == old(dispatched) && transmitted == old(transmitted)
    {
      if reachable {
        ResendFailedEvents();
      }
    }

    /** The app returns to the foreground. */
    method AppWillEnterForeground(now: int)
      requires Valid()
      modifies this
      ensures Valid()
      ensures OnlyRecorded(AnalyticModel(old(sessionId), "app_foreground", "进入-【前台】", AppIn, now, Some(old(currentPageCode)), None))
    {
      AddEvent("app_foreground", "进入-【前台】", None, AppIn, Some(currentPageCode), None, now);
    }

    /** The app goes to the background; the source reuses the foreground code. */
    method AppDidEnterBackground(now: int)
      requires Valid()
      modifies this
      ensures Valid()
      ensures OnlyRecorded(AnalyticModel(old(sessionId), "app_foreground", "进入-【后台】", AppOut, now, Some(old(currentPageCode)), None))
    {
      AddEvent("app_foreground", "进入-【后台】", None, AppOut, Some(currentPageCode), None, now);
    }

    /** The app becomes active. */
    method DidBecomeActive(now: int)
      requires Valid()
      modifies this
      ensures Valid()
      ensures OnlyRecorded(AnalyticModel(old(sessionId), "app_become_active", "进入-活跃状态", State, now, Some(old(currentPageCode)), None))
    {
      AddEvent("app_become_active", "进入-活跃状态", None, State, Some(currentPageCode), None, now);
    }

    /** The app is about to resign being active. */
    method WillResignActive(now: int)
      requires Valid()
      modifies this
      ensures Valid()
      ensures OnlyRecorded(AnalyticModel(old(sessionId), "app_resign_active", "进入-非活跃状态", State, now, Some(old(currentPageCode)), None))
    {
      AddEvent("app_resign_active", "进入-非活跃状态", None, State, Some(currentPageCode), None, now);
    }
  }
}
