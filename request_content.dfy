/** The pure part of a request: the clean-up of the serialised `extra` dictionary
    (objectToJsonString), the event content derived from it, and the fixed-key
    parameter dictionary posted to the collection endpoint (requestApi). */
module RequestContent {
  import opened Values
  import opened Text
  import opened EventModel

  /** What the host platform supplies and the model does not compute: the device string,
      the bundle version, the build configuration, Foundation's JSON serialisation (which
      may fail) and Foundation's URL parser. */
  datatype Platform = Platform(
    systemVersion: string,
    appVersion: Option<string>,
    debugBuild: bool,
    serialize: Extra -> Option<string>,
    isValidUrl: string -> bool)

  /** What the IP-lookup closure reports for one request. */
  datatype Location = Location(networkIp: string, countryCode: string, cityCode: string)

  // ---------------------------------------------------------------------------------
  // Stripping the serialised JSON
  // ---------------------------------------------------------------------------------

  /** The serialised text with every space, then every line feed, removed. */
  function Strip(json: string): (r: string)
    ensures ' ' !in r && '\n' !in r
    ensures |r| <= |json|
  {
    RemoveChar(RemoveChar(json, ' '), '\n')
  }

  /** An independent, one-pass statement of the same clean-up: keep exactly the characters
      that are neither a space nor a line feed. */
  function Visible(s: string): string
  {
    if s == [] then []
    else (if s[0] == ' ' || s[0] == '\n' then [] else [s[0]]) + Visible(s[1..])
  }

  /** The two passes of Strip agree with the one-pass definition. */
  lemma {:induction false} StripIsVisible(s: string)
    ensures Strip(s) == Visible(s)
  {
    if s != [] {
      StripIsVisible(s[1..]);
      var head := if s[0] == ' ' then [] else [s[0]];
      RemoveCharConcat(head, RemoveChar(s[1..], ' '), '\n');
    }
  }

  /** Stripping a concatenation strips each part: the characters kept stay in order. */
  lemma StripConcat(a: string, b: string)
    ensures Strip(a + b) == Strip(a) + Strip(b)
  {
    RemoveCharConcat(a, b, ' ');
    RemoveCharConcat(RemoveChar(a, ' '), RemoveChar(b, ' '), '\n');
  }

  /** Every character other than a space or a line feed survives as often as it occurred. */
  lemma StripKeepsOtherCharacters(s: string, x: char)
    requires x != ' ' && x != '\n'
    ensures multiset(Strip(s))[x] == multiset(s)[x]
  {
    RemoveCharCounts(s, ' ', x);
    RemoveCharCounts(RemoveChar(s, ' '), '\n', x);
  }

  /** Stripping an already stripped text changes nothing. */
  lemma StripIdempotent(s: string)
    ensures Strip(Strip(s)) == Strip(s)
  {
    var r := Strip(s);
    RemoveCharAbsent(r, ' ');
    RemoveCharAbsent(r, '\n');
  }

  /** Spaces inside string values are removed too, not only the layout. */
  lemma StripExample()
    ensures Strip("\"x y\"\n") == "\"xy\""
  {
    StripIsVisible("\"x y\"\n");
  }

  // ---------------------------------------------------------------------------------
  // The clean-up as written: the replacement range counts characters, NSRange counts
  // UTF-16 code units. Each character is taken to be a single Unicode scalar value
  // (one Swift Character), so `|s|` is what `String.count` returns.
  // ---------------------------------------------------------------------------------

  /** The UTF-16 length of one character. */
  function Utf16Width(c: char): nat
  {
    if c as int < 0x1_0000 then 1 else 2
  }

  /** How many leading characters of `s` fill exactly `units` UTF-16 code units;
      None when that offset falls inside a character or beyond the end. */
  function CharsInUnits(s: string, units: nat): (k: Option<nat>)
    ensures k.Some? ==> k.value <= |s|
  {
    if units == 0 then Some(0)
    else if s == [] || Utf16Width(s[0]) > units then None
    else match CharsInUnits(s[1..], units - Utf16Width(s[0]))
      case None => None
      case Some(k) => Some(k + 1)
  }

  /** `replacingOccurrences(of: c, with: "", range: Range(NSRange(0, s.count), in: s))`:
      only the first `s.count` UTF-16 units are searched, or the whole string when that
      range cannot be converted. */
  function RemoveInCountedRange(s: string, c: char): (r: string)
    ensures |r| <= |s|
    ensures forall x :: x != c ==> (x in r <==> x in s)
  {
    CountedRangeSplits(s);
    match CharsInUnits(s, |s|)
    case Some(k) => RemoveChar(s[..k], c) + s[k..]
    case None => RemoveChar(s, c)
  }

  /** The text is the searched part followed by the rest. */
  lemma CountedRangeSplits(s: string)
    ensures CharsInUnits(s, |s|).Some? ==>
      var k := CharsInUnits(s, |s|).value;
      s == s[..k] + s[k..] && forall x :: x in s <==> x in s[..k] || x in s[k..]
  {
    if CharsInUnits(s, |s|).Some? {
      var k := CharsInUnits(s, |s|).value;
      assert s == s[..k] + s[k..];
    }
  }

  /** objectToJsonString's clean-up as the source writes it: it never lengthens the text
      and removes nothing but spaces and line feeds, though it may leave some of them. */
  function StripAsWritten(json: string): (r: string)
    ensures |r| <= |json|
    ensures forall x :: x != ' ' && x != '\n' ==> (x in r <==> x in json)
  {
    RemoveInCountedRange(RemoveInCountedRange(json, ' '), '\n')
  }

  /** One pass as written keeps every other character as often as it occurred, whichever
      prefix its counted range covers. */
  lemma RemoveInCountedRangeCounts(s: string, c: char, x: char)
    requires x != c
    ensures multiset(RemoveInCountedRange(s, c))[x] == multiset(s)[x]
  {
    CountedRangeSplits(s);
    match CharsInUnits(s, |s|)
    case Some(k) =>
      RemoveCharCounts(s[..k], c, x);
      assert multiset(s) == multiset(s[..k]) + multiset(s[k..]);
    case None =>
      RemoveCharCounts(s, c, x);
  }

  /** The clean-up as written removes nothing but spaces and line feeds: every other
      character survives as often as it occurred. */
  lemma StripAsWrittenCounts(json: string, x: char)
    requires x != ' ' && x != '\n'
    ensures multiset(StripAsWritten(json))[x] == multiset(json)[x]
  {
    RemoveInCountedRangeCounts(json, ' ', x);
    RemoveInCountedRangeCounts(RemoveInCountedRange(json, ' '), '\n', x);
  }

  /** Characters that take one UTF-16 unit each. */
  predicate InBasicPlane(s: string)
  {
    forall i :: 0 <= i < |s| ==> s[i] as int < 0x1_0000
  }

  lemma {:induction false} BasicPlaneUnits(s: string)
    requires InBasicPlane(s)
    ensures CharsInUnits(s, |s|) == Some(|s|)
  {
    if s != [] {
      assert s[0] as int < 0x1_0000;
      assert InBasicPlane(s[1..]) by {
        forall i | 0 <= i < |s[1..]| ensures s[1..][i] as int < 0x1_0000 {
          assert s[1..][i] == s[i + 1];
        }
      }
      BasicPlaneUnits(s[1..]);
    }
  }

  lemma RemoveCharKeepsBasicPlane(s: string, c: char)
    requires InBasicPlane(s)
    ensures InBasicPlane(RemoveChar(s, c))
  {
    forall i | 0 <= i < |RemoveChar(s, c)| ensures RemoveChar(s, c)[i] as int < 0x1_0000 {
      var x := RemoveChar(s, c)[i];
      assert x in RemoveChar(s, c);
      RemoveCharCounts(s, c, x);
      assert x in multiset(s);
    }
  }

  /** When every character takes one UTF-16 unit the range covers the whole text and the
      source's clean-up is Strip. */
  lemma StripAsWrittenOnBasicPlane(json: string)
    requires InBasicPlane(json)
    ensures StripAsWritten(json) == Strip(json)
  {
    BasicPlaneUnits(json);
    assert json[..|json|] == json && json[|json|..] == [];
    var once := RemoveChar(json, ' ');
    assert RemoveInCountedRange(json, ' ') == once;
    RemoveCharKeepsBasicPlane(json, ' ');
    BasicPlaneUnits(once);
    assert once[..|once|] == once && once[|once|..] == [];
  }

  /** A leading run of one-unit characters advances the range one character per unit. */
  lemma {:induction false} CharsInUnitsAfterBasicPlane(a: string, b: string, units: nat)
    requires InBasicPlane(a)
    ensures CharsInUnits(a + b, |a| + units) ==
      match CharsInUnits(b, units)
      case None => None
      case Some(k) => Some(|a| + k)
  {
    if a != [] {
      assert (a + b)[0] == a[0] && a[0] as int < 0x1_0000;
      assert (a + b)[1..] == a[1..] + b;
      assert InBasicPlane(a[1..]) by {
        forall i | 0 <= i < |a[1..]| ensures a[1..][i] as int < 0x1_0000 {
          assert a[1..][i] == a[i + 1];
        }
      }
      CharsInUnitsAfterBasicPlane(a[1..], b, units);
    } else {
      assert a + b == b;
    }
  }

  /** The end of a pretty-printed object whose last value holds two emoji. */
  const TwoEmojiTail: string := "\U{1F600}\U{1F600}\"\n}"

  /** One pass of the source's clean-up over a one-unit head followed by the tail only
      reaches the first three characters of the tail, which hold neither a space nor a
      line feed: the head is cleaned and the tail is left as it is. */
  lemma {:induction false} PassStopsInTail(head: string, c: char)
    requires InBasicPlane(head)
    requires c == ' ' || c == '\n'
    ensures RemoveInCountedRange(head + TwoEmojiTail, c) == RemoveChar(head, c) + TwoEmojiTail
  {
    var tail := TwoEmojiTail;
    var kept, rest := tail[..3], tail[3..];
    TailUnits();
    RemoveCharAbsent(kept, c);
    var json := head + tail;
    CharsInUnitsAfterBasicPlane(head, tail, 5);
    assert json[..|head| + 3] == head + kept && json[|head| + 3..] == rest;
    RemoveCharConcat(head, kept, c);
    assert kept + rest == tail;
  }

  /** The tail is seven UTF-16 units long; its first five units are its first three
      characters, none of them a space or a line feed. */
  lemma TailUnits()
    ensures CharsInUnits(TwoEmojiTail, 5) == Some(3)
    ensures ' ' !in TwoEmojiTail[..3] && '\n' !in TwoEmojiTail[..3]
  {
    assert TwoEmojiTail[..3] == "\U{1F600}\U{1F600}\"";
  }

  /** After any text of one-unit characters (for instance `{\n  "a" : "`), a value ending in
      two emoji leaves each pass two units short of the end: the final line feed survives
      the source's clean-up, while Strip removes it. */
  lemma StripAsWrittenKeepsLineFeed(head: string)
    requires InBasicPlane(head)
    ensures StripAsWritten(head + TwoEmojiTail) == Strip(head) + TwoEmojiTail
    ensures '\n' in StripAsWritten(head + TwoEmojiTail)
    ensures Strip(head + TwoEmojiTail) == Strip(head) + "\U{1F600}\U{1F600}\"}"
  {
    PassStopsInTail(head, ' ');
    RemoveCharKeepsBasicPlane(head, ' ');
    PassStopsInTail(RemoveChar(head, ' '), '\n');
    assert TwoEmojiTail[3] == '\n';
    assert TwoEmojiTail[3] in Strip(head) + TwoEmojiTail;
    StripConcat(head, TwoEmojiTail);
    StripTail();
  }

  lemma StripTail()
    ensures Strip(TwoEmojiTail) == "\U{1F600}\U{1F600}\"}"
  {
  }

  // ---------------------------------------------------------------------------------
  // Event content and parameter dictionary
  // ---------------------------------------------------------------------------------

  /** The `eventContent` value: the stripped serialisation of `extra`, or "" when there is
      no extra or it cannot be serialised. It uses the corrected clean-up Strip. */
  function EventContent(extra: Option<Extra>, serialize: Extra -> Option<string>): (r: string)
    ensures ' ' !in r && '\n' !in r
    ensures r != "" ==> extra.Some? && serialize(extra.value).Some?
  {
    match extra
    case None => ""
    case Some(e) =>
      match serialize(e)
      case None => ""
      case Some(json) => Strip(json)
  }

  /** Whenever the serialisation holds only one-unit characters, the event content is
      exactly what the source's clean-up as written produces. */
  lemma EventContentAsWritten(extra: Option<Extra>, serialize: Extra -> Option<string>)
    requires extra.Some? && serialize(extra.value).Some?
    requires InBasicPlane(serialize(extra.value).value)
    ensures EventContent(extra, serialize) == StripAsWritten(serialize(extra.value).value)
  {
    StripAsWrittenOnBasicPlane(serialize(extra.value).value);
  }

  /** The environment tag fixed by the build configuration. */
  function Env(debugBuild: bool): (r: string)
    ensures r == "dev" || r == "prd"
    ensures r == "dev" <==> debugBuild
  {
    if debugBuild then "dev" else "prd"
  }

  /** The parameter dictionary posted for one event: its fourteen keys are the field
      names, all values text except the event time. */
  datatype Payload = Payload(
    sessionId: string,
    uuid: string,
    eventCode: string,
    eventName: string,
    eventType: string,
    eventTime: int,
    userIp: string,
    countryCode: string,
    cityCode: string,
    systemVersion: string,
    appVersion: string,
    attrPage: string,
    eventContent: string,
    env: string)

  /** The dictionary requestApi builds once the IP lookup has answered. */
  function BuildPayload(m: AnalyticModel, userid: string, location: Location, platform: Platform): (p: Payload)
    ensures p.sessionId == m.sessionId && p.uuid == userid
    ensures p.eventCode == m.eventCode && p.eventName == m.eventName && p.eventTime == m.timestamp
    ensures p.eventType == TypeCode(m.eventType) && p.eventType in WireCodes
    ensures p.attrPage == m.belongPage.GetOr("") && (m.belongPage == None ==> p.attrPage == "")
    ensures p.eventContent == EventContent(m.extra, platform.serialize)
    ensures ' ' !in p.eventContent && '\n' !in p.eventContent
    ensures p.env == "dev" || p.env == "prd"
    ensures p.env == Env(platform.debugBuild) && (p.env == "dev" <==> platform.debugBuild)
    ensures p.userIp == location.networkIp && p.countryCode == location.countryCode && p.cityCode == location.cityCode
    ensures p.appVersion == platform.appVersion.GetOr("") && p.systemVersion == platform.systemVersion
  {
    Payload(
      sessionId := m.sessionId,
      uuid := userid,
      eventCode := m.eventCode,
      eventName := m.eventName,
      eventType := TypeCode(m.eventType),
      eventTime := m.timestamp,
      userIp := location.networkIp,
      countryCode := location.countryCode,
      cityCode := location.cityCode,
      systemVersion := platform.systemVersion,
      appVersion := platform.appVersion.GetOr(""),
      attrPage := m.belongPage.GetOr(""),
      eventContent := EventContent(m.extra, platform.serialize),
      env := Env(platform.debugBuild))
  }
}
