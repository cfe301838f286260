/** How an event's name is formed on its way to the Firebase sink: the analytics tool
    passes `code + "_" + firebaseTypeCode`, and the Firebase tool appends the application
    version with its dots removed. The SDK calls themselves are not modelled. */
module FirebaseNaming {
  import opened Values
  import opened Text
  import opened EventModel

  /** Firebase refuses longer event names; the source asserts this bound. */
  const MaxEventNameLength := 40

  /** The name the analytics tool hands to the Firebase tool for an event. */
  function ToolEventName(code: string, t: EventType): (r: string)
    ensures |r| == |code| + 1 + |FirebaseTypeCode(t)|
    ensures r[..|code|] == code && r[|code|] == '_'
    ensures r[|code| + 1..] == FirebaseTypeCode(t)
  {
    code + "_" + FirebaseTypeCode(t)
  }

  /** A state event's name ends in the separator, since its Firebase code is empty; every
      other kind ends in a non-empty code after the separator. */
  lemma StateNameEndsInSeparator(code: string, t: EventType)
    ensures var r := ToolEventName(code, t);
      (r[|r| - 1] == '_' && |r| == |code| + 1) <==> t == State
  {
    var r := ToolEventName(code, t);
    if t != State {
      assert r[|code| + 1..] == FirebaseTypeCode(t);
    }
  }

  /** Click and value-change events with the same code get different Firebase names. */
  lemma ClickAndValueChangeNamesDiffer(code: string)
    ensures ToolEventName(code, Click) != ToolEventName(code, ValueChange)
  {
    assert |ToolEventName(code, Click)| != |ToolEventName(code, ValueChange)|;
  }

  /** The application version with every "." removed; "" when the version is unknown. */
  function VersionSuffix(appVersion: Option<string>): (v: string)
    ensures '.' !in v
    ensures appVersion.None? ==> v == ""
  {
    RemoveChar(appVersion.GetOr(""), '.')
  }

  /** The suffix keeps every character of the version except the dots, as often as it
      occurs there. */
  lemma VersionSuffixKeepsDigits(version: string, x: char)
    ensures multiset(VersionSuffix(Some(version)))[x] == if x == '.' then 0 else multiset(version)[x]
  {
    RemoveCharCounts(version, '.', x);
  }

  /** How many characters the version part adds to a name: none when the suffix is empty,
      otherwise the separator and the suffix. */
  function SuffixLength(appVersion: Option<string>): nat
  {
    var version := VersionSuffix(appVersion);
    if version == "" then 0 else 1 + |version|
  }

  /** The name the Firebase tool logs: the name, with "_" and the version suffix appended
      when that suffix is not empty. The source asserts that the result fits Firebase's
      limit. */
  function LoggedEventName(name: string, appVersion: Option<string>): (r: string)
    requires |name| + SuffixLength(appVersion) <= MaxEventNameLength
    ensures |r| == |name| + SuffixLength(appVersion) <= MaxEventNameLength
    ensures r[..|name|] == name
    ensures VersionSuffix(appVersion) == "" <==> r == name
    ensures r != name ==> r[|name|] == '_' && r[|name| + 1..] == VersionSuffix(appVersion)
  {
    var version := VersionSuffix(appVersion);
    if version != "" then name + "_" + version else name
  }

  /** For an event the analytics tool forwards, the logged name starts with its code, the
      separator and the Firebase code of its kind, and the version part carries no dot. */
  lemma LoggedToolName(code: string, t: EventType, appVersion: Option<string>)
    requires |code| + 1 + |FirebaseTypeCode(t)| + SuffixLength(appVersion) <= MaxEventNameLength
    ensures var r := LoggedEventName(ToolEventName(code, t), appVersion);
      r[..|code|] == code && r[|code|] == '_' &&
      r[|code| + 1..|code| + 1 + |FirebaseTypeCode(t)|] == FirebaseTypeCode(t) &&
      |code| + 1 + |FirebaseTypeCode(t)| <= |r| <= MaxEventNameLength &&
      '.' !in r[|code| + 1 + |FirebaseTypeCode(t)|..]
  {
    var base := ToolEventName(code, t);
    var r := LoggedEventName(base, appVersion);
    assert r[..|base|] == base;
    assert r[..|code|] == base[..|code|];
    if r != base {
      assert r[|base|..] == "_" + VersionSuffix(appVersion);
    }
  }

  /** The version "1.2.3" becomes the suffix "_123". */
  lemma VersionExample()
    ensures LoggedEventName("app_foreground_in", Some("1.2.3")) == "app_foreground_in_123"
  {
    assert VersionSuffix(Some("1.2.3")) == "123";
    assert SuffixLength(Some("1.2.3")) == 4;
  }
}
