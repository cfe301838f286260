/** The event record and the event-type catalog: `AnalyticModel` and `EventType` with its
    three fixed lookup tables (wire code, Firebase code, display-name template). */
module EventModel {
  import opened Values

  /** The kinds of event the tool records. */
  datatype EventType =
    | AppIn | AppOut | PageIn | PageOut | Click | ValueChange
    | Load | Show | Close | State | Error

  /** One tracked event, as handed to the network layer and as kept in the retry queue.
      Timestamps are epoch milliseconds. */
  datatype AnalyticModel = AnalyticModel(
    sessionId: string,
    eventCode: string,
    eventName: string,
    eventType: EventType,
    timestamp: int,
    belongPage: Option<string>,
    extra: Option<Extra>)

  /** The five coarse categories the collection endpoint accepts. */
  const WireCodes: set<string> := {"in", "out", "click", "load", "error"}

  /** The coarse category sent as `eventType`. */
  function TypeCode(t: EventType): (r: string)
    ensures r in WireCodes
  {
    match t
    case AppIn => "in"
    case AppOut => "out"
    case PageIn => "in"
    case PageOut => "out"
    case ValueChange => "click"
    case Click => "click"
    case Load => "load"
    case Show => "in"
    case Close => "out"
    case State => "load"
    case Error => "error"
  }

  /** Which kinds fall in which category, in both directions. */
  lemma TypeCodeClasses(t: EventType)
    ensures TypeCode(t) == "in" <==> t == AppIn || t == PageIn || t == Show
    ensures TypeCode(t) == "out" <==> t == AppOut || t == PageOut || t == Close
    ensures TypeCode(t) == "click" <==> t == Click || t == ValueChange
    ensures TypeCode(t) == "load" <==> t == Load || t == State
    ensures TypeCode(t) == "error" <==> t == Error
  {
  }

  /** The finer category appended to the Firebase event name. */
  function FirebaseTypeCode(t: EventType): (r: string)
    ensures r == "" <==> t == State
  {
    match t
    case AppIn => "in"
    case AppOut => "out"
    case PageIn => "in"
    case PageOut => "out"
    case ValueChange => "vc"
    case Click => "clk"
    case Load => "ld"
    case Show => "in"
    case Close => "out"
    case State => ""
    case Error => "err"
  }

  /** Firebase codes refine wire codes: two kinds with different wire codes never share a
      Firebase code, and click and value change, which share a wire code, are told apart. */
  lemma FirebaseCodeRefinesTypeCode(t: EventType, u: EventType)
    ensures FirebaseTypeCode(t) == FirebaseTypeCode(u) ==> TypeCode(t) == TypeCode(u)
    ensures TypeCode(Click) == TypeCode(ValueChange)
    ensures FirebaseTypeCode(Click) == "clk" && FirebaseTypeCode(ValueChange) == "vc"
  {
  }

  /** The placeholder that a display-name template carries for the subject's name. */
  const Placeholder: string := "@name"

  /** How many times `pat` occurs in `s`, overlapping occurrences included. */
  function Occurrences(s: string, pat: string): nat
    requires pat != []
    decreases |s|
  {
    if |s| < |pat| then 0
    else (if s[..|pat|] == pat then 1 else 0) + Occurrences(s[1..], pat)
  }

  /** The display-name template of each kind; only the app kinds use the bare
      placeholder. */
  function EventNamePrefix(t: EventType): (r: string)
    ensures r == Placeholder <==> t == AppIn || t == AppOut
  {
    match t
    case AppIn => "@name"
    case AppOut => "@name"
    case PageIn => "进入-【@name】"
    case PageOut => "离开-【@name】"
    case ValueChange => "值改变-@name"
    case Click => "点击-@name"
    case Load => "加载-@name"
    case Show => "显示-【@name】"
    case Close => "关闭-【@name】"
    case State => "状态-@name"
    case Error => "错误-@name"
  }

  /** A string with no '@' holds no placeholder. */
  lemma {:induction false} NoPlaceholderWithoutAt(s: string)
    requires '@' !in s
    ensures Occurrences(s, Placeholder) == 0
  {
    if |s| >= |Placeholder| {
      assert s[0] in s;
      assert s[..|Placeholder|][0] == s[0];
      assert forall c :: c in s[1..] ==> c in s;
      NoPlaceholderWithoutAt(s[1..]);
    }
  }

  /** The placeholder put between two texts without '@' occurs exactly once. */
  lemma {:induction false} PlaceholderOnceBetween(before: string, after: string)
    requires '@' !in before && '@' !in after
    ensures Occurrences(before + Placeholder + after, Placeholder) == 1
    decreases |before|
  {
    var s := before + Placeholder + after;
    if before == [] {
      assert s[..|Placeholder|] == Placeholder;
      assert s[1..] == Placeholder[1..] + after;
      assert '@' !in Placeholder[1..];
      NoPlaceholderWithoutAt(s[1..]);
    } else {
      assert s[0] == before[0] && before[0] in before;
      assert s[..|Placeholder|][0] == s[0];
      assert s[1..] == before[1..] + Placeholder + after;
      assert forall c :: c in before[1..] ==> c in before;
      PlaceholderOnceBetween(before[1..], after);
    }
  }

  /** Each template is some text, the placeholder, and some text, neither text holding '@'. */
  lemma TemplateParts(t: EventType) returns (before: string, after: string)
    ensures EventNamePrefix(t) == before + Placeholder + after
    ensures '@' !in before && '@' !in after
    ensures t == AppIn || t == AppOut ==> before == after == ""
  {
    if t == AppIn || t == AppOut {
      before, after := "", "";
    } else if t == PageIn || t == PageOut || t == Show || t == Close {
      before, after := BracketedTemplate(t);
    } else {
      before, after := PrefixedTemplate(t);
    }
  }

  /** The templates that put the subject between 【 and 】. */
  lemma BracketedTemplate(t: EventType) returns (before: string, after: string)
    requires t == PageIn || t == PageOut || t == Show || t == Close
    ensures EventNamePrefix(t) == before + Placeholder + after
    ensures '@' !in before && '@' !in after
  {
    match t
    case PageIn => before, after := "进入-【", "】";
    case PageOut => before, after := "离开-【", "】";
    case Show => before, after := "显示-【", "】";
    case Close => before, after := "关闭-【", "】";
  }

  /** The templates that end in the subject. */
  lemma PrefixedTemplate(t: EventType) returns (before: string, after: string)
    requires t == ValueChange || t == Click || t == Load || t == State || t == Error
    ensures EventNamePrefix(t) == before + Placeholder + after
    ensures '@' !in before && after == ""
  {
    match t
    case ValueChange => before, after := "值改变-", "";
    case Click => before, after := "点击-", "";
    case Load => before, after := "加载-", "";
    case State => before, after := "状态-", "";
    case Error => before, after := "错误-", "";
  }

  /** Every template names its subject exactly once, and the application-level kinds use
      the bare placeholder. */
  lemma TemplateHasOnePlaceholder(t: EventType)
    ensures Occurrences(EventNamePrefix(t), Placeholder) == 1
    ensures t == AppIn || t == AppOut ==> EventNamePrefix(t) == Placeholder
  {
    var before, after := TemplateParts(t);
    PlaceholderOnceBetween(before, after);
  }
}
