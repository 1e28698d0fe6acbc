/** The priority badge (components/ui/PriorityTag.tsx): the priority shown, its
    colour classes and its label. The lookup `priorityConfig[priority]` is a
    property read on a plain object, which also finds the members every
    object inherits; the model writes that lookup out as the code does, and
    beside it the lookup on the four own keys that the fallback intends. */
module PriorityTag {
  import opened Common

  datatype Priority = Low | Medium | High | Critical

  function Name(p: Priority): string {
    match p
    case Low => "low"
    case Medium => "medium"
    case High => "high"
    case Critical => "critical"
  }

  /** The configured colour classes of each priority. */
  function Color(p: Priority): string {
    match p
    case Low => "bg-green-500/20 text-green-400 border-green-500/40"
    case Medium => "bg-yellow-500/20 text-yellow-400 border-yellow-500/40"
    case High => "bg-orange-500/20 text-orange-400 border-orange-500/40"
    case Critical => "bg-red-500/20 text-red-400 border-red-500/40"
  }

  /** The priority an own key of the configuration names. */
  function Parse(s: string): (r: Option<Priority>)
    ensures r.Some? ==> Name(r.value) == s
    ensures forall p :: Name(p) == s ==> r == Some(p)
  {
    if s == "low" then Some(Low)
    else if s == "medium" then Some(Medium)
    else if s == "high" then Some(High)
    else if s == "critical" then Some(Critical)
    else None
  }

  /** The members a plain object inherits from Object.prototype; reading one
      yields a function or an object, both truthy, and neither has a `color`. */
  const INHERITED: set<string> := {
    "constructor", "__proto__", "toString", "toLocaleString", "valueOf",
    "hasOwnProperty", "isPrototypeOf", "propertyIsEnumerable",
    "__defineGetter__", "__defineSetter__", "__lookupGetter__", "__lookupSetter__"}

  /** Whether `priorityConfig[s]` is truthy, as the code reads it. */
  predicate ConfigHas(s: string) {
    Parse(s).Some? || s in INHERITED
  }

  /** `config.color` as the code reads it: undefined for an inherited member. */
  function ColorAsWritten(s: string): (r: Option<string>)
    ensures r.Some? <==> Parse(s).Some?
  {
    match Parse(s)
    case Some(p) => Some(Color(p))
    case None => None
  }

  /** safePriority as written: a missing or empty priority, or one the lookup
      does not find, falls back to "medium"; an inherited member is kept. */
  function SafePriorityAsWritten(priority: Option<string>): (r: string)
    ensures priority.None? || priority.value == "" ==> r == "medium"
    ensures priority.Some? && ConfigHas(priority.value) ==> r == priority.value
    ensures priority.Some? && !ConfigHas(priority.value) ==> r == "medium"
  {
    if priority.Some? && priority.value != "" && ConfigHas(priority.value) then priority.value else "medium"
  }

  const BADGE_CLASSES := "inline-flex items-center px-2 py-1 rounded-full text-xs font-medium border "

  /** The class attribute the template builds; an undefined colour prints as
      the text "undefined". */
  function ClassAttribute(color: Option<string>): string {
    BADGE_CLASSES + color.GetOr("undefined")
  }

  /** `charAt(0).toUpperCase()`, for the ASCII letters. */
  function Upper(c: char): (u: char)
    ensures 'a' <= c <= 'z' ==> u as int == c as int - 32
    ensures !('a' <= c <= 'z') ==> u == c
  {
    if 'a' <= c <= 'z' then (c as int - 32) as char else c
  }

  function LowerChar(c: char): (l: char)
    ensures 'A' <= c <= 'Z' ==> l as int == c as int + 32
    ensures !('A' <= c <= 'Z') ==> l == c
  {
    if 'A' <= c <= 'Z' then (c as int + 32) as char else c
  }

  /** The label: the first character upper-cased, the rest as it is. */
  function Label(s: string): (r: string)
    ensures |r| == |s|
    ensures s != [] ==> r[0] == Upper(s[0]) && r[1..] == s[1..]
  {
    if s == [] then [] else [Upper(s[0])] + s[1..]
  }

  /** Lower-casing the first letter of a label gives back a name that started
      with a lower-case letter. */
  lemma LabelRoundTrip(s: string)
    requires s != [] && 'a' <= s[0] <= 'z'
    ensures [LowerChar(Label(s)[0])] + Label(s)[1..] == s
  {
    assert s == [s[0]] + s[1..];
  }

  /** The intended fallback: only the four own keys are kept, anything else,
      a missing priority included, shows as medium. */
  function SafePriority(priority: Option<string>): (r: Priority)
    ensures priority.Some? && Parse(priority.value).Some? ==> r == Parse(priority.value).value
    ensures priority.None? || Parse(priority.value).None? ==> r == Medium
    ensures forall p :: priority == Some(Name(p)) ==> r == p
  {
    if priority.Some? && Parse(priority.value).Some? then Parse(priority.value).value else Medium
  }

  /** With the intended fallback every badge has a configured colour and one
      of the four labels. */
  lemma BadgeAlwaysConfigured(priority: Option<string>)
    ensures ColorAsWritten(Name(SafePriority(priority))) == Some(Color(SafePriority(priority)))
    ensures Label(Name(SafePriority(priority))) in {"Low", "Medium", "High", "Critical"}
  {
    var p := SafePriority(priority);
    match p
    case Low => assert Label("low") == "Low";
    case Medium => assert Label("medium") == "Medium";
    case High => assert Label("high") == "High";
    case Critical => assert Label("critical") == "Critical";
  }

  /** As written, the intended fallback and the code agree on every priority
      that is not an inherited member. */
  lemma AsWrittenAgreesOffInherited(priority: Option<string>)
    requires priority.None? || priority.value !in INHERITED
    ensures SafePriorityAsWritten(priority) == Name(SafePriority(priority))
  {
  }

  /** As written, the priority "toString" is kept: the badge reads "ToString"
      and its class ends in "undefined" instead of falling back to medium. */
  lemma InheritedKeyEscapesFallback()
    ensures SafePriorityAsWritten(Some("toString")) == "toString"
    ensures Label(SafePriorityAsWritten(Some("toString"))) == "ToString"
    ensures ClassAttribute(ColorAsWritten(SafePriorityAsWritten(Some("toString")))) == BADGE_CLASSES + "undefined"
    ensures SafePriority(Some("toString")) == Medium
  {
    assert "toString" in INHERITED;
    assert Parse("toString").None?;
  }
}
