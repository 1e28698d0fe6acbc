/** Types shared by the server and the client (lib/types.ts), the shape of an
    HTTP response, and the few JavaScript built-ins the core leans on
    (String.prototype.trim, Array.prototype.findIndex, Array.from(new Set(..))). */
module Common {

  datatype Option<T> = None | Some(value: T) {
    function GetOr(default: T): T {
      if Some? then value else default
    }
  }

  /** The board columns (ColumnId), in board order. */
  datatype Status = Initial | InReview | Approved | Merged | Released

  const AllStatuses: seq<Status> := [Initial, InReview, Approved, Merged, Released]

  /** The wire name of a status. */
  function StatusName(s: Status): string {
    match s
    case Initial => "initial"
    case InReview => "in_review"
    case Approved => "approved"
    case Merged => "merged"
    case Released => "released"
  }

  datatype Link = Link(url: string, caption: Option<string>)  // `label` in the source; a keyword here

  /** A PR as the API returns it and the client keeps it: the record mapDoc
      builds (lib/queries.ts), a superset of the PRItem type of lib/types.ts. */
  datatype PRItem = PRItem(
    id: string,
    title: string,
    project: string,
    service: Option<string>,
    category: string,
    author: string,
    description: Option<string>,
    status: Status,
    priority: string,
    links: seq<Link>,
    scheduledDate: Option<string>,
    scheduledTime: Option<string>,
    emailReminder: Option<bool>,
    calendarEvent: Option<bool>)

  /** What a route handler answers: a JSON body, a plain-text body, a JSON
      `{ error }` body, or no body at all. */
  datatype Response<B> =
    | Json(status: int, body: B)
    | Text(status: int, text: string)
    | ErrorJson(status: int, error: string)
    | NoContent(status: int)

  /** The characters String.prototype.trim removes: WhiteSpace and LineTerminator
      of ECMA-262, written as code points. */
  predicate IsSpace(c: char) {
    var n := c as int;
    n == 0x09 || n == 0x0A || n == 0x0B || n == 0x0C || n == 0x0D || n == 0x20
    || n == 0xA0 || n == 0x1680 || (0x2000 <= n <= 0x200A) || n == 0x2028 || n == 0x2029
    || n == 0x202F || n == 0x205F || n == 0x3000 || n == 0xFEFF
  }

  /** `res.ok`: a status in the 200 range. */
  predicate OkStatus(status: int) {
    200 <= status < 300
  }

  predicate AllSpace(s: string) {
    forall i :: 0 <= i < |s| ==> IsSpace(s[i])
  }

  /** The index of the first character at or after `i` that is not white
      space, or |s| when there is none. */
  function SkipSpace(s: string, i: nat): (k: nat)
    requires i <= |s|
    ensures i <= k <= |s|
    ensures forall j :: i <= j < k ==> IsSpace(s[j])
    ensures k < |s| ==> !IsSpace(s[k])
    decreases |s| - i
  {
    if i == |s| || !IsSpace(s[i]) then i else SkipSpace(s, i + 1)
  }

  /** The index just after the last character before `j` that is not white
      space, or 0 when there is none. */
  function SkipSpaceBack(s: string, j: nat): (k: nat)
    requires j <= |s|
    ensures k <= j
    ensures forall m :: k <= m < j ==> IsSpace(s[m])
    ensures k > 0 ==> !IsSpace(s[k - 1])
  {
    if j == 0 || !IsSpace(s[j - 1]) then j else SkipSpaceBack(s, j - 1)
  }

  /** String.prototype.trim: the text between the leading and the trailing
      white space. */
  function Trim(s: string): (r: string)
    ensures r == [] || (!IsSpace(r[0]) && !IsSpace(r[|r| - 1]))
  {
    var a := SkipSpace(s, 0);
    var b := SkipSpaceBack(s, |s|);
    if a < b then s[a..b] else []
  }

  /** Trim(s) is `s` less a leading and a trailing run of white space. */
  lemma TrimIsInnerSlice(s: string)
    ensures exists a, b :: 0 <= a <= b <= |s| && Trim(s) == s[a..b] && AllSpace(s[..a]) && AllSpace(s[b..])
  {
    var a := SkipSpace(s, 0);
    var b := SkipSpaceBack(s, |s|);
    if a < b {
      assert AllSpace(s[..a]) && AllSpace(s[b..]);
    } else {
      assert AllSpace(s[..a]) && s[a..a] == [] && s[a..] == [];
    }
  }

  /** A string trims to "" exactly when every character in it is white space. */
  lemma TrimEmptyIffAllSpace(s: string)
    ensures Trim(s) == "" <==> AllSpace(s)
  {
    var a := SkipSpace(s, 0);
    var b := SkipSpaceBack(s, |s|);
    assert a < b ==> s[a..b][0] == s[a];
  }

  /** Array.prototype.findIndex: the first index whose element satisfies `p`, or -1. */
  function FindIndex<T>(s: seq<T>, p: T -> bool): (r: int)
    ensures -1 <= r < |s|
    ensures r >= 0 ==> p(s[r]) && forall k :: 0 <= k < r ==> !p(s[k])
    ensures r == -1 ==> forall k :: 0 <= k < |s| ==> !p(s[k])
  {
    if s == [] then -1
    else if p(s[0]) then 0
    else
      var k := FindIndex(s[1..], p);
      if k < 0 then -1 else k + 1
  }

  predicate NoDuplicates<T(==)>(s: seq<T>) {
    forall i, j :: 0 <= i < j < |s| ==> s[i] != s[j]
  }

  /** Array.from(new Set(s)): the distinct elements of `s`. */
  function Dedup<T(==,!new)>(s: seq<T>): (r: seq<T>)
    ensures NoDuplicates(r)
    ensures forall x :: x in r <==> x in s
    ensures |r| <= |s|
  {
    if s == [] then []
    else
      var prefix := Dedup(s[..|s| - 1]);
      var last := s[|s| - 1];
      assert forall x :: x in s <==> x in s[..|s| - 1] || x == last;
      if last in prefix then prefix else prefix + [last]
  }

  /** Adding one element to a list through a Set: a list without duplicates keeps
      its order and gains `x` at the end unless `x` is already present. */
  lemma {:induction false} DedupSnoc<T(!new)>(l: seq<T>, x: T)
    requires NoDuplicates(l)
    ensures Dedup(l + [x]) == if x in l then l else l + [x]
  {
    assert (l + [x])[..|l + [x]| - 1] == l;
    DedupOfDistinct(l);
  }

  /** A list without duplicates passes through Array.from(new Set(..)) unchanged. */
  lemma {:induction false} DedupOfDistinct<T(!new)>(s: seq<T>)
    requires NoDuplicates(s)
    ensures Dedup(s) == s
  {
    if s != [] {
      var init := s[..|s| - 1];
      assert NoDuplicates(init);
      DedupOfDistinct(init);
      assert s[|s| - 1] !in init;
      assert init + [s[|s| - 1]] == s;
    }
  }
}
