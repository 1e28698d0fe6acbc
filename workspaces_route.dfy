/** The workspace endpoint (app/api/workspaces/route.ts) over the workspace
    collection of models/Workspace.ts: named projects and services per user. */
module WorkspacesRoute {
  import opened Common
  import opened Auth
  import opened Queries

  const MSG_AUTH_REQUIRED := "Authentication required"
  const MSG_MISSING_FIELDS := "Missing fields"
  const MSG_DUPLICATE := "Duplicate workspace name for this user"
  const MSG_FAILED := "Failed"
  const MSG_IN_USE := "Workspace is in use by your PRs"
  const MSG_NOT_FOUND := "Workspace not found"

  /** A workspace; `kind` is the schema's `type` ("project" or "service"). */
  datatype Workspace = Workspace(name: string, kind: string, userId: string)

  datatype WorkspacesBody = Items(items: seq<Workspace>) | Item(item: Workspace)

  predicate KnownKind(kind: string) {
    kind == "project" || kind == "service"
  }

  /** The unique index on (userId, type, name). */
  predicate UniqueTriples(items: seq<Workspace>) {
    forall i, j :: 0 <= i < j < |items| ==> items[i] != items[j]
  }

  /** String order of the store's ascending sort: lexicographic on code points. */
  predicate NameLe(a: string, b: string)
    decreases |a|
  {
    a == [] || (b != [] && (a[0] < b[0] || (a[0] == b[0] && NameLe(a[1..], b[1..]))))
  }

  lemma {:induction false} NameLeTotal(a: string, b: string)
    ensures NameLe(a, b) || NameLe(b, a)
    decreases |a|
  {
    if a != [] && b != [] && a[0] == b[0] {
      NameLeTotal(a[1..], b[1..]);
    }
  }

  predicate SortedByName(s: seq<Workspace>) {
    forall i :: 0 <= i < |s| - 1 ==> NameLe(s[i].name, s[i + 1].name)
  }

  /** Places one workspace into a name-sorted list. */
  function Insert(w: Workspace, s: seq<Workspace>): (r: seq<Workspace>)
    requires SortedByName(s)
    ensures SortedByName(r) && multiset(r) == multiset(s) + multiset{w}
    ensures |r| == |s| + 1 && (r[0] == w || (s != [] && r[0] == s[0]))
  {
    if s == [] || NameLe(w.name, s[0].name) then [w] + s
    else
      NameLeTotal(w.name, s[0].name);
      assert s == [s[0]] + s[1..];
      [s[0]] + Insert(w, s[1..])
  }

  /** `.sort({ name: 1 })`: the same workspaces, ordered by name. */
  function SortByName(s: seq<Workspace>): (r: seq<Workspace>)
    ensures SortedByName(r) && multiset(r) == multiset(s)
  {
    if s == [] then []
    else
      assert s == [s[0]] + s[1..];
      Insert(s[0], SortByName(s[1..]))
  }

  /** `{ userId, type? }`: the workspaces of one user, of one kind when a kind is given. */
  function OwnedOf(items: seq<Workspace>, userId: string, kind: string): (r: seq<Workspace>)
    ensures forall w :: w in r <==> w in items && w.userId == userId && (kind != "" ==> w.kind == kind)
  {
    if items == [] then []
    else if items[0].userId == userId && (kind != "" ==> items[0].kind == kind) then [items[0]] + OwnedOf(items[1..], userId, kind)
    else OwnedOf(items[1..], userId, kind)
  }

  /** Whether a PR of the user names the workspace: its project for a project
      workspace, its service for any other kind. */
  predicate References(d: DbPR, userId: string, kind: string, name: string) {
    d.userId == Some(userId)
    && (if kind == "project" then d.content.project == name else d.content.service == Some(name))
  }

  /** `PR.countDocuments(...)` of the in-use guard. */
  function InUseCount(docs: seq<DbPR>, userId: string, kind: string, name: string): (n: nat)
    ensures n <= |docs|
  {
    if docs == [] then 0
    else (if References(docs[0], userId, kind, name) then 1 else 0) + InUseCount(docs[1..], userId, kind, name)
  }

  /** The guard fires exactly when some PR of the user references the workspace. */
  lemma {:induction false} InUseIffReferenced(docs: seq<DbPR>, userId: string, kind: string, name: string)
    ensures InUseCount(docs, userId, kind, name) > 0 <==> exists d :: d in docs && References(d, userId, kind, name)
  {
    if docs != [] {
      InUseIffReferenced(docs[1..], userId, kind, name);
      assert forall d :: d in docs <==> d == docs[0] || d in docs[1..];
    }
  }

  lemma AppendKeepsTriplesUnique(items: seq<Workspace>, w: Workspace)
    requires UniqueTriples(items) && w !in items
    ensures UniqueTriples(items + [w])
  {
    forall a, b | 0 <= a < b < |items + [w]| ensures (items + [w])[a] != (items + [w])[b] {
      if b == |items| {
        assert (items + [w])[a] in items;
      }
    }
  }

  /** The workspace collection. */
  class WorkspaceCollection {
    var items: seq<Workspace>

    ghost predicate Valid()
      reads this
    {
      UniqueTriples(items)
    }

    constructor (initial: seq<Workspace>)
      requires UniqueTriples(initial)
      ensures Valid() && items == initial
    {
      items := initial;
    }

    /** GET /api/workspaces?type=: the caller's workspaces, of that kind when one is
        given, ordered by name. */
    method Get(caller: Option<Identity>, kind: string) returns (resp: Response<WorkspacesBody>)
      ensures caller.None? ==> resp == ErrorJson(401, MSG_AUTH_REQUIRED)
      ensures caller.Some? ==> resp.Json? && resp.status == 200 && resp.body.Items?
      ensures caller.Some? && resp.Json? && resp.body.Items? ==>
        && SortedByName(resp.body.items)
        && multiset(resp.body.items) == multiset(OwnedOf(items, caller.value.id, kind))
        && forall w :: w in resp.body.items <==>
             w in items && w.userId == caller.value.id && (kind != "" ==> w.kind == kind)
    {
      if caller.None? {
        return CreateAuthResponse(MSG_AUTH_REQUIRED);
      }
      var found := SortByName(OwnedOf(items, caller.value.id, kind));
      forall w ensures w in found <==> w in OwnedOf(items, caller.value.id, kind) {
        assert w in found <==> w in multiset(found);
      }
      resp := Json(200, Items(found));
    }

    /** POST /api/workspaces: creates the caller's workspace (201). The schema
        trims the name and admits only the two kinds; a failed validation is a
        500, and an existing (user, kind, name) a 409. */
    method Post(caller: Option<Identity>, name: string, kind: string) returns (resp: Response<WorkspacesBody>)
      requires Valid()
      modifies this
      ensures Valid()
      ensures caller.None? ==> resp == ErrorJson(401, MSG_AUTH_REQUIRED) && items == old(items)
      ensures caller.Some? && (name == "" || kind == "") ==> resp == Text(400, MSG_MISSING_FIELDS) && items == old(items)
      ensures caller.Some? && name != "" && kind != "" ==>
        var w := Workspace(Trim(name), kind, caller.value.id);
        if !KnownKind(kind) || Trim(name) == "" then
          resp == Text(500, MSG_FAILED) && items == old(items)
        else if w in old(items) then
          resp == Text(409, MSG_DUPLICATE) && items == old(items)
        else
          resp == Json(201, Item(w)) && items == old(items) + [w]
    {
      if caller.None? {
        return CreateAuthResponse(MSG_AUTH_REQUIRED);
      }
      if name == "" || kind == "" {
        return Text(400, MSG_MISSING_FIELDS);
      }
      var w := Workspace(Trim(name), kind, caller.value.id);
      if !KnownKind(kind) || Trim(name) == "" {
        return Text(500, MSG_FAILED);
      }
      if w in items {
        return Text(409, MSG_DUPLICATE);
      }
      AppendKeepsTriplesUnique(items, w);
      items := items + [w];
      resp := Json(201, Item(w));
    }

    /** DELETE /api/workspaces?type=&name=: removes the caller's workspace unless
        one of the caller's PRs still references it. */
    method Delete(caller: Option<Identity>, kind: string, name: string, prs: seq<DbPR>)
      returns (resp: Response<WorkspacesBody>)
      requires Valid()
      modifies this
      ensures Valid()
      ensures caller.None? ==> resp == ErrorJson(401, MSG_AUTH_REQUIRED) && items == old(items)
      ensures caller.Some? && (kind == "" || name == "") ==> resp == Text(400, MSG_MISSING_FIELDS) && items == old(items)
      ensures caller.Some? && kind != "" && name != "" ==>
        var w := Workspace(name, kind, caller.value.id);
        if exists d :: d in prs && References(d, caller.value.id, kind, name) then
          resp == Text(409, MSG_IN_USE) && items == old(items)
        else if w !in old(items) then
          resp == Text(404, MSG_NOT_FOUND) && items == old(items)
        else
          resp == NoContent(204) && w !in items && multiset(items) + multiset{w} == multiset(old(items))
    {
      if caller.None? {
        return CreateAuthResponse(MSG_AUTH_REQUIRED);
      }
      if kind == "" || name == "" {
        return Text(400, MSG_MISSING_FIELDS);
      }
      InUseIffReferenced(prs, caller.value.id, kind, name);
      if InUseCount(prs, caller.value.id, kind, name) > 0 {
        return Text(409, MSG_IN_USE);
      }
      var w := Workspace(name, kind, caller.value.id);
      var i := FindIndex(items, (x: Workspace) => x == w);
      if i < 0 {
        return Text(404, MSG_NOT_FOUND);
      }
      ghost var before := items;
      assert before == before[..i] + [w] + before[i + 1..];
      items := items[..i] + items[i + 1..];
      forall a, b | 0 <= a < b < |items| ensures items[a] != items[b] {
        var pa := if a < i then a else a + 1;
        var pb := if b < i then b else b + 1;
        assert items[a] == before[pa] && items[b] == before[pb];
      }
      resp := NoContent(204);
    }
  }
}
