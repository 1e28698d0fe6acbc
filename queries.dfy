/** The data-access layer for PRs (lib/queries.ts): the PR collection of the
    document store together with the process-wide read cache in front of it.

    The collection is kept in the order the listing query sorts it in
    (`updatedAt` descending): a created document goes to the front, and so does
    a document that an update touches. A query's result is then its matching
    documents in collection order. */
module Queries {
  import opened Common

  /** How long a cached listing is served, in milliseconds. */
  const TTL_MS := 60_000

  /** The fields of a PR document other than its identity, owner and status. */
  datatype Content = Content(
    title: string,
    project: string,
    service: Option<string>,
    category: string,
    author: string,
    description: Option<string>,
    priority: string,
    links: Option<seq<Link>>,
    scheduledDate: Option<string>,
    scheduledTime: Option<string>,
    emailReminder: Option<bool>,
    calendarEvent: Option<bool>)

  /** A stored PR document (DbPR); `oid` is the store's own `_id`. */
  datatype DbPR = DbPR(oid: string, id: Option<string>, userId: Option<string>, status: Status, content: Content)

  /** The PR the client sees carries the document's content field for field,
      with missing links read as no links. */
  predicate CarriesContent(p: PRItem, c: Content) {
    && p.title == c.title && p.project == c.project && p.service == c.service
    && p.category == c.category && p.author == c.author && p.description == c.description
    && p.priority == c.priority && p.links == c.links.GetOr([])
    && p.scheduledDate == c.scheduledDate && p.scheduledTime == c.scheduledTime
    && p.emailReminder == c.emailReminder && p.calendarEvent == c.calendarEvent
  }

  /** mapDoc: a document as the API returns it. */
  function MapDoc(d: DbPR): (r: PRItem)
    ensures d.id.Some? && d.id.value != "" ==> r.id == d.id.value
    ensures d.id.None? || d.id == Some("") ==> r.id == d.oid
    ensures r.status == d.status && CarriesContent(r, d.content)
  {
    var c := d.content;
    PRItem(
      if d.id.Some? && d.id.value != "" then d.id.value else d.oid,
      c.title, c.project, c.service, c.category, c.author, c.description,
      d.status, c.priority, c.links.GetOr([]),
      c.scheduledDate, c.scheduledTime, c.emailReminder, c.calendarEvent)
  }

  /** `docs.map(mapDoc)`. */
  function MapDocs(ds: seq<DbPR>): (r: seq<PRItem>)
    ensures |r| == |ds| && forall i :: 0 <= i < |ds| ==> r[i] == MapDoc(ds[i])
  {
    seq(|ds|, i requires 0 <= i < |ds| => MapDoc(ds[i]))
  }

  /** getPRs's filter; "" stands for a field that is absent or falsy. */
  datatype Filter = Filter(project: string, status: string, userId: string)

  /** The query condition built from a filter. It is also the cache key: the
      source keys the cache by the JSON text of the condition, whose fields
      always appear in the same order, so equal keys mean equal conditions. */
  datatype Cond = Cond(project: Option<string>, status: Option<string>, userId: Option<string>)

  function Keep(s: string): Option<string> {
    if s != "" then Some(s) else None
  }

  /** Filter sanitisation: a field enters the condition only when it is truthy. */
  function Sanitize(f: Filter): (c: Cond)
    ensures c.project.Some? <==> f.project != ""
    ensures c.status.Some? <==> f.status != ""
    ensures c.userId.Some? <==> f.userId != ""
    ensures c.project.GetOr("") == f.project && c.status.GetOr("") == f.status
    ensures c.userId.GetOr("") == f.userId
  {
    Cond(Keep(f.project), Keep(f.status), Keep(f.userId))
  }

  /** A document satisfies a condition when it equals every field the condition holds. */
  predicate Matches(d: DbPR, c: Cond) {
    && (c.project.Some? ==> d.content.project == c.project.value)
    && (c.status.Some? ==> StatusName(d.status) == c.status.value)
    && (c.userId.Some? ==> d.userId == c.userId)
  }

  /** `PR.find(cond)`: the matching documents, in collection order (SelectAppend). */
  function Select(docs: seq<DbPR>, c: Cond): (r: seq<DbPR>)
    ensures |r| <= |docs|
    ensures forall d :: d in r <==> d in docs && Matches(d, c)
  {
    if docs == [] then []
    else if Matches(docs[0], c) then [docs[0]] + Select(docs[1..], c)
    else Select(docs[1..], c)
  }

  /** The empty filter lists the whole collection. */
  lemma {:induction false} EmptyFilterSelectsAll(docs: seq<DbPR>)
    ensures Select(docs, Sanitize(Filter("", "", ""))) == docs
  {
    if docs != [] {
      EmptyFilterSelectsAll(docs[1..]);
    }
  }

  /** Selection distributes over concatenation, so it keeps the collection order. */
  lemma {:induction false} SelectAppend(a: seq<DbPR>, b: seq<DbPR>, c: Cond)
    ensures Select(a + b, c) == Select(a, c) + Select(b, c)
  {
    if a == [] {
      assert a + b == b;
    } else {
      var ab := a + b;
      assert ab[0] == a[0] && ab[1..] == a[1..] + b;
      SelectAppend(a[1..], b, c);
      if Matches(a[0], c) {
        calc {
          Select(ab, c);
          [a[0]] + Select(a[1..] + b, c);
          [a[0]] + (Select(a[1..], c) + Select(b, c));
          ([a[0]] + Select(a[1..], c)) + Select(b, c);
        }
      }
    }
  }

  /** A listing scoped to an owner holds only documents of that owner. */
  lemma OwnerScopedSelect(docs: seq<DbPR>, f: Filter)
    requires f.userId != ""
    ensures forall d :: d in Select(docs, Sanitize(f)) ==> d.userId == Some(f.userId) && d in docs
  {
  }

  /** A cached listing: when it was read and what the store returned. */
  datatype CacheEntry = CacheEntry(ts: int, data: seq<DbPR>)

  /** Every cached listing is what the store would return now. */
  ghost predicate Coherent(docs: seq<DbPR>, cache: map<Cond, CacheEntry>) {
    forall k :: k in cache ==> cache[k].data == Select(docs, k)
  }

  /** The unique index on `id`: no two documents share an id (a missing id counts
      as one value). */
  predicate UniqueIds(docs: seq<DbPR>) {
    forall i, j :: 0 <= i < j < |docs| ==> docs[i].id != docs[j].id
  }

  /** createPR's argument: the body fields, with `id`, `status` and `userId`
      present only when the caller supplied them. */
  datatype Draft = Draft(id: Option<string>, status: Option<Status>, userId: Option<string>, content: Content)

  /** The document createPR inserts: `{ id, status: 'initial', ...data, userId }`.
      Supplied fields override the generated id and the initial status; the owner is
      `data.userId` when truthy and absent otherwise. */
  function NewDoc(data: Draft, genId: string, oid: string): (d: DbPR)
    ensures d.id == Some(data.id.GetOr(genId))
    ensures d.status == data.status.GetOr(Initial)
    ensures data.userId.Some? && data.userId.value != "" ==> d.userId == data.userId
    ensures data.userId.None? || data.userId == Some("") ==> d.userId.None?
    ensures d.content == data.content
  {
    DbPR(oid, Some(data.id.GetOr(genId)), if data.userId.Some? && data.userId.value != "" then data.userId else None,
         data.status.GetOr(Initial), data.content)
  }

  /** Every link of `d` has a url (the link schema requires one). */
  predicate LinksHaveUrls(d: DbPR) {
    forall l :: l in d.content.links.GetOr([]) ==> l.url != ""
  }

  /** No stored document has the id of `d` (the unique index on `id`). */
  predicate FreshId(docs: seq<DbPR>, d: DbPR) {
    forall e :: e in docs ==> e.id != d.id
  }

  /** The schema of models/PR.ts as written: title, project and author are all
      required, whatever the category, and so is each link's url. */
  predicate InsertableAsWritten(docs: seq<DbPR>, d: DbPR) {
    && d.content.title != "" && d.content.project != "" && d.content.author != ""
    && LinksHaveUrls(d) && FreshId(docs, d)
  }

  /** Whether the store accepts a new document: title and author are non-empty,
      a project-type PR names its project, every link has a url, and no stored
      document has its id.
      This is the schema the PR endpoint's category check is written against: a
      service-type PR carries no project. */
  predicate Insertable(docs: seq<DbPR>, d: DbPR) {
    && d.content.title != "" && d.content.author != ""
    && (d.content.category == "project" ==> d.content.project != "")
    && LinksHaveUrls(d) && FreshId(docs, d)
  }

  /** Partial<PRItem> without `id` (the only caller strips it): the fields an
      update sets. */
  datatype PartialPR = PartialPR(
    status: Option<Status>,
    title: Option<string>,
    project: Option<string>,
    service: Option<string>,
    category: Option<string>,
    author: Option<string>,
    description: Option<string>,
    priority: Option<string>,
    links: Option<seq<Link>>,
    scheduledDate: Option<string>,
    scheduledTime: Option<string>,
    emailReminder: Option<bool>,
    calendarEvent: Option<bool>)

  /** `a` when it is present, `b` otherwise. */
  function Or<T>(a: Option<T>, b: Option<T>): Option<T> {
    if a.Some? then a else b
  }

  /** The `$set` an update performs: each supplied field replaces the stored one. */
  function ApplyPatch(d: DbPR, u: PartialPR): (r: DbPR)
    ensures r.oid == d.oid && r.id == d.id && r.userId == d.userId
    ensures r.status == u.status.GetOr(d.status)
    ensures r.content.title == u.title.GetOr(d.content.title)
    ensures r.content.project == u.project.GetOr(d.content.project)
    ensures r.content.service == Or(u.service, d.content.service)
    ensures r.content.category == u.category.GetOr(d.content.category)
    ensures r.content.author == u.author.GetOr(d.content.author)
    ensures r.content.description == Or(u.description, d.content.description)
    ensures r.content.priority == u.priority.GetOr(d.content.priority)
    ensures r.content.links == Or(u.links, d.content.links)
    ensures r.content.scheduledDate == Or(u.scheduledDate, d.content.scheduledDate)
    ensures r.content.scheduledTime == Or(u.scheduledTime, d.content.scheduledTime)
    ensures r.content.emailReminder == Or(u.emailReminder, d.content.emailReminder)
    ensures r.content.calendarEvent == Or(u.calendarEvent, d.content.calendarEvent)
  {
    var c := d.content;
    d.(status := u.status.GetOr(d.status),
       content := Content(
         u.title.GetOr(c.title), u.project.GetOr(c.project), Or(u.service, c.service),
         u.category.GetOr(c.category), u.author.GetOr(c.author), Or(u.description, c.description),
         u.priority.GetOr(c.priority), Or(u.links, c.links), Or(u.scheduledDate, c.scheduledDate),
         Or(u.scheduledTime, c.scheduledTime), Or(u.emailReminder, c.emailReminder),
         Or(u.calendarEvent, c.calendarEvent)))
  }

  const NoChanges := PartialPR(None, None, None, None, None, None, None, None, None, None, None, None, None)

  /** An update that sets nothing leaves the document as it was. */
  lemma EmptyPatchIsIdentity(d: DbPR)
    ensures ApplyPatch(d, NoChanges) == d
  {
  }

  /** The query of updatePR and deletePR: `{ id, userId }` when a user is given,
      `{ id }` otherwise. */
  predicate IdOwnerMatch(d: DbPR, id: string, userId: string) {
    d.id == Some(id) && (userId != "" ==> d.userId == Some(userId))
  }

  /** The position of the document a one-document update or delete acts on, or -1. */
  function FindTarget(docs: seq<DbPR>, id: string, userId: string): (i: int)
    ensures -1 <= i < |docs|
    ensures i >= 0 ==> IdOwnerMatch(docs[i], id, userId)
    ensures i < 0 ==> forall d :: d in docs ==> !IdOwnerMatch(d, id, userId)
  {
    FindIndex(docs, (d: DbPR) => IdOwnerMatch(d, id, userId))
  }

  /** Moving a document to the front of the collection, with its id unchanged,
      keeps ids unique. */
  lemma MoveToFrontKeepsIdsUnique(docs: seq<DbPR>, i: int, u: DbPR)
    requires UniqueIds(docs) && 0 <= i < |docs| && u.id == docs[i].id
    ensures UniqueIds([u] + docs[..i] + docs[i + 1..])
  {
    var n := [u] + docs[..i] + docs[i + 1..];
    forall a, b | 0 <= a < b < |n| ensures n[a].id != n[b].id {
      var pa := if a == 0 then i else if a <= i then a - 1 else a;
      var pb := if b == 0 then i else if b <= i then b - 1 else b;
      assert n[a].id == docs[pa].id;
      assert n[b].id == docs[pb].id;
      assert pa != pb;
    }
  }

  /** Removing one document keeps ids unique. */
  lemma RemoveKeepsIdsUnique(docs: seq<DbPR>, i: int)
    requires UniqueIds(docs) && 0 <= i < |docs|
    ensures UniqueIds(docs[..i] + docs[i + 1..])
  {
    var n := docs[..i] + docs[i + 1..];
    forall a, b | 0 <= a < b < |n| ensures n[a].id != n[b].id {
      var pa := if a < i then a else a + 1;
      var pb := if b < i then b else b + 1;
      assert n[a] == docs[pa] && n[b] == docs[pb];
    }
  }

  /** Creating a PR and then listing the owner's PRs puts the new record first,
      with every submitted content field preserved and only id, status and owner
      assigned by the server. */
  lemma {:induction false} CreatedPRIsListedFirst(docs: seq<DbPR>, data: Draft, genId: string, oid: string, owner: string)
    requires owner != "" && data.userId == Some(owner)
    ensures var listed := MapDocs(Select([NewDoc(data, genId, oid)] + docs, Sanitize(Filter("", "", owner))));
      && |listed| >= 1
      && listed[0] == MapDoc(NewDoc(data, genId, oid))
      && CarriesContent(listed[0], data.content)
      && listed[0].status == data.status.GetOr(Initial)
  {
    var d := NewDoc(data, genId, oid);
    var c := Sanitize(Filter("", "", owner));
    assert Matches(d, c);
    assert ([d] + docs)[0] == d && ([d] + docs)[1..] == docs;
    assert Select([d] + docs, c) == [d] + Select(docs, c);
  }

  /** The PR collection and the read cache of lib/queries.ts. */
  class PRRepository {
    var docs: seq<DbPR>
    var cache: map<Cond, CacheEntry>

    ghost predicate Valid()
      reads this
    {
      UniqueIds(docs) && Coherent(docs, cache)
    }

    constructor (initial: seq<DbPR>)
      requires UniqueIds(initial)
      ensures Valid() && docs == initial && cache == map[]
    {
      docs := initial;
      cache := map[];
    }

    /** getPRs: the listing for a filter, served from the cache while the entry
        under the same condition is younger than the TTL, and read from the
        store (and cached) otherwise. Either way it is the store's current answer. */
    method GetPRs(filter: Filter, now: int) returns (r: seq<PRItem>)
      requires Valid()
      modifies this
      ensures Valid() && docs == old(docs)
      ensures r == MapDocs(Select(docs, Sanitize(filter)))
      ensures var key := Sanitize(filter);
        if key in old(cache) && now - old(cache)[key].ts < TTL_MS then cache == old(cache)
        else cache == old(cache)[key := CacheEntry(now, Select(docs, key))]
    {
      var cond := Sanitize(filter);
      if cond in cache && now - cache[cond].ts < TTL_MS {
        r := MapDocs(cache[cond].data);
        return;
      }
      var found := Select(docs, cond);
      cache := cache[cond := CacheEntry(now, found)];
      r := MapDocs(found);
    }

    /** createPR: inserts the new document and clears the cache. The insert
        fails, and nothing changes, when the document breaks the schema
        (Insertable): an empty title or author, a project-type PR without a
        project, a link without a url, or an id some stored document already
        has (the unique index). */
    method CreatePR(data: Draft, genId: string, oid: string) returns (r: Option<PRItem>)
      requires Valid()
      modifies this
      ensures Valid()
      ensures var d := NewDoc(data, genId, oid);
        if !Insertable(old(docs), d) then
          r.None? && docs == old(docs) && cache == old(cache)
        else
          r == Some(MapDoc(d)) && docs == [d] + old(docs) && cache == map[]
    {
      var d := NewDoc(data, genId, oid);
      if !Insertable(docs, d) {
        return None;
      }
      forall a, b | 0 <= a < b < |[d] + docs| ensures ([d] + docs)[a].id != ([d] + docs)[b].id {
        if a == 0 {
          assert ([d] + docs)[b] in docs;
        }
      }
      docs := [d] + docs;
      cache := map[];
      r := Some(MapDoc(d));
    }

    /** updatePR: applies the update to the document matching id (and owner, when
        one is given). Only when a document was updated is the cache cleared;
        with no match the result is None and nothing changes. */
    method UpdatePR(id: string, update: PartialPR, userId: string) returns (r: Option<PRItem>)
      requires Valid()
      modifies this
      ensures Valid()
      ensures var i := FindTarget(old(docs), id, userId);
        if i < 0 then
          r.None? && docs == old(docs) && cache == old(cache)
        else
          var u := ApplyPatch(old(docs)[i], update);
          r == Some(MapDoc(u)) && docs == [u] + old(docs)[..i] + old(docs)[i + 1..] && cache == map[]
    {
      var i := FindTarget(docs, id, userId);
      if i < 0 {
        return None;
      }
      var u := ApplyPatch(docs[i], update);
      MoveToFrontKeepsIdsUnique(docs, i, u);
      docs := [u] + docs[..i] + docs[i + 1..];
      cache := map[];
      r := Some(MapDoc(u));
    }

    /** updatePRStatus: sets the status of the document with that id, whoever
        owns it, and always clears the cache. */
    method UpdatePRStatus(id: string, status: Status)
      requires Valid()
      modifies this
      ensures Valid() && cache == map[]
      ensures var i := FindTarget(old(docs), id, "");
        if i < 0 then docs == old(docs)
        else docs == [old(docs)[i].(status := status)] + old(docs)[..i] + old(docs)[i + 1..]
    {
      var i := FindTarget(docs, id, "");
      if i >= 0 {
        var u := docs[i].(status := status);
        MoveToFrontKeepsIdsUnique(docs, i, u);
        docs := [u] + docs[..i] + docs[i + 1..];
      }
      cache := map[];
    }

    /** deletePR: removes the document matching id (and owner, when given),
        leaves every other document as it was, and always clears the cache. */
    method DeletePR(id: string, userId: string)
      requires Valid()
      modifies this
      ensures Valid() && cache == map[]
      ensures var i := FindTarget(old(docs), id, userId);
        if i < 0 then docs == old(docs)
        else docs == old(docs)[..i] + old(docs)[i + 1..]
      ensures forall d :: d in old(docs) && !IdOwnerMatch(d, id, userId) ==> d in docs
    {
      var i := FindTarget(docs, id, userId);
      if i >= 0 {
        RemoveKeepsIdsUnique(docs, i);
        ghost var before := docs;
        docs := docs[..i] + docs[i + 1..];
        forall d | d in before && !IdOwnerMatch(d, id, userId) ensures d in docs {
          var k :| 0 <= k < |before| && before[k] == d;
          if k < i {
            assert docs[k] == d;
          } else {
            assert k != i;
            assert docs[k - 1] == d;
          }
        }
      }
      cache := map[];
    }
  }
}
