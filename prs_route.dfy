/** The PR endpoint (app/api/prs/route.ts). Every handler first requires an
    authenticated caller (`caller` is what verifyAuth yielded), then drives the
    PR store of lib/queries.ts on the caller's behalf. */
module PrsRoute {
  import opened Common
  import opened Auth
  import opened Queries

  const MSG_AUTH_REQUIRED := "Authentication required"
  const MSG_PROJECT_REQUIRED := "Project name is required for project-type PRs"
  const MSG_SERVICE_REQUIRED := "Service name is required for service-type PRs"
  const MSG_CREATE_FAILED := "Failed to create PR"
  const MSG_MISSING_ID := "Missing id"

  /** Success bodies: `{ prs }`, `{ pr }` (null when PATCH matched nothing) and
      `{ success: true }`. */
  datatype PrsBody =
    | Listing(prs: seq<PRItem>)
    | Created(pr: PRItem)
    | Updated(updated: Option<PRItem>)
    | Deleted

  /** The POST body: the PR fields, and whatever `id`, `status` and `userId` the
      client sent. */
  datatype PostBody = PostBody(id: Option<string>, status: Option<Status>, userId: Option<string>, content: Content)

  /** The category check: a project-type PR needs a project name and a
      service-type PR a service name that are not blank. */
  function CategoryError(c: Content): (r: Option<string>)
    ensures r == Some(MSG_PROJECT_REQUIRED) <==> c.category == "project" && Trim(c.project) == ""
    ensures r == Some(MSG_SERVICE_REQUIRED) <==>
      c.category == "service" && (c.service.None? || Trim(c.service.value) == "")
    ensures r.None? || r == Some(MSG_PROJECT_REQUIRED) || r == Some(MSG_SERVICE_REQUIRED)
  {
    if c.category == "project" && Trim(c.project) == "" then Some(MSG_PROJECT_REQUIRED)
    else if c.category == "service" && (c.service.None? || Trim(c.service.value) == "") then Some(MSG_SERVICE_REQUIRED)
    else None
  }

  /** `{ ...body, userId: user.id }`: the body with its owner replaced by the caller. */
  function Stamped(b: PostBody, callerId: string): (d: Draft)
    ensures d.userId == Some(callerId)
    ensures d.id == b.id && d.status == b.status && d.content == b.content
  {
    Draft(b.id, b.status, Some(callerId), b.content)
  }

  /** Whatever owner the body names, the stored document belongs to the caller. */
  lemma StoredOwnerIsCaller(b: PostBody, callerId: string, genId: string, oid: string)
    requires callerId != ""
    ensures NewDoc(Stamped(b, callerId), genId, oid).userId == Some(callerId)
  {
  }

  /** As written, the schema refuses every service-type PR with an empty
      project, and the category check lets such a PR through: `PR.create`
      (lib/queries.ts:82) rejects it and POST answers 500 from its catch. The
      dialog builds its service-type records in this shape, though it hands them
      to the page rather than posting them. */
  lemma ServicePRRefusedAsWritten(docs: seq<DbPR>, b: PostBody, callerId: string, genId: string, oid: string)
    requires b.content.category == "service" && b.content.project == ""
    requires b.content.service.Some? && Trim(b.content.service.value) != ""
    ensures CategoryError(b.content).None?
    ensures !InsertableAsWritten(docs, NewDoc(Stamped(b, callerId), genId, oid))
  {
  }

  /** With the corrected schema, the store accepts every PR that passes the
      category check, unless its title or author is empty, a link has no url, or
      its id is taken. */
  lemma ValidatedPRInsertable(docs: seq<DbPR>, b: PostBody, callerId: string, genId: string, oid: string)
    requires CategoryError(b.content).None?
    ensures var d := NewDoc(Stamped(b, callerId), genId, oid);
      Insertable(docs, d) <==>
        d.content.title != "" && d.content.author != "" && LinksHaveUrls(d) && FreshId(docs, d)
  {
    assert Trim("") == "";
  }

  /** GET /api/prs: the caller's PRs, optionally narrowed by project and status. */
  method Get(repo: PRRepository, caller: Option<Identity>, project: string, status: string, now: int)
    returns (resp: Response<PrsBody>)
    requires repo.Valid()
    modifies repo
    ensures repo.Valid() && repo.docs == old(repo.docs)
    ensures caller.None? ==> resp == ErrorJson(401, MSG_AUTH_REQUIRED) && unchanged(repo)
    ensures caller.Some? ==>
      resp == Json(200, Listing(MapDocs(Select(repo.docs, Sanitize(Filter(project, status, caller.value.id))))))
    // the listing never shows another user's PR
    ensures caller.Some? && caller.value.id != "" && resp.Json? ==>
      forall p :: p in resp.body.prs ==>
        exists d :: d in repo.docs && d.userId == Some(caller.value.id) && p == MapDoc(d)
  {
    if caller.None? {
      return CreateAuthResponse(MSG_AUTH_REQUIRED);
    }
    var prs := repo.GetPRs(Filter(project, status, caller.value.id), now);
    resp := Json(200, Listing(prs));
    if caller.value.id != "" {
      var chosen := Select(repo.docs, Sanitize(Filter(project, status, caller.value.id)));
      forall p | p in prs
        ensures exists d :: d in repo.docs && d.userId == Some(caller.value.id) && p == MapDoc(d)
      {
        var k :| 0 <= k < |prs| && prs[k] == p;
        assert chosen[k] in chosen;
      }
    }
  }

  /** POST /api/prs: validates the category, stamps the caller as owner and
      creates the PR (201), or answers 500 when the store refuses it (Insertable). */
  method Post(repo: PRRepository, caller: Option<Identity>, body: PostBody, genId: string, oid: string)
    returns (resp: Response<PrsBody>)
    requires repo.Valid()
    modifies repo
    ensures repo.Valid()
    ensures caller.None? ==> resp == ErrorJson(401, MSG_AUTH_REQUIRED) && unchanged(repo)
    ensures caller.Some? && CategoryError(body.content).Some? ==>
      resp == Text(400, CategoryError(body.content).value) && unchanged(repo)
    ensures caller.Some? && CategoryError(body.content).None? ==>
      var d := NewDoc(Stamped(body, caller.value.id), genId, oid);
      if Insertable(old(repo.docs), d) then
        resp == Json(201, Created(MapDoc(d))) && repo.docs == [d] + old(repo.docs) && repo.cache == map[]
      else
        resp == Text(500, MSG_CREATE_FAILED) && repo.docs == old(repo.docs) && repo.cache == old(repo.cache)
  {
    if caller.None? {
      return CreateAuthResponse(MSG_AUTH_REQUIRED);
    }
    var err := CategoryError(body.content);
    if err.Some? {
      return Text(400, err.value);
    }
    var pr := repo.CreatePR(Stamped(body, caller.value.id), genId, oid);
    if pr.None? {
      return Text(500, MSG_CREATE_FAILED);
    }
    resp := Json(201, Created(pr.value));
  }

  /** PATCH /api/prs: applies the body, less its `id`, to the caller's PR with
      that id; `{ pr: null }` when the caller has no such PR. */
  method Patch(repo: PRRepository, caller: Option<Identity>, id: string, updates: PartialPR)
    returns (resp: Response<PrsBody>)
    requires repo.Valid()
    modifies repo
    ensures repo.Valid()
    ensures caller.None? ==> resp == ErrorJson(401, MSG_AUTH_REQUIRED) && unchanged(repo)
    ensures caller.Some? ==>
      var i := FindTarget(old(repo.docs), id, caller.value.id);
      if i < 0 then
        resp == Json(200, Updated(None)) && repo.docs == old(repo.docs) && repo.cache == old(repo.cache)
      else
        var u := ApplyPatch(old(repo.docs)[i], updates);
        && resp == Json(200, Updated(Some(MapDoc(u))))
        && repo.docs == [u] + old(repo.docs)[..i] + old(repo.docs)[i + 1..]
        && repo.cache == map[]
    // only a PR of the caller is ever changed
    ensures caller.Some? && caller.value.id != "" && repo.docs != old(repo.docs) ==>
      repo.docs[0].userId == Some(caller.value.id)
  {
    if caller.None? {
      return CreateAuthResponse(MSG_AUTH_REQUIRED);
    }
    var pr := repo.UpdatePR(id, updates, caller.value.id);
    resp := Json(200, Updated(pr));
  }

  /** DELETE /api/prs?id=: removes the caller's PR with that id, if any, and
      answers `{ success: true }` either way. */
  method Delete(repo: PRRepository, caller: Option<Identity>, id: string)
    returns (resp: Response<PrsBody>)
    requires repo.Valid()
    modifies repo
    ensures repo.Valid()
    ensures caller.None? ==> resp == ErrorJson(401, MSG_AUTH_REQUIRED) && unchanged(repo)
    ensures caller.Some? && id == "" ==> resp == Text(400, MSG_MISSING_ID) && unchanged(repo)
    ensures caller.Some? && id != "" ==>
      && resp == Json(200, Deleted)
      && repo.cache == map[]
      && var i := FindTarget(old(repo.docs), id, caller.value.id);
         if i < 0 then repo.docs == old(repo.docs)
         else repo.docs == old(repo.docs)[..i] + old(repo.docs)[i + 1..]
    // other users' PRs survive
    ensures caller.Some? && caller.value.id != "" ==>
      forall d :: d in old(repo.docs) && d.userId != Some(caller.value.id) ==> d in repo.docs
  {
    if caller.None? {
      return CreateAuthResponse(MSG_AUTH_REQUIRED);
    }
    if id == "" {
      return Text(400, MSG_MISSING_ID);
    }
    repo.DeletePR(id, caller.value.id);
    resp := Json(200, Deleted);
  }
}
