/** Shareable board links (app/api/share/route.ts): POST mints a link that
    expires after seven days, GET resolves a live link to its owner's PRs and
    counts the access. The random token is a parameter, as is the configured
    public URL of the application ("" when unset). */
module ShareRoute {
  import opened Common
  import opened Auth
  import opened Queries

  /** How long a link lives: seven days, in milliseconds. */
  const SEVEN_DAYS_MS := 7 * 24 * 60 * 60 * 1000
  const DEFAULT_APP_URL := "http://localhost:3000"

  const MSG_AUTH_REQUIRED := "Authentication required"
  const MSG_CREATE_FAILED := "Failed to create share link"
  const MSG_TOKEN_REQUIRED := "Token required"
  const MSG_INVALID_LINK := "Invalid or expired share link"
  const MSG_FETCH_FAILED := "Failed to fetch shared data"

  /** A stored share link; times are milliseconds. */
  datatype ShareLink = ShareLink(
    token: string,
    userId: string,
    createdAt: int,
    expiresAt: int,
    accessCount: nat,
    lastAccessedAt: Option<int>,
    title: string,
    isActive: bool)

  datatype ShareBody =
    | Minted(shareUrl: string, token: string, expiresAt: int)
    | Report(title: string, createdBy: string, createdAt: int, prs: seq<PRItem>, accessCount: nat)

  /** The unique index on `token`. */
  predicate UniqueTokens(links: seq<ShareLink>) {
    forall i, j :: 0 <= i < j < |links| ==> links[i].token != links[j].token
  }

  /** The link POST stores for a user at time `now`. */
  function NewLink(owner: Identity, token: string, now: int): (l: ShareLink)
    ensures l.token == token && l.userId == owner.id
    ensures l.expiresAt == now + SEVEN_DAYS_MS && l.createdAt == now
    ensures l.title == owner.name + "'s PR Board Report"
    ensures l.accessCount == 0 && l.lastAccessedAt.None? && l.isActive
  {
    ShareLink(token, owner.id, now, now + SEVEN_DAYS_MS, 0, None, owner.name + "'s PR Board Report", true)
  }

  /** The public URL of a link: the configured application URL, or the local
      default, followed by `/share/` and the token. */
  function ShareUrl(appUrl: string, token: string): (r: string)
    ensures appUrl != "" ==> r == appUrl + "/share/" + token
    ensures appUrl == "" ==> r == DEFAULT_APP_URL + "/share/" + token
  {
    (if appUrl != "" then appUrl else DEFAULT_APP_URL) + "/share/" + token
  }

  /** The lookup of GET: the token matches, the link is active and unexpired. */
  predicate Live(l: ShareLink, token: string, now: int) {
    l.token == token && l.isActive && l.expiresAt > now
  }

  /** A freshly minted link resolves exactly until seven days have passed. */
  lemma NewLinkLiveForSevenDays(owner: Identity, token: string, created: int, now: int)
    ensures Live(NewLink(owner, token, created), token, now) <==> now < created + SEVEN_DAYS_MS
  {
  }

  /** The link after being resolved at each of `times` in turn: the counter
      has gone up once per access, the access time is the last one, and nothing
      else, expiry included, has changed, so an expired link stays expired. */
  function Touched(l: ShareLink, times: seq<int>): (r: ShareLink)
    ensures r.accessCount == l.accessCount + |times|
    ensures times != [] ==> r.lastAccessedAt == Some(times[|times| - 1])
    ensures times == [] ==> r.lastAccessedAt == l.lastAccessedAt
    ensures r.token == l.token && r.userId == l.userId && r.createdAt == l.createdAt
    ensures r.expiresAt == l.expiresAt && r.title == l.title && r.isActive == l.isActive
  {
    if times == [] then l
    else
      var prev := Touched(l, times[..|times| - 1]);
      prev.(accessCount := prev.accessCount + 1, lastAccessedAt := Some(times[|times| - 1]))
  }

  /** The share-link collection. */
  class ShareLinks {
    var links: seq<ShareLink>

    ghost predicate Valid()
      reads this
    {
      UniqueTokens(links)
    }

    constructor (initial: seq<ShareLink>)
      requires UniqueTokens(initial)
      ensures Valid() && links == initial
    {
      links := initial;
    }

    /** POST /api/share: stores a new link for the caller and answers its URL,
        token and expiry. A token already in use fails the insert (500). */
    method Post(caller: Option<Identity>, token: string, now: int, appUrl: string)
      returns (resp: Response<ShareBody>)
      requires Valid()
      modifies this
      ensures Valid()
      ensures caller.None? ==> resp == ErrorJson(401, MSG_AUTH_REQUIRED) && links == old(links)
      ensures caller.Some? ==>
        if exists l :: l in old(links) && l.token == token then
          resp == Text(500, MSG_CREATE_FAILED) && links == old(links)
        else
          && links == old(links) + [NewLink(caller.value, token, now)]
          && resp == Json(200, Minted(ShareUrl(appUrl, token), token, now + SEVEN_DAYS_MS))
    {
      if caller.None? {
        return CreateAuthResponse(MSG_AUTH_REQUIRED);
      }
      if exists l :: l in links && l.token == token {
        return Text(500, MSG_CREATE_FAILED);
      }
      var l := NewLink(caller.value, token, now);
      forall a, b | 0 <= a < b < |links + [l]| ensures (links + [l])[a].token != (links + [l])[b].token {
        if b == |links| {
          assert (links + [l])[a] in links;
        }
      }
      links := links + [l];
      resp := Json(200, Minted(ShareUrl(appUrl, token), token, now + SEVEN_DAYS_MS));
    }

    /** GET /api/share?token=: resolves a live link. The access is counted and
        stamped before the owner is looked up, so an owner who no longer exists
        yields a 500 after the count has gone up. The report lists all of the
        owner's PRs, unfiltered, with the counter as it is after this access. */
    method Get(token: string, now: int, users: seq<User>, repo: PRRepository)
      returns (resp: Response<ShareBody>)
      requires Valid() && repo.Valid()
      modifies this, repo
      ensures Valid() && repo.Valid() && repo.docs == old(repo.docs)
      ensures token == "" ==> resp == Text(400, MSG_TOKEN_REQUIRED) && links == old(links)
      ensures token != "" ==>
        var i := FindIndex(old(links), (l: ShareLink) => Live(l, token, now));
        if i < 0 then resp == Text(404, MSG_INVALID_LINK) && links == old(links)
        else
          && links == old(links)[i := Touched(old(links)[i], [now])]
          && match FindUserById(users, old(links)[i].userId)
             case None => resp == Text(500, MSG_FETCH_FAILED)
             case Some(owner) =>
               resp == Json(200, Report(old(links)[i].title, owner.name, old(links)[i].createdAt,
                                        MapDocs(Select(repo.docs, Sanitize(Filter("", "", owner.oid)))),
                                        old(links)[i].accessCount + 1))
    {
      if token == "" {
        return Text(400, MSG_TOKEN_REQUIRED);
      }
      var i := FindIndex(links, (l: ShareLink) => Live(l, token, now));
      if i < 0 {
        return Text(404, MSG_INVALID_LINK);
      }
      var l := Touched(links[i], [now]);
      links := links[i := l];
      var owner := FindUserById(users, l.userId);
      if owner.None? {
        return Text(500, MSG_FETCH_FAILED);
      }
      var prs := repo.GetPRs(Filter("", "", owner.value.oid), now);
      resp := Json(200, Report(l.title, owner.value.name, l.createdAt, prs, l.accessCount));
    }
  }
}
