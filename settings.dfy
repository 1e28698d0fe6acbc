/** The settings page (app/settings/page.tsx): the defaults form prefilled from
    the stored defaults, and the workspace manager with its project and
    service lists, delete buttons (none for "General") and the add form. The
    answers of the requests the page sends are parameters. */
module Settings {
  import opened Common
  import opened Auth
  import opened DefaultsRoute
  import opened WorkspaceLists
  import opened WorkspacesRoute

  const MSG_PROJECT_IN_USE := "Cannot delete: PRs exist in this project"
  const MSG_SERVICE_IN_USE := "Cannot delete: PRs exist in this service"
  const MSG_DELETE_FAILED := "Delete failed"
  const MSG_ADD_FAILED := "Add failed"

  /** The defaults form. */
  datatype LocalDefaults = LocalDefaults(defaultProject: string, defaultService: string, defaultEmail: string, defaultAuthor: string)

  const InitialDefaults := LocalDefaults(GENERAL, "", "", "Shubham")

  /** The add-workspace form; `kind` is the selected type. */
  datatype NewWorkspace = NewWorkspace(kind: string, name: string)

  /** `{ ...d, ...(j?.defaults || {}) }`: each field the stored defaults carry
      replaces the form's value, the others stay. */
  function MergeDefaults(local: LocalDefaults, body: DefaultsBody): (r: LocalDefaults)
    ensures body.EmptyObject? ==> r == local
    ensures body.Stored? ==>
      && r.defaultProject == body.defaults.defaultProject.GetOr(local.defaultProject)
      && r.defaultService == body.defaults.defaultService.GetOr(local.defaultService)
      && r.defaultEmail == body.defaults.defaultEmail.GetOr(local.defaultEmail)
      && r.defaultAuthor == body.defaults.defaultAuthor.GetOr(local.defaultAuthor)
  {
    match body
    case EmptyObject => local
    case Stored(d) =>
      LocalDefaults(d.defaultProject.GetOr(local.defaultProject), d.defaultService.GetOr(local.defaultService),
                    d.defaultEmail.GetOr(local.defaultEmail), d.defaultAuthor.GetOr(local.defaultAuthor))
  }

  /** The form as a fully defined defaults document. */
  function AsDefaults(local: LocalDefaults): Defaults {
    Defaults(Some(local.defaultProject), Some(local.defaultService), Some(local.defaultEmail), Some(local.defaultAuthor))
  }

  /** The JSON body Save Defaults sends: all four fields. */
  function BodyOf(local: LocalDefaults): (b: Body)
    ensures b.Keys == {"defaultProject", "defaultService", "defaultEmail", "defaultAuthor"}
  {
    map["defaultProject" := local.defaultProject, "defaultService" := local.defaultService,
        "defaultEmail" := local.defaultEmail, "defaultAuthor" := local.defaultAuthor]
  }

  /** The page merges stored defaults into its form exactly as the endpoint
      merges an update into the stored document. */
  lemma MergeAgreesWithEndpoint(local: LocalDefaults, d: Defaults)
    ensures AsDefaults(MergeDefaults(local, Stored(d))) == Merge(AsDefaults(local), d)
  {
  }

  /** Saving the form and loading the page again prefills the same form,
      whatever the document held and whatever the form held before. */
  lemma SaveThenLoadRoundTrip(local: LocalDefaults, doc: Defaults, before: LocalDefaults)
    ensures MergeDefaults(before, Stored(Merge(doc, UpdateOf(BodyOf(local))))) == local
  {
    var u := UpdateOf(BodyOf(local));
    assert u == AsDefaults(local);
  }

  /** `list.filter((x) => x !== name)`. */
  function Without(l: seq<string>, name: string): (r: seq<string>)
    ensures forall x :: x in r <==> x in l && x != name
    ensures |r| <= |l|
  {
    if l == [] then []
    else
      assert forall x :: x in l <==> x == l[0] || x in l[1..];
      if l[0] != name then [l[0]] + Without(l[1..], name) else Without(l[1..], name)
  }

  /** The entries that get a Delete button: every project but "General". */
  function DeletableProjects(projects: seq<string>): (r: seq<string>)
    ensures GENERAL !in r
    ensures forall p :: p in r <==> p in projects && p != GENERAL
  {
    Without(projects, GENERAL)
  }

  class SettingsPage {
    var projects: seq<string>
    var services: seq<string>
    var newWs: NewWorkspace
    var defaults: LocalDefaults

    constructor ()
      ensures projects == [GENERAL] && services == [] && newWs == NewWorkspace("project", "")
      ensures defaults == InitialDefaults
    {
      projects := [GENERAL];
      services := [];
      newWs := NewWorkspace("project", "");
      defaults := InitialDefaults;
    }

    /** The page's first load: the stored defaults, when their request
        succeeds (None otherwise), are merged into the form; then both lists
        are rebuilt from the listings (a failed listing reads as empty). */
    method Load(stored: Option<DefaultsBody>, projectItems: seq<Option<string>>, serviceItems: seq<Option<string>>)
      modifies this
      ensures defaults == (if stored.Some? then MergeDefaults(old(defaults), stored.value) else old(defaults))
      ensures projects == ProjectOptions(projectItems) && services == ServiceOptions(serviceItems)
      ensures newWs == old(newWs)
    {
      if stored.Some? {
        defaults := MergeDefaults(defaults, stored.value);
      }
      projects := ProjectOptions(projectItems);
      services := ServiceOptions(serviceItems);
    }

    /** Delete on a project row (only rows other than "General" have one), given
        the status of the delete request. A 409 or another failure raises an
        alert and keeps the list; success drops the name. "General" is never
        removed. */
    method DeleteProject(p: string, status: int) returns (alert: Option<string>)
      requires p in DeletableProjects(projects)
      modifies this
      ensures status == 409 ==> alert == Some(MSG_PROJECT_IN_USE) && projects == old(projects)
      ensures status != 409 && !OkStatus(status) ==> alert == Some(MSG_DELETE_FAILED) && projects == old(projects)
      ensures status != 409 && OkStatus(status) ==> alert.None? && projects == Without(old(projects), p)
      ensures GENERAL in projects <==> GENERAL in old(projects)
      ensures services == old(services) && newWs == old(newWs) && defaults == old(defaults)
    {
      if status == 409 {
        return Some(MSG_PROJECT_IN_USE);
      }
      if !OkStatus(status) {
        return Some(MSG_DELETE_FAILED);
      }
      projects := Without(projects, p);
      alert := None;
    }

    /** Delete on a service row, given the status of the delete request. */
    method DeleteService(s: string, status: int) returns (alert: Option<string>)
      requires s in services
      modifies this
      ensures status == 409 ==> alert == Some(MSG_SERVICE_IN_USE) && services == old(services)
      ensures status != 409 && !OkStatus(status) ==> alert == Some(MSG_DELETE_FAILED) && services == old(services)
      ensures status != 409 && OkStatus(status) ==> alert.None? && services == Without(old(services), s)
      ensures projects == old(projects) && newWs == old(newWs) && defaults == old(defaults)
    {
      if status == 409 {
        return Some(MSG_SERVICE_IN_USE);
      }
      if !OkStatus(status) {
        return Some(MSG_DELETE_FAILED);
      }
      services := Without(services, s);
      alert := None;
    }

    /** Add, given the status of the create request for the trimmed name. A 409
        counts as success: the trimmed name joins the list of the selected
        kind through a Set, and the name field is cleared. */
    method AddWorkspace(status: int) returns (alert: Option<string>)
      modifies this
      ensures !OkStatus(status) && status != 409 ==>
        alert == Some(MSG_ADD_FAILED) && projects == old(projects) && services == old(services) && newWs == old(newWs)
      ensures OkStatus(status) || status == 409 ==>
        && alert.None?
        && newWs == old(newWs).(name := "")
        && (old(newWs).kind == "project" ==>
              projects == Dedup(old(projects) + [Trim(old(newWs).name)]) && services == old(services))
        && (old(newWs).kind != "project" ==>
              services == Dedup(old(services) + [Trim(old(newWs).name)]) && projects == old(projects))
      ensures defaults == old(defaults)
    {
      var name := Trim(newWs.name);
      if !OkStatus(status) && status != 409 {
        return Some(MSG_ADD_FAILED);
      }
      if newWs.kind == "project" {
        projects := Dedup(projects + [name]);
      } else {
        services := Dedup(services + [name]);
      }
      newWs := newWs.(name := "");
      alert := None;
    }
  }

  /** Adding through the list's Set keeps what was there, adds the name, and
      leaves no duplicates; a list that had none keeps its order and gains the
      name at the end unless it was already present. */
  lemma AddKeepsListDistinct(l: seq<string>, name: string)
    ensures name in Dedup(l + [name]) && NoDuplicates(Dedup(l + [name]))
    ensures forall x :: x in l ==> x in Dedup(l + [name])
    ensures NoDuplicates(l) ==> Dedup(l + [name]) == if name in l then l else l + [name]
  {
    if NoDuplicates(l) {
      DedupSnoc(l, name);
    }
  }

  /** The add form against the workspace endpoint: the page sends the trimmed
      name, and the endpoint's answer decides the page's update. A blank name
      is refused (400), so the page lists nothing new. */
  method AddBlankNameRefused(page: SettingsPage, store: WorkspaceCollection, caller: Identity)
    returns (alert: Option<string>)
    requires store.Valid() && Trim(page.newWs.name) == ""
    modifies page, store
    ensures store.Valid() && store.items == old(store.items)
    ensures alert == Some(MSG_ADD_FAILED) && page.projects == old(page.projects) && page.services == old(page.services)
  {
    var resp := store.Post(Some(caller), Trim(page.newWs.name), page.newWs.kind);
    alert := page.AddWorkspace(resp.status);
  }
}
