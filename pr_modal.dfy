/** The "Add Pull Request" dialog (components/pr/PRModal.tsx): its form state,
    the prefill from the stored defaults and the workspace lists when it opens,
    the Create-button condition, the PR record a submit builds and the form
    reset that follows, and the small dialog that adds a workspace. The PR id,
    the defaults and listings the dialog fetches, and the status of the add
    request are parameters. */
module PRModal {
  import opened Common
  import opened DefaultsRoute
  import opened WorkspaceLists

  const DEFAULT_AUTHOR := "Shubham"
  const LINK_CAPTION := "PR Link"

  /** A field of the fetched defaults that counts as set: present and not "". */
  predicate Truthy(o: Option<string>) {
    o.Some? && o.value != ""
  }

  /** `value || undefined` of an optional form field. */
  function Blank(s: string): (r: Option<string>)
    ensures r.None? <==> s == ""
    ensures r.Some? ==> r.value == s
  {
    if s == "" then None else Some(s)
  }

  /** The two workspace listings as the dialog reads them: the names of the
      project and of the service workspaces. */
  datatype Listings = Listings(projectItems: seq<Option<string>>, serviceItems: seq<Option<string>>)

  /** The form fields the PR record is built from. */
  datatype Form = Form(
    title: string,
    project: string,
    service: string,
    category: string,
    author: string,
    description: string,
    priority: string,
    link: string,
    scheduledDate: string,
    scheduledTime: string,
    emailReminder: bool,
    calendarEvent: bool)

  /** The Create button is enabled: a title, and a project or a service
      according to the category. */
  predicate CanCreate(f: Form) {
    f.title != "" && (f.category == "project" ==> f.project != "") && (f.category == "service" ==> f.service != "")
  }

  /** The PR record submit builds from the form. */
  function NewPR(f: Form, id: string): (pr: PRItem)
    ensures pr.id == id && pr.title == f.title && pr.category == f.category && pr.priority == f.priority
    ensures pr.project == (if f.category == "project" then f.project else "")
    ensures pr.service == Some(if f.category == "service" then f.service else "")
    ensures pr.status == Initial
    ensures f.author != "" ==> pr.author == f.author
    ensures f.author == "" ==> pr.author == DEFAULT_AUTHOR
    ensures |pr.links| == 1 <==> f.link != ""
    ensures pr.links == [] <==> f.link == ""
    ensures f.link != "" ==> pr.links[0] == Link(f.link, Some(LINK_CAPTION))
    ensures pr.scheduledDate == Blank(f.scheduledDate) && pr.scheduledTime == Blank(f.scheduledTime)
    ensures pr.description == Some(f.description)
    ensures pr.emailReminder == Some(f.emailReminder) && pr.calendarEvent == Some(f.calendarEvent)
  {
    PRItem(
      id, f.title,
      if f.category == "project" then f.project else "",
      Some(if f.category == "service" then f.service else ""),
      f.category,
      if f.author != "" then f.author else DEFAULT_AUTHOR,
      Some(f.description),
      Initial,
      f.priority,
      if f.link != "" then [Link(f.link, Some(LINK_CAPTION))] else [],
      Blank(f.scheduledDate), Blank(f.scheduledTime),
      Some(f.emailReminder), Some(f.calendarEvent))
  }

  /** A PR the dialog lets through names the project or service of its
      category, and carries a title. */
  lemma CreatablePRNamesItsWorkspace(f: Form, id: string)
    requires CanCreate(f)
    ensures NewPR(f, id).title != ""
    ensures f.category == "project" ==> NewPR(f, id).project != ""
    ensures f.category == "service" ==> NewPR(f, id).service.value != ""
  {
  }

  /** The form as the component first renders it. */
  const InitialForm := Form("", GENERAL, "", "project", DEFAULT_AUTHOR, "", "medium", "", "", "", false, false)

  /** The form after a submit has reset it: the project is cleared rather than
      set back to "General", and the author is cleared too. */
  const ClearedForm := Form("", "", "", "project", "", "", "medium", "", "", "", false, false)

  /** A cleared form never enables Create: the title is empty. */
  lemma ClearedFormCannotCreate()
    ensures !CanCreate(ClearedForm) && !CanCreate(InitialForm)
  {
  }

  /** The dialog's state. The twelve form fields, each a separate piece of
      component state in the source, are held as one record. */
  class PRModal {
    var form: Form
    var projects: seq<string>
    var services: seq<string>
    /** The kind of workspace the add dialog is open for; "" when it is closed. */
    var addingKind: string
    var newWorkspaceName: string

    constructor ()
      ensures form == InitialForm && projects == [GENERAL] && services == []
      ensures addingKind == "" && newWorkspaceName == ""
    {
      form := InitialForm;
      projects := [GENERAL];
      services := [];
      addingKind := "";
      newWorkspaceName := "";
    }

    /** Opening the dialog. The defaults prefill project, service and author
        where set (None: the defaults request failed). The listings (None: a
        listing request failed) replace both lists, and the project is reset to
        the head of the list, "General", when the project the form held before
        the prefill is not in the new list; that check sees the value from
        before the prefill, so it can override a prefilled default project. */
    method Open(defaults: Option<Defaults>, listings: Option<Listings>)
      modifies this
      ensures var d := defaults.GetOr(Unset);
        form == old(form).(
          service := if Truthy(d.defaultService) then d.defaultService.value else old(form).service,
          author := if Truthy(d.defaultAuthor) then d.defaultAuthor.value else old(form).author,
          project :=
            if listings.Some? && old(form).project !in ProjectOptions(listings.value.projectItems) then GENERAL
            else if Truthy(d.defaultProject) then d.defaultProject.value
            else old(form).project)
      ensures listings.Some? ==>
        projects == ProjectOptions(listings.value.projectItems) && services == ServiceOptions(listings.value.serviceItems)
      ensures listings.None? ==> projects == old(projects) && services == old(services)
      ensures addingKind == old(addingKind) && newWorkspaceName == old(newWorkspaceName)
    {
      var f := form;
      var seen := f.project;
      if defaults.Some? {
        var d := defaults.value;
        if Truthy(d.defaultProject) {
          f := f.(project := d.defaultProject.value);
        }
        if Truthy(d.defaultService) {
          f := f.(service := d.defaultService.value);
        }
        if Truthy(d.defaultAuthor) {
          f := f.(author := d.defaultAuthor.value);
        }
      }
      if listings.Some? {
        var pList := ProjectOptions(listings.value.projectItems);
        projects := pList;
        services := ServiceOptions(listings.value.serviceItems);
        if seen !in pList {
          f := f.(project := if pList[0] != "" then pList[0] else GENERAL);
        }
      }
      form := f;
    }

    /** Create (enabled only when the form allows it): hands the new PR on,
        then clears the form. */
    method Submit(id: string) returns (pr: PRItem)
      requires CanCreate(form)
      modifies this
      ensures pr == NewPR(old(form), id)
      ensures form == ClearedForm
      ensures projects == old(projects) && services == old(services)
      ensures addingKind == old(addingKind) && newWorkspaceName == old(newWorkspaceName)
    {
      pr := NewPR(form, id);
      form := ClearedForm;
    }

    /** The Add button beside the project or service picker. */
    method StartAddWorkspace(kind: string)
      requires kind == "project" || kind == "service"
      modifies this
      ensures addingKind == kind && newWorkspaceName == ""
      ensures form == old(form) && projects == old(projects) && services == old(services)
    {
      addingKind := kind;
      newWorkspaceName := "";
    }

    /** Save in the add dialog (enabled only for a name that is not blank once
        trimmed). `status` answers the create request for the trimmed name; a
        failure other than 409 closes the dialog and changes nothing else.
        Otherwise the lists are rebuilt from fresh listings (a failed listing
        reads as empty) and the new name is selected. */
    method SaveWorkspace(status: int, listings: Listings)
      requires addingKind != "" && !AllSpace(newWorkspaceName)
      modifies this
      ensures addingKind == ""
      ensures newWorkspaceName == old(newWorkspaceName)
      ensures !OkStatus(status) && status != 409 ==>
        projects == old(projects) && services == old(services) && form == old(form)
      ensures OkStatus(status) || status == 409 ==>
        && projects == ProjectOptions(listings.projectItems)
        && services == ServiceOptions(listings.serviceItems)
        && form == if old(addingKind) == "project" then old(form).(project := Trim(newWorkspaceName))
                   else old(form).(service := Trim(newWorkspaceName))
    {
      var name := Trim(newWorkspaceName);
      var kind := addingKind;
      if !OkStatus(status) && status != 409 {
        addingKind := "";
        return;
      }
      projects := ProjectOptions(listings.projectItems);
      services := ServiceOptions(listings.serviceItems);
      if kind == "project" {
        form := form.(project := name);
      } else {
        form := form.(service := name);
      }
      addingKind := "";
    }
  }

  /** After a successful add, the new name is selected and, once the fresh
      listing contains it, offered in the picker: the name is not blank. */
  lemma AddedNameIsOffered(items: seq<Option<string>>, name: string)
    requires !AllSpace(name) && Some(Trim(name)) in items
    ensures Trim(name) in ProjectOptions(items) && Trim(name) in ServiceOptions(items)
  {
    TrimEmptyIffAllSpace(name);
  }

  /** When the dialog is reopened after a submit, the cleared project is not in
      any list, so the project falls back to "General" even when a default
      project is stored. */
  lemma ReopenAfterSubmitSelectsGeneral(items: seq<Option<string>>)
    ensures ClearedForm.project !in ProjectOptions(items)
  {
  }
}
