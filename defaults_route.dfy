/** Form defaults (app/api/defaults/route.ts): one settings document, keyed
    `global` in the store (models/Defaults.ts), read by GET and partially
    overwritten, or created, by POST. */
module DefaultsRoute {
  import opened Common

  /** The four defaults the document carries; None where the field is unset. */
  datatype Defaults = Defaults(
    defaultProject: Option<string>,
    defaultService: Option<string>,
    defaultEmail: Option<string>,
    defaultAuthor: Option<string>)

  const Unset := Defaults(None, None, None, None)

  /** `{ defaults: doc }`, or `{ defaults: {} }` when there is no document. */
  datatype DefaultsBody = Stored(defaults: Defaults) | EmptyObject

  /** A JSON body as its string-valued keys; a key that is not in the map is undefined. */
  type Body = map<string, string>

  function Field(body: Body, key: string): Option<string> {
    if key in body then Some(body[key]) else None
  }

  /** The update POST applies: exactly the four known fields that the body defines. */
  function UpdateOf(body: Body): (u: Defaults)
    ensures u.defaultProject.Some? <==> "defaultProject" in body
    ensures u.defaultService.Some? <==> "defaultService" in body
    ensures u.defaultEmail.Some? <==> "defaultEmail" in body
    ensures u.defaultAuthor.Some? <==> "defaultAuthor" in body
    ensures "defaultProject" in body ==> u.defaultProject == Some(body["defaultProject"])
    ensures "defaultService" in body ==> u.defaultService == Some(body["defaultService"])
    ensures "defaultEmail" in body ==> u.defaultEmail == Some(body["defaultEmail"])
    ensures "defaultAuthor" in body ==> u.defaultAuthor == Some(body["defaultAuthor"])
  {
    Defaults(Field(body, "defaultProject"), Field(body, "defaultService"),
             Field(body, "defaultEmail"), Field(body, "defaultAuthor"))
  }

  /** Keys other than the four defaults have no effect on the update. */
  lemma OtherKeysIgnored(b1: Body, b2: Body)
    requires forall k :: k in {"defaultProject", "defaultService", "defaultEmail", "defaultAuthor"} ==>
      (k in b1 <==> k in b2) && (k in b1 ==> b1[k] == b2[k])
    ensures UpdateOf(b1) == UpdateOf(b2)
  {
    assert "defaultProject" in {"defaultProject", "defaultService", "defaultEmail", "defaultAuthor"};
    assert "defaultService" in {"defaultProject", "defaultService", "defaultEmail", "defaultAuthor"};
    assert "defaultEmail" in {"defaultProject", "defaultService", "defaultEmail", "defaultAuthor"};
    assert "defaultAuthor" in {"defaultProject", "defaultService", "defaultEmail", "defaultAuthor"};
  }

  /** The `update` object, built field by field as the handler does. */
  method BuildUpdate(body: Body) returns (update: Defaults)
    ensures update == UpdateOf(body)
  {
    update := Unset;
    if "defaultProject" in body {
      update := update.(defaultProject := Some(body["defaultProject"]));
    }
    if "defaultService" in body {
      update := update.(defaultService := Some(body["defaultService"]));
    }
    if "defaultEmail" in body {
      update := update.(defaultEmail := Some(body["defaultEmail"]));
    }
    if "defaultAuthor" in body {
      update := update.(defaultAuthor := Some(body["defaultAuthor"]));
    }
  }

  function Over(u: Option<string>, d: Option<string>): Option<string> {
    if u.Some? then u else d
  }

  /** Setting the update on a document: a field the update defines replaces the
      stored one, every other field keeps its stored value. */
  function Merge(doc: Defaults, u: Defaults): (r: Defaults)
    ensures u.defaultProject.Some? ==> r.defaultProject == u.defaultProject
    ensures u.defaultProject.None? ==> r.defaultProject == doc.defaultProject
    ensures u.defaultService.Some? ==> r.defaultService == u.defaultService
    ensures u.defaultService.None? ==> r.defaultService == doc.defaultService
    ensures u.defaultEmail.Some? ==> r.defaultEmail == u.defaultEmail
    ensures u.defaultEmail.None? ==> r.defaultEmail == doc.defaultEmail
    ensures u.defaultAuthor.Some? ==> r.defaultAuthor == u.defaultAuthor
    ensures u.defaultAuthor.None? ==> r.defaultAuthor == doc.defaultAuthor
  {
    Defaults(Over(u.defaultProject, doc.defaultProject), Over(u.defaultService, doc.defaultService),
             Over(u.defaultEmail, doc.defaultEmail), Over(u.defaultAuthor, doc.defaultAuthor))
  }

  /** Posting the same body twice leaves the document as posting it once. */
  lemma MergeIdempotent(doc: Defaults, u: Defaults)
    ensures Merge(Merge(doc, u), u) == Merge(doc, u)
  {
  }

  /** An empty body changes nothing. */
  lemma EmptyBodyChangesNothing(doc: Defaults)
    ensures Merge(doc, UpdateOf(map[])) == doc
  {
  }

  /** The settings collection, reduced to its one `global` document. */
  class DefaultsStore {
    var doc: Option<Defaults>

    constructor ()
      ensures doc.None?
    {
      doc := None;
    }

    /** GET /api/defaults. */
    method Get() returns (resp: Response<DefaultsBody>)
      ensures doc.None? ==> resp == Json(200, EmptyObject)
      ensures doc.Some? ==> resp == Json(200, Stored(doc.value))
    {
      if doc.None? {
        return Json(200, EmptyObject);
      }
      resp := Json(200, Stored(doc.value));
    }

    /** POST /api/defaults: sets the defined fields on the document, creating it
        when there is none, and answers the document as it now is (201). */
    method Post(body: Body) returns (resp: Response<DefaultsBody>)
      modifies this
      ensures doc == Some(Merge(old(doc).GetOr(Unset), UpdateOf(body)))
      ensures resp == Json(201, Stored(doc.value))
    {
      var update := BuildUpdate(body);
      var current := if doc.Some? then doc.value else Unset;
      doc := Some(Merge(current, update));
      resp := Json(201, Stored(doc.value));
    }
  }
}
