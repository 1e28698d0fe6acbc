/** The board's local copy in browser storage (lib/data.ts). The module keeps
    one shared `emptyDataSet` object, which loading hands out whenever nothing
    usable is stored; the model keeps the contents of its `prs` array as state
    so that an edit made through a loaded data set is visible to later loads. */
module BoardData {
  import opened Common

  const STORAGE_KEY := "pr-tracker-data-v1"

  datatype Column = Column(id: Status, title: string)

  /** The column title of each status. */
  function ColumnTitle(s: Status): string {
    match s
    case Initial => "Initial"
    case InReview => "In Review"
    case Approved => "Approved"
    case Merged => "Merged"
    case Released => "Released"
  }

  /** defaultColumns: one column per status, keyed by the status. */
  const DefaultColumns: map<Status, Column> := map[
    Initial := Column(Initial, "Initial"),
    InReview := Column(InReview, "In Review"),
    Approved := Column(Approved, "Approved"),
    Merged := Column(Merged, "Merged"),
    Released := Column(Released, "Released")]

  /** Every status has a column, whose id is that status. */
  lemma DefaultColumnsCoverStatuses()
    ensures forall s: Status :: s in DefaultColumns && DefaultColumns[s] == Column(s, ColumnTitle(s))
    ensures |DefaultColumns| == |AllStatuses|
  {
    forall s: Status ensures s in DefaultColumns && DefaultColumns[s] == Column(s, ColumnTitle(s)) {
      match s
      case Initial =>
      case InReview =>
      case Approved =>
      case Merged =>
      case Released =>
    }
    assert DefaultColumns.Keys == {Initial, InReview, Approved, Merged, Released};
  }

  datatype ProjectRef = ProjectRef(name: string)

  datatype DataSet = DataSet(columns: map<Status, Column>, prs: seq<PRItem>, projects: seq<ProjectRef>)

  /** What the storage slot holds: nothing (or an empty string), text that does not
      parse, or a saved data set. */
  datatype Stored = Missing | Unparsable | Saved(data: DataSet)

  function ProjectNames(prs: seq<PRItem>): (r: seq<string>)
    ensures |r| == |prs| && forall i :: 0 <= i < |prs| ==> r[i] == prs[i].project
  {
    seq(|prs|, i requires 0 <= i < |prs| => prs[i].project)
  }

  function Refs(names: seq<string>): (r: seq<ProjectRef>)
    ensures |r| == |names| && forall i :: 0 <= i < |names| ==> r[i] == ProjectRef(names[i])
  {
    seq(|names|, i requires 0 <= i < |names| => ProjectRef(names[i]))
  }

  /** The project list saveData writes: the distinct project names of the PRs. */
  function ProjectsOf(prs: seq<PRItem>): (r: seq<ProjectRef>)
    ensures NoDuplicates(r)
    ensures forall name :: ProjectRef(name) in r <==> exists p :: p in prs && p.project == name
  {
    var names := Dedup(ProjectNames(prs));
    assert forall name :: name in ProjectNames(prs) <==> exists p :: p in prs && p.project == name by {
      forall name | name in ProjectNames(prs) ensures exists p :: p in prs && p.project == name {
        var k :| 0 <= k < |prs| && ProjectNames(prs)[k] == name;
        assert prs[k] in prs;
      }
      forall name | exists p :: p in prs && p.project == name ensures name in ProjectNames(prs) {
        var p :| p in prs && p.project == name;
        var k :| 0 <= k < |prs| && prs[k] == p;
        assert ProjectNames(prs)[k] == name;
      }
    }
    var r := Refs(names);
    assert forall name :: ProjectRef(name) in r <==> name in names by {
      forall name | ProjectRef(name) in r ensures name in names {
        var k :| 0 <= k < |r| && r[k] == ProjectRef(name);
        assert names[k] == name;
      }
      forall name | name in names ensures ProjectRef(name) in r {
        var k :| 0 <= k < |names| && names[k] == name;
        assert r[k] == ProjectRef(name);
      }
    }
    r
  }

  /** The payload saveData stores: the data set with its project list replaced by
      the one derived from its PRs; the project list passed in plays no part. */
  function Persisted(data: DataSet): (r: DataSet)
    ensures r.columns == data.columns && r.prs == data.prs
    ensures forall name :: ProjectRef(name) in r.projects <==> exists p :: p in data.prs && p.project == name
  {
    data.(projects := ProjectsOf(data.prs))
  }

  /** Saving ignores the project list it is given, and saving what was saved
      stores the same thing again. */
  lemma PersistedIgnoresProjects(data: DataSet, other: seq<ProjectRef>)
    ensures Persisted(data.(projects := other)) == Persisted(data)
    ensures Persisted(Persisted(data)) == Persisted(data)
  {
  }

  /** upsertPR's list edit: the PR replaces the first one with its id, or is put
      in front when none has it. */
  function Upserted(prs: seq<PRItem>, pr: PRItem): (r: seq<PRItem>)
    ensures var i := FindIndex(prs, (p: PRItem) => p.id == pr.id);
      if i >= 0 then |r| == |prs| && r[i] == pr && forall k :: 0 <= k < |prs| && k != i ==> r[k] == prs[k]
      else r == [pr] + prs
  {
    var i := FindIndex(prs, (p: PRItem) => p.id == pr.id);
    if i >= 0 then prs[i := pr] else [pr] + prs
  }

  predicate UniqueIds(prs: seq<PRItem>) {
    forall i, j :: 0 <= i < j < |prs| ==> prs[i].id != prs[j].id
  }

  /** On a list with unique ids, an upsert keeps ids unique and leaves exactly
      one PR with the upserted id: the upserted PR. */
  lemma UpsertKeepsIdsUnique(prs: seq<PRItem>, pr: PRItem)
    requires UniqueIds(prs)
    ensures UniqueIds(Upserted(prs, pr))
    ensures forall p :: p in Upserted(prs, pr) && p.id == pr.id ==> p == pr
    ensures forall p :: p in prs && p.id != pr.id ==> p in Upserted(prs, pr)
  {
    var r := Upserted(prs, pr);
    var i := FindIndex(prs, (p: PRItem) => p.id == pr.id);
    if i < 0 {
      forall a, b | 0 <= a < b < |r| ensures r[a].id != r[b].id {
        if a == 0 {
          assert r[b] == prs[b - 1];
        } else {
          assert r[a] == prs[a - 1] && r[b] == prs[b - 1];
        }
      }
    } else {
      forall p | p in r && p.id == pr.id ensures p == pr {
        var k :| 0 <= k < |r| && r[k] == p;
      }
      forall p | p in prs && p.id != pr.id ensures p in r {
        var k :| 0 <= k < |prs| && prs[k] == p;
        assert r[k] == p;
      }
    }
  }

  /** The module's state: whether it runs in a browser, the storage slot, and the
      current contents of the shared `emptyDataSet.prs`. */
  class BrowserStore {
    const inBrowser: bool
    var stored: Stored
    var emptyPrs: seq<PRItem>

    constructor (inBrowser: bool, stored: Stored)
      ensures this.inBrowser == inBrowser && this.stored == stored && emptyPrs == []
    {
      this.inBrowser := inBrowser;
      this.stored := stored;
      emptyPrs := [];
    }

    /** Whether loadData hands out the shared empty data set. */
    predicate FallsBack()
      reads this
    {
      !inBrowser || !stored.Saved?
    }

    /** loadData: the saved data set, or the shared empty one when not in a
        browser or when nothing usable is stored. */
    function LoadData(): (r: DataSet)
      reads this
      ensures FallsBack() ==> r == DataSet(DefaultColumns, emptyPrs, [])
      ensures !FallsBack() ==> r == stored.data
    {
      if FallsBack() then DataSet(DefaultColumns, emptyPrs, []) else stored.data
    }

    /** saveData: stores the data set with its derived project list; does nothing
        outside a browser. */
    method SaveData(data: DataSet)
      modifies this
      ensures inBrowser ==> stored == Saved(Persisted(data))
      ensures !inBrowser ==> stored == old(stored)
      ensures emptyPrs == old(emptyPrs)
    {
      if !inBrowser {
        return;
      }
      stored := Saved(Persisted(data));
    }

    /** upsertPR as written: the edit is made in place on the loaded data set's
        array, which on the fallback path is the shared `emptyDataSet.prs`. */
    method UpsertPRAsWritten(pr: PRItem)
      modifies this
      ensures inBrowser ==> stored == Saved(Persisted(old(LoadData()).(prs := Upserted(old(LoadData()).prs, pr))))
      ensures !inBrowser ==> stored == old(stored)
      ensures old(FallsBack()) ==> emptyPrs == Upserted(old(emptyPrs), pr)
      ensures !old(FallsBack()) ==> emptyPrs == old(emptyPrs)
    {
      var current := LoadData();
      var prs := current.prs;
      var idx := FindIndex(prs, (p: PRItem) => p.id == pr.id);
      if idx >= 0 {
        prs := prs[idx := pr];
      } else {
        prs := [pr] + prs;
      }
      if FallsBack() {
        emptyPrs := prs;
      }
      SaveData(current.(prs := prs));
    }

    /** upsertPR with the loaded data set copied before the edit: the stored
        result is the same, and the shared empty data set stays empty. */
    method UpsertPR(pr: PRItem)
      modifies this
      ensures inBrowser ==> stored == Saved(Persisted(old(LoadData()).(prs := Upserted(old(LoadData()).prs, pr))))
      ensures !inBrowser ==> stored == old(stored)
      ensures emptyPrs == old(emptyPrs)
    {
      var current := LoadData();
      var prs := current.prs;
      var idx := FindIndex(prs, (p: PRItem) => p.id == pr.id);
      if idx >= 0 {
        prs := prs[idx := pr];
      } else {
        prs := [pr] + prs;
      }
      SaveData(current.(prs := prs));
    }
  }

  /** As written, an upsert with nothing stored leaks into every later fallback
      load: after upserting one PR into an empty slot, a load that falls back
      (here: outside a browser) returns that PR instead of an empty board. */
  method EmptyDataSetLeak(pr: PRItem) returns (loaded: seq<PRItem>)
    ensures loaded == [pr]
  {
    var store := new BrowserStore(false, Missing);
    store.UpsertPRAsWritten(pr);
    loaded := store.LoadData().prs;
  }

  /** With the copy, the same sequence loads an empty board. */
  method EmptyDataSetStaysEmpty(pr: PRItem) returns (loaded: seq<PRItem>)
    ensures loaded == []
  {
    var store := new BrowserStore(false, Missing);
    store.UpsertPR(pr);
    loaded := store.LoadData().prs;
  }
}
