/** The Kanban board (components/board/Board.tsx): the PRs shown under an
    optional project filter, the per-column counts, and the status change a
    drag-and-drop produces. Column ids are the PR statuses. */
module Board {
  import opened Common
  import opened BoardData

  /** The PRs shown: those of the filter project, or all when the filter is "". */
  function Filtered(prs: seq<PRItem>, filterProject: string): (r: seq<PRItem>)
    ensures filterProject == "" ==> r == prs
    ensures forall p :: p in r <==> p in prs && (filterProject != "" ==> p.project == filterProject)
    ensures |r| <= |prs|
  {
    if filterProject == "" then prs
    else if prs == [] then []
    else if prs[0].project == filterProject then [prs[0]] + Filtered(prs[1..], filterProject)
    else Filtered(prs[1..], filterProject)
  }

  /** Filtering keeps the relative order: it distributes over concatenation. */
  lemma {:induction false} FilteredKeepsOrder(a: seq<PRItem>, b: seq<PRItem>, filterProject: string)
    ensures Filtered(a + b, filterProject) == Filtered(a, filterProject) + Filtered(b, filterProject)
  {
    if a == [] {
      assert a + b == b;
    } else if filterProject != "" {
      var ab := a + b;
      assert ab[0] == a[0] && ab[1..] == a[1..] + b;
      FilteredKeepsOrder(a[1..], b, filterProject);
      if a[0].project == filterProject {
        calc {
          Filtered(ab, filterProject);
          [a[0]] + Filtered(a[1..] + b, filterProject);
          [a[0]] + (Filtered(a[1..], filterProject) + Filtered(b, filterProject));
          ([a[0]] + Filtered(a[1..], filterProject)) + Filtered(b, filterProject);
        }
      } else {
        assert Filtered(ab, filterProject) == Filtered(a[1..] + b, filterProject);
      }
    }
  }

  /** The number of PRs in a column. */
  function Count(prs: seq<PRItem>, s: Status): (n: nat)
    ensures n <= |prs|
    ensures n == 0 <==> forall p :: p in prs ==> p.status != s
  {
    if prs == [] then 0
    else (if prs[0].status == s then 1 else 0) + Count(prs[1..], s)
  }

  /** The column counts add up to the number of PRs shown: every PR is in
      exactly one column. */
  lemma {:induction false} CountsCoverBoard(prs: seq<PRItem>)
    ensures Count(prs, Initial) + Count(prs, InReview) + Count(prs, Approved)
      + Count(prs, Merged) + Count(prs, Released) == |prs|
  {
    if prs != [] {
      CountsCoverBoard(prs[1..]);
    }
  }

  /** Replacing one PR moves its contribution from its old column to its new one. */
  lemma {:induction false} CountAfterReplace(prs: seq<PRItem>, i: int, x: PRItem, s: Status)
    requires 0 <= i < |prs|
    ensures Count(prs[i := x], s) + (if prs[i].status == s then 1 else 0)
         == Count(prs, s) + (if x.status == s then 1 else 0)
  {
    if i > 0 {
      CountAfterReplace(prs[1..], i - 1, x, s);
      assert prs[i := x][1..] == prs[1..][i - 1 := x];
    } else {
      assert prs[i := x][1..] == prs[1..];
    }
  }

  datatype Location = Location(droppableId: Status, index: int)

  /** The drag library's result: the destination is absent when the card was
      dropped outside every column. */
  datatype DropResult = DropResult(source: Location, destination: Option<Location>, draggableId: string)

  /** handleDragEnd: None where the handler returns without calling onChange,
      otherwise the data set it passes on, with an empty project list. */
  function HandleDragEnd(columns: map<Status, Column>, prs: seq<PRItem>, result: DropResult): (r: Option<DataSet>)
    ensures result.destination.None? ==> r.None?
    ensures result.destination == Some(result.source) ==> r.None?
    ensures (forall p :: p in prs ==> p.id != result.draggableId) ==> r.None?
    ensures r.Some? ==>
      && result.destination.Some?
      && r.value.columns == columns && r.value.projects == []
      && |r.value.prs| == |prs|
      && (exists i :: 0 <= i < |prs| && prs[i].id == result.draggableId
           && (forall k :: 0 <= k < i ==> prs[k].id != result.draggableId)
           && r.value.prs[i] == prs[i].(status := result.destination.value.droppableId)
           && forall k :: 0 <= k < |prs| && k != i ==> r.value.prs[k] == prs[k])
    ensures (result.destination.Some? && result.destination != Some(result.source)
      && exists p :: p in prs && p.id == result.draggableId) ==> r.Some?
  {
    match result.destination
    case None => None
    case Some(dest) =>
      if dest.droppableId == result.source.droppableId && dest.index == result.source.index then None
      else
        var i := FindIndex(prs, (p: PRItem) => p.id == result.draggableId);
        if i == -1 then None
        else Some(DataSet(columns, prs[i := prs[i].(status := dest.droppableId)], []))
  }

  /** A move between columns shifts one PR from its column to the destination
      column and leaves every other count as it was. */
  lemma DragMovesOneCard(columns: map<Status, Column>, prs: seq<PRItem>, result: DropResult, s: Status)
    requires HandleDragEnd(columns, prs, result).Some?
    ensures var next := HandleDragEnd(columns, prs, result).value.prs;
      var dest := result.destination.value.droppableId;
      var from := prs[FindIndex(prs, (p: PRItem) => p.id == result.draggableId)].status;
      Count(next, s) + (if from == s then 1 else 0) == Count(prs, s) + (if dest == s then 1 else 0)
  {
    var i := FindIndex(prs, (p: PRItem) => p.id == result.draggableId);
    CountAfterReplace(prs, i, prs[i].(status := result.destination.value.droppableId), s);
  }
}
