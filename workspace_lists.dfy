/** The project and service pickers of the creation modal and the settings
    page (components/pr/PRModal.tsx, app/settings/page.tsx) derive their lists
    from the workspace listing the same way: the names, with missing ones read
    as "", the empty ones dropped, duplicates removed; projects are headed by
    the built-in "General". */
module WorkspaceLists {
  import opened Common

  const GENERAL := "General"

  /** `String(x?.name ?? '')` for each item, keeping the truthy ones. */
  function NonEmptyNames(items: seq<Option<string>>): (r: seq<string>)
    ensures forall n :: n in r <==> n != "" && Some(n) in items
  {
    if items == [] then []
    else
      var rest := NonEmptyNames(items[1..]);
      assert forall x :: x in items <==> x == items[0] || x in items[1..];
      var n := items[0].GetOr("");
      if n != "" then [n] + rest else rest
  }

  /** The service list: the distinct non-empty names. */
  function ServiceOptions(items: seq<Option<string>>): (r: seq<string>)
    ensures NoDuplicates(r) && "" !in r
    ensures forall n :: n in r <==> n != "" && Some(n) in items
  {
    Dedup(NonEmptyNames(items))
  }

  /** The project list: "General", then the distinct non-empty names. */
  function ProjectOptions(items: seq<Option<string>>): (r: seq<string>)
    ensures |r| >= 1 && r[0] == GENERAL
    ensures r[1..] == ServiceOptions(items)
    ensures forall n :: n in r <==> n == GENERAL || (n != "" && Some(n) in items)
  {
    [GENERAL] + ServiceOptions(items)
  }

  /** The project list repeats an entry exactly when a workspace itself is
      named "General": that name then appears twice. */
  lemma ProjectOptionsDistinctIff(items: seq<Option<string>>)
    ensures NoDuplicates(ProjectOptions(items)) <==> Some(GENERAL) !in items
  {
    var r := ProjectOptions(items);
    if Some(GENERAL) in items {
      var k :| 0 <= k < |r[1..]| && r[1..][k] == GENERAL;
      assert r[0] == r[k + 1];
    } else {
      forall i, j | 0 <= i < j < |r| ensures r[i] != r[j] {
        if i == 0 {
          assert r[j] in r[1..];
        } else {
          assert r[i] == r[1..][i - 1] && r[j] == r[1..][j - 1];
        }
      }
    }
  }
}
