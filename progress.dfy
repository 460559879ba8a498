/**
 The session's progress: the list of stage names marked complete, which starts empty, only
 ever grows by "Mark as Complete", and drives the check marks in the sidebar.
 */
module Progress {
  import opened Catalog

  predicate NoDuplicates(names: seq<string>) {
    forall i, j :: 0 <= i < j < |names| ==> names[i] != names[j]
  }

  /** The progress list kept in the session state. */
  class SessionProgress {
    var completed: seq<string>

    ghost predicate Valid()
      reads this
    {
      NoDuplicates(completed)
    }

    /** A new session has completed nothing. */
    constructor ()
      ensures Valid() && completed == []
    {
      completed := [];
    }

    /** "Mark as Complete": appends the stage name unless it is already listed. `added` tells
        whether the list changed, which is when the success message is shown and the page reruns. */
    method MarkComplete(name: string) returns (added: bool)
      requires Valid()
      modifies this
      ensures Valid()
      ensures added <==> name !in old(completed)
      ensures completed == if added then old(completed) + [name] else old(completed)
      ensures name in completed
      ensures old(completed) <= completed
    {
      added := name !in completed;
      if added {
        completed := completed + [name];
      }
    }
  }

  const Done: string := "\U{2705}"
  const NotDone: string := "\U{2B1C}"

  /** The sidebar's progress block: one line per catalog stage, in catalog order, holding the
      stage's name behind a check mark exactly when that name is in the progress list. */
  method ProgressLines(stages: seq<Stage>, completed: seq<string>) returns (lines: seq<string>)
    ensures |lines| == |stages|
    ensures forall i :: 0 <= i < |stages| ==>
      lines[i] == (if stages[i].name in completed then Done else NotDone) + " " + stages[i].name
    ensures forall i :: 0 <= i < |stages| ==> (Done <= lines[i] <==> stages[i].name in completed)
  {
    lines := [];
    for i := 0 to |stages|
      invariant |lines| == i
      invariant forall k :: 0 <= k < i ==>
        lines[k] == (if stages[k].name in completed then Done else NotDone) + " " + stages[k].name
    {
      var status := if stages[i].name in completed then Done else NotDone;
      lines := lines + [status + " " + stages[i].name];
    }
    forall i | 0 <= i < |stages| ensures Done <= lines[i] <==> stages[i].name in completed {
      if stages[i].name !in completed {
        assert lines[i][0] == NotDone[0];
      }
    }
  }
}
