/**
 * The choice of tools after the research step: the essential recommendations start selected,
 * each card toggles its tool, and Continue hands on the selection.  The selection is a set in
 * insertion order, held as a list without repeats.
 */
module ToolSelector {
  import opened Wrappers

  datatype Importance = Essential | Recommended | Optional

  datatype Recommendation = Recommendation(tool: string, importance: Importance)

  predicate NoRepeats(s: seq<string>) {
    forall i, j :: 0 <= i < j < |s| ==> s[i] != s[j]
  }

  /** `set.add`: append when absent. */
  function Add(s: seq<string>, x: string): seq<string> {
    if x in s then s else s + [x]
  }

  /** `set.delete`. */
  function Delete(s: seq<string>, x: string): (r: seq<string>)
    ensures forall y :: y in r <==> y in s && y != x
  {
    if |s| == 0 then []
    else Delete(s[..|s| - 1], x) + (if s[|s| - 1] != x then [s[|s| - 1]] else [])
  }

  /** Deleting from a list without repeats leaves one without repeats. */
  lemma {:induction false} DeleteNoRepeats(s: seq<string>, x: string)
    requires NoRepeats(s)
    ensures NoRepeats(Delete(s, x))
  {
    if |s| > 0 {
      var p := s[..|s| - 1];
      assert forall i :: 0 <= i < |p| ==> p[i] == s[i];
      DeleteNoRepeats(p, x);
      assert s[|s| - 1] !in p;
    }
  }

  /** `new Set(essential)`: the essential tools in recommendation order, each once. */
  function EssentialTools(recs: seq<Recommendation>): (r: seq<string>)
    ensures NoRepeats(r)
    ensures forall t :: t in r <==> exists i :: 0 <= i < |recs| && recs[i].tool == t && recs[i].importance == Essential
  {
    if |recs| == 0 then []
    else
      var p := EssentialTools(recs[..|recs| - 1]);
      var last := recs[|recs| - 1];
      assert forall i :: 0 <= i < |recs| - 1 ==> recs[..|recs| - 1][i] == recs[i];
      if last.importance == Essential then Add(p, last.tool) else p
  }

  /** The update of `toggleTool`. */
  function Toggled(s: seq<string>, tool: string): seq<string> {
    if tool in s then Delete(s, tool) else Add(s, tool)
  }

  /** Toggling flips that tool's membership, leaves every other tool as it was, and keeps the list free of repeats. */
  lemma ToggledMembers(s: seq<string>, tool: string)
    ensures tool in Toggled(s, tool) <==> tool !in s
    ensures forall x :: x != tool ==> (x in Toggled(s, tool) <==> x in s)
    ensures NoRepeats(s) ==> NoRepeats(Toggled(s, tool))
  {
    if NoRepeats(s) && tool in s {
      DeleteNoRepeats(s, tool);
    }
  }

  /** Toggling twice gives back the same set of tools. */
  lemma ToggleInvolution(s: seq<string>, tool: string)
    ensures forall x :: x in Toggled(Toggled(s, tool), tool) <==> x in s
  {
    ToggledMembers(s, tool);
    ToggledMembers(Toggled(s, tool), tool);
  }

  /** The selector's state. */
  class Selector {
    var selected: seq<string>

    ghost predicate Valid()
      reads this
    {
      NoRepeats(selected)
    }

    /** The essential recommendations start selected. */
    constructor(recommendations: seq<Recommendation>)
      ensures selected == EssentialTools(recommendations)
      ensures Valid()
    {
      selected := EssentialTools(recommendations);
    }

    /** Continue is disabled exactly when nothing is selected. */
    predicate ContinueDisabled()
      reads this
    {
      |selected| == 0
    }

    method ToggleTool(tool: string)
      requires Valid()
      modifies this
      ensures selected == Toggled(old(selected), tool)
      ensures Valid()
    {
      ToggledMembers(selected, tool);
      if tool in selected {
        selected := Delete(selected, tool);
      } else {
        selected := selected + [tool];
      }
    }

    /**
     * A click on Continue: ignored when nothing is selected, otherwise `Array.from` of the
     * selection, which has no repeats.
     */
    method Continue() returns (chosen: Option<seq<string>>)
      requires Valid()
      ensures chosen.Some? <==> !ContinueDisabled()
      ensures chosen.Some? ==> chosen.value == selected && NoRepeats(chosen.value)
    {
      if |selected| == 0 {
        return None;
      }
      return Some(selected);
    }
  }
}
