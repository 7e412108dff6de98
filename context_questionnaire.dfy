/**
 * The three-step questionnaire that opens a chat: the goal, the kind of trigger and the tools,
 * then the context handed on.  A click on a disabled or hidden button does nothing.
 */
module ContextQuestionnaire {
  import opened Wrappers
  import opened Text

  datatype TriggerType = Webhook | Schedule | Manual | Event

  /** What `onComplete` receives. */
  datatype WorkflowContext = WorkflowContext(goal: string, trigger: TriggerType, tools: seq<string>)

  /** `prev.filter((t) => t !== value)`. */
  function Without(tools: seq<string>, value: string): (r: seq<string>)
    ensures forall x :: x in r <==> x in tools && x != value
    ensures |r| <= |tools|
  {
    if |tools| == 0 then []
    else Without(tools[..|tools| - 1], value) + (if tools[|tools| - 1] != value then [tools[|tools| - 1]] else [])
  }

  /** The update of `toggleTool`: remove every copy when present, otherwise append. */
  function Toggled(tools: seq<string>, value: string): seq<string> {
    if value in tools then Without(tools, value) else tools + [value]
  }

  /** Toggling flips the membership of that tool and of no other. */
  lemma ToggledMembers(tools: seq<string>, value: string)
    ensures value in Toggled(tools, value) <==> value !in tools
    ensures forall x :: x != value ==> (x in Toggled(tools, value) <==> x in tools)
  {
  }

  /** Toggling twice gives back the same members; the order may change and copies are merged. */
  lemma ToggleTwice(tools: seq<string>, value: string)
    ensures forall x :: x in Toggled(Toggled(tools, value), value) <==> x in tools
  {
    ToggledMembers(tools, value);
    ToggledMembers(Toggled(tools, value), value);
  }

  /** The questionnaire's state. */
  class Questionnaire {
    const availableTools: seq<string>
    var step: nat
    var goal: string
    var trigger: Option<TriggerType>
    var tools: seq<string>

    /** The step is one of the three, and from the third on a trigger has been chosen. */
    ghost predicate Valid()
      reads this
    {
      1 <= step <= 3 && (step == 3 ==> trigger.Some?)
    }

    /** Step 1 with no goal and no trigger, the connected tools selected. */
    constructor(availableTools: seq<string>)
      ensures this.availableTools == availableTools
      ensures step == 1 && goal == "" && trigger.None? && tools == availableTools
      ensures Valid()
    {
      this.availableTools := availableTools;
      step := 1;
      goal := "";
      trigger := None;
      tools := availableTools;
    }

    /** `canProceed`: each step asks for its own answer. */
    predicate CanProceed()
      reads this
    {
      if step == 1 then |Trim(goal)| > 0
      else if step == 2 then trigger.Some?
      else if step == 3 then |tools| > 0
      else false
    }

    /** The back button is shown from step 2 on. */
    predicate BackShown()
      reads this
    {
      step > 1
    }

    /** The connected tools are listed apart when there are any. */
    predicate HasCredentials()
      reads this
    {
      |availableTools| > 0
    }

    method SetGoal(text: string)
      requires Valid()
      modifies this
      ensures goal == text && step == old(step) && trigger == old(trigger) && tools == old(tools)
      ensures Valid()
    {
      goal := text;
    }

    method SetTrigger(choice: TriggerType)
      requires Valid()
      modifies this
      ensures trigger == Some(choice) && step == old(step) && goal == old(goal) && tools == old(tools)
      ensures Valid()
    {
      trigger := Some(choice);
    }

    method ToggleTool(value: string)
      requires Valid()
      modifies this
      ensures tools == Toggled(old(tools), value)
      ensures step == old(step) && goal == old(goal) && trigger == old(trigger)
      ensures Valid()
    {
      if value in tools {
        tools := Without(tools, value);
      } else {
        tools := tools + [value];
      }
    }

    /**
     * A click on Next: ignored while the current step is unanswered; otherwise the step
     * advances, or on the last step the context is handed on.  By then a trigger has always
     * been chosen, so the 'webhook' fallback never applies.
     */
    method Next() returns (completed: Option<WorkflowContext>)
      requires Valid()
      modifies this
      ensures Valid()
      ensures goal == old(goal) && trigger == old(trigger) && tools == old(tools)
      ensures !old(CanProceed()) ==> completed.None? && step == old(step)
      ensures old(CanProceed()) && old(step) < 3 ==> completed.None? && step == old(step) + 1
      ensures old(CanProceed()) && old(step) == 3 ==>
                step == 3 && completed == Some(WorkflowContext(goal, trigger.value, tools))
    {
      if !CanProceed() {
        return None;
      }
      if step < 3 {
        step := step + 1;
        completed := None;
      } else {
        completed := Some(WorkflowContext(goal, trigger.GetOr(Webhook), tools));
      }
    }

    /** A click on Back: from step 2 on the step goes back one; nothing else changes. */
    method Back()
      requires Valid()
      modifies this
      ensures Valid()
      ensures goal == old(goal) && trigger == old(trigger) && tools == old(tools)
      ensures step == if old(step) > 1 then old(step) - 1 else old(step)
    {
      if step > 1 {
        step := step - 1;
      }
    }
  }

  /** The tools reach the last step only non-empty, so the handed-on context always names one. */
  method Complete(q: Questionnaire) returns (completed: Option<WorkflowContext>)
    requires q.Valid() && q.step == 3
    modifies q
    ensures completed.Some? ==> |completed.value.tools| > 0 && completed.value.trigger == old(q.trigger).value
    ensures completed.Some? <==> |old(q.tools)| > 0
  {
    completed := q.Next();
  }
}
