/**
 * The template wizard: the form values a template starts with, the required-field check of a
 * step, the step navigation and the deployment round, and the substitution of the `{{id}}`
 * placeholders of the serialised workflow with the values entered.
 */
module TemplateWizard {
  import opened Wrappers
  import opened Text
  import opened Graph
  import opened Templates

  // ---------------------------------------------------------------- records

  /**
   * A JavaScript object used as a record: its entries in insertion order.  Assigning to a key
   * that is present replaces its value in place; assigning to a new key appends it.
   */
  type Record<V> = seq<(string, V)>

  /** `r[k]`, None for `undefined`. */
  function Get<V>(r: Record<V>, k: string): Option<V> {
    if |r| == 0 then None
    else if r[0].0 == k then Some(r[0].1)
    else Get(r[1..], k)
  }

  /** `r[k] = v`. */
  function Put<V>(r: Record<V>, k: string, v: V): Record<V> {
    if |r| == 0 then [(k, v)]
    else if r[0].0 == k then [(k, v)] + r[1..]
    else [r[0]] + Put(r[1..], k, v)
  }

  predicate DistinctKeys<V>(r: Record<V>) {
    forall i, j :: 0 <= i < j < |r| ==> r[i].0 != r[j].0
  }

  /** After `r[k] = v`, `k` reads `v` and every other key reads what it read before. */
  lemma {:induction false} GetPut<V>(r: Record<V>, k: string, v: V, j: string)
    ensures Get(Put(r, k, v), j) == if j == k then Some(v) else Get(r, j)
  {
    if |r| > 0 && r[0].0 != k {
      GetPut(r[1..], k, v, j);
    }
  }

  lemma KeysCons<V>(x: (string, V), r: Record<V>)
    ensures Keys([x] + r) == [x.0] + Keys(r)
  {
  }

  /** A key reads a value exactly when it is one of the record's keys. */
  lemma {:induction false} GetPresent<V>(r: Record<V>, k: string)
    ensures Get(r, k).Some? <==> k in Keys(r)
  {
    if |r| > 0 {
      GetPresent(r[1..], k);
      KeysCons(r[0], r[1..]);
      assert r == [r[0]] + r[1..];
    }
  }

  /** `r[k] = v` keeps the key order; a new key goes to the end. */
  lemma {:induction false} KeysPut<V>(r: Record<V>, k: string, v: V)
    ensures Keys(Put(r, k, v)) == if k in Keys(r) then Keys(r) else Keys(r) + [k]
  {
    if |r| > 0 {
      KeysPut(r[1..], k, v);
      assert r == [r[0]] + r[1..];
      KeysCons(r[0], r[1..]);
      if r[0].0 == k {
        KeysCons((k, v), r[1..]);
      } else {
        KeysCons(r[0], Put(r[1..], k, v));
      }
    }
  }

  /** Assignment never gives a record a key twice. */
  lemma PutDistinct<V>(r: Record<V>, k: string, v: V)
    requires DistinctKeys(r)
    ensures DistinctKeys(Put(r, k, v))
  {
    KeysPut(r, k, v);
    var p := Put(r, k, v);
    assert forall i :: 0 <= i < |p| ==> p[i].0 == Keys(p)[i];
    assert forall i :: 0 <= i < |r| ==> r[i].0 == Keys(r)[i];
  }

  // ---------------------------------------------------------------- default values

  /** The fields of all steps, in order. */
  function Fields(steps: seq<TemplateStep>): seq<TemplateField> {
    if |steps| == 0 then [] else Fields(steps[..|steps| - 1]) + steps[|steps| - 1].fields
  }

  /** The defaults after the loop: every field with a default assigns it to its id. */
  function DefaultsOf(fields: seq<TemplateField>): Record<FieldValue> {
    if |fields| == 0 then []
    else
      var f := fields[|fields| - 1];
      var d := DefaultsOf(fields[..|fields| - 1]);
      if f.defaultValue.Some? then Put(d, f.id, f.defaultValue.value) else d
  }

  predicate HasDefault(fields: seq<TemplateField>, i: nat, id: string)
    requires i < |fields|
  {
    fields[i].id == id && fields[i].defaultValue.Some?
  }

  /**
   * An id has a default exactly when some field with that id has one, and then it is the
   * default of the last such field.
   */
  lemma {:induction false} DefaultsLaterWins(fields: seq<TemplateField>, id: string)
    ensures Get(DefaultsOf(fields), id).None? <==> forall i :: 0 <= i < |fields| ==> !HasDefault(fields, i, id)
    ensures Get(DefaultsOf(fields), id).Some? ==>
              exists i :: 0 <= i < |fields| && HasDefault(fields, i, id)
                          && Get(DefaultsOf(fields), id) == fields[i].defaultValue
                          && forall j :: i < j < |fields| ==> !HasDefault(fields, j, id)
  {
    if |fields| > 0 {
      var n := |fields| - 1;
      var p := fields[..n];
      DefaultsLaterWins(p, id);
      assert forall i :: 0 <= i < n ==> (HasDefault(p, i, id) <==> HasDefault(fields, i, id));
      if fields[n].defaultValue.Some? {
        GetPut(DefaultsOf(p), fields[n].id, fields[n].defaultValue.value, id);
      }
      if Get(DefaultsOf(fields), id).Some? && !HasDefault(fields, n, id) {
        var i :| 0 <= i < n && HasDefault(p, i, id) && Get(DefaultsOf(p), id) == p[i].defaultValue
                 && forall j :: i < j < n ==> !HasDefault(p, j, id);
        assert HasDefault(fields, i, id);
      }
    }
  }

  /** The defaults hold each id once. */
  lemma {:induction false} DefaultsDistinct(fields: seq<TemplateField>)
    ensures DistinctKeys(DefaultsOf(fields))
  {
    if |fields| > 0 {
      var f := fields[|fields| - 1];
      DefaultsDistinct(fields[..|fields| - 1]);
      if f.defaultValue.Some? {
        PutDistinct(DefaultsOf(fields[..|fields| - 1]), f.id, f.defaultValue.value);
      }
    }
  }

  /** `getDefaultValues`. */
  method GetDefaultValues(t: Template) returns (defaults: Record<FieldValue>)
    ensures defaults == DefaultsOf(Fields(t.steps))
  {
    defaults := [];
    for s := 0 to |t.steps|
      invariant defaults == DefaultsOf(Fields(t.steps[..s]))
    {
      var step := t.steps[s];
      ghost var before := Fields(t.steps[..s]);
      assert t.steps[..s + 1][..s] == t.steps[..s];
      assert before + step.fields[..0] == before;
      for f := 0 to |step.fields|
        invariant defaults == DefaultsOf(before + step.fields[..f])
      {
        var field := step.fields[f];
        assert (before + step.fields[..f + 1])[..|before| + f] == before + step.fields[..f];
        assert (before + step.fields[..f + 1])[|before| + f] == field;
        if field.defaultValue.Some? {
          defaults := Put(defaults, field.id, field.defaultValue.value);
        }
      }
      assert step.fields[..|step.fields|] == step.fields;
      assert Fields(t.steps[..s + 1]) == before + step.fields;
    }
    assert t.steps[..|t.steps|] == t.steps;
  }

  // ---------------------------------------------------------------- the required-field check

  const RequiredMsg := "This field is required"

  /** JavaScript truthiness of a form value: missing, '' and 0 are falsy. */
  predicate ValueTruthy(v: Option<FieldValue>) {
    match v
    case None => false
    case Some(StrValue(s)) => s != ""
    case Some(NumValue(n)) => n != 0
  }

  /** A required field whose value is falsy. */
  predicate Missing(f: TemplateField, values: Record<FieldValue>) {
    f.required && !ValueTruthy(Get(values, f.id))
  }

  /** The `errors` record the check builds for the fields of a step. */
  function StepErrors(fields: seq<TemplateField>, values: Record<FieldValue>): map<string, string> {
    if |fields| == 0 then map[]
    else
      var f := fields[|fields| - 1];
      var m := StepErrors(fields[..|fields| - 1], values);
      if Missing(f, values) then m[f.id := RequiredMsg] else m
  }

  /** An id has an error exactly when some missing field has that id; the error is the fixed text. */
  lemma {:induction false} StepErrorsAre(fields: seq<TemplateField>, values: Record<FieldValue>, id: string)
    ensures id in StepErrors(fields, values) <==>
              exists i :: 0 <= i < |fields| && fields[i].id == id && Missing(fields[i], values)
    ensures id in StepErrors(fields, values) ==> StepErrors(fields, values)[id] == RequiredMsg
  {
    if |fields| > 0 {
      var p := fields[..|fields| - 1];
      StepErrorsAre(p, values, id);
      assert forall i :: 0 <= i < |p| ==> p[i] == fields[i];
    }
  }

  /** The step passes exactly when no required field is falsy. */
  lemma StepPasses(fields: seq<TemplateField>, values: Record<FieldValue>)
    ensures |StepErrors(fields, values)| == 0 <==> forall i :: 0 <= i < |fields| ==> !Missing(fields[i], values)
  {
    var m := StepErrors(fields, values);
    if |m| == 0 {
      forall i | 0 <= i < |fields|
        ensures !Missing(fields[i], values)
      {
        StepErrorsAre(fields, values, fields[i].id);
      }
    } else {
      var id :| id in m;
      StepErrorsAre(fields, values, id);
    }
  }

  // ---------------------------------------------------------------- placeholder substitution

  /** `String(value)`. */
  function ValueString(v: FieldValue): string {
    match v
    case StrValue(s) => s
    case NumValue(n) => IntToString(n)
  }

  /** The text after replacing the placeholders of the entries, one entry after another. */
  function Substituted(json: string, values: Record<FieldValue>): string {
    if |values| == 0 then json
    else
      var e := values[|values| - 1];
      ReplaceAll(Substituted(json, values[..|values| - 1]), Placeholder(e.0), ValueString(e.1))
  }

  /** The substitution step of `buildWorkflow`, on the serialised workflow. */
  method BuildWorkflow(workflowJson: string, values: Record<FieldValue>) returns (r: string)
    ensures r == Substituted(workflowJson, values)
  {
    r := workflowJson;
    for i := 0 to |values|
      invariant r == Substituted(workflowJson, values[..i])
    {
      assert values[..i + 1][..i] == values[..i];
      var (key, value) := values[i];
      r := ReplaceAll(r, Placeholder(key), ValueString(value));
    }
    assert values[..|values|] == values;
  }

  /**
   * Each entry cuts the text at every occurrence of its placeholder and joins the pieces with
   * its value; no piece contains the placeholder.
   */
  lemma SubstitutedLast(json: string, values: Record<FieldValue>, k: nat)
    requires |values| > 0
    ensures var e := values[|values| - 1];
            var pieces := Split(Substituted(json, values[..|values| - 1]), Placeholder(e.0));
            && Substituted(json, values) == Join(pieces, ValueString(e.1))
            && (k < |pieces| ==> !Contains(pieces[k], Placeholder(e.0)))
  {
    var e := values[|values| - 1];
    var before := Substituted(json, values[..|values| - 1]);
    ReplaceAllIsSplitJoin(before, Placeholder(e.0), ValueString(e.1));
    if k < |Split(before, Placeholder(e.0))| {
      SplitPiecesFree(before, Placeholder(e.0), k);
    }
  }

  /** Text holding none of the placeholders comes out unchanged. */
  lemma {:induction false} SubstitutedAbsent(json: string, values: Record<FieldValue>)
    requires forall i :: 0 <= i < |values| ==> !Contains(json, Placeholder(values[i].0))
    ensures Substituted(json, values) == json
  {
    if |values| > 0 {
      var e := values[|values| - 1];
      SubstitutedAbsent(json, values[..|values| - 1]);
      ReplaceAbsent(json, Placeholder(e.0), ValueString(e.1));
    }
  }

  // ---------------------------------------------------------------- the wizard

  /** The answer of the deploy endpoint. */
  datatype DeployResult = DeployResult(success: bool, workflowId: Option<string>, error: Option<string>)

  /** What is recorded when the deploy request throws. */
  const DeployFailed := DeployResult(false, None, Some("Failed to deploy workflow"))

  /**
   * The wizard's state.  `workflowJson` is `JSON.stringify(template.workflow)`; the serialiser
   * is not part of this model.
   */
  class Wizard {
    const template: Template
    const workflowJson: string
    var currentStep: nat
    var values: Record<FieldValue>
    var errors: map<string, string>
    var isDeploying: bool
    var deployResult: Option<DeployResult>

    /** The step index stays on a step, or at 0 for a template without steps. */
    ghost predicate Valid()
      reads this
    {
      currentStep < |template.steps| || currentStep == 0
    }

    predicate IsLastStep()
      reads this
    {
      currentStep == |template.steps| - 1
    }

    /** The step card is shown: there is no deploy result and the step exists. */
    predicate StepShown()
      reads this
    {
      deployResult.None? && currentStep < |template.steps|
    }

    /** The Back button is shown and not disabled. */
    predicate BackEnabled()
      reads this
    {
      StepShown() && currentStep != 0
    }

    /** The Next button is shown and not disabled. */
    predicate NextEnabled()
      reads this
    {
      StepShown() && !isDeploying
    }

    /** The fields of the current step. */
    function CurrentFields(): seq<TemplateField>
      reads this
      requires currentStep < |template.steps|
    {
      template.steps[currentStep].fields
    }

    constructor (template: Template, workflowJson: string)
      ensures this.template == template && this.workflowJson == workflowJson
      ensures currentStep == 0 && values == DefaultsOf(Fields(template.steps)) && errors == map[]
      ensures !isDeploying && deployResult.None?
      ensures Valid()
    {
      var defaults := GetDefaultValues(template);
      this.template := template;
      this.workflowJson := workflowJson;
      currentStep := 0;
      values := defaults;
      errors := map[];
      isDeploying := false;
      deployResult := None;
    }

    /** `handleFieldChange`: set the value and clear that field's error to ''. */
    method HandleFieldChange(fieldId: string, value: FieldValue)
      requires Valid()
      modifies this
      ensures values == Put(old(values), fieldId, value)
      ensures errors == old(errors)[fieldId := ""]
      ensures currentStep == old(currentStep) && isDeploying == old(isDeploying)
      ensures deployResult == old(deployResult)
      ensures Valid()
    {
      values := Put(values, fieldId, value);
      errors := errors[fieldId := ""];
    }

    /** `validateCurrentStep`: record the errors of the current step, true when there are none. */
    method ValidateCurrentStep() returns (ok: bool)
      requires Valid()
      modifies this
      ensures currentStep >= |template.steps| ==> ok && errors == old(errors)
      ensures currentStep < |template.steps| ==>
                errors == StepErrors(CurrentFields(), values) && (ok <==> |errors| == 0)
      ensures currentStep == old(currentStep) && values == old(values) && isDeploying == old(isDeploying)
      ensures deployResult == old(deployResult)
      ensures Valid()
    {
      if currentStep >= |template.steps| {
        return true;
      }
      var fields := template.steps[currentStep].fields;
      var errs: map<string, string> := map[];
      for i := 0 to |fields|
        invariant errs == StepErrors(fields[..i], values)
      {
        assert fields[..i + 1][..i] == fields[..i];
        if fields[i].required && !ValueTruthy(Get(values, fields[i].id)) {
          errs := errs[fields[i].id := RequiredMsg];
        }
      }
      assert fields[..|fields|] == fields;
      errors := errs;
      ok := |errs| == 0;
    }

    /** The first half of `handleDeploy`: mark the deploy and build the workflow to send. */
    method StartDeploy() returns (body: string)
      requires Valid()
      modifies this
      ensures isDeploying && body == Substituted(workflowJson, values)
      ensures currentStep == old(currentStep) && values == old(values) && errors == old(errors)
      ensures deployResult == old(deployResult)
      ensures Valid()
    {
      isDeploying := true;
      body := BuildWorkflow(workflowJson, values);
    }

    /** The second half: the endpoint's answer, or None when the request throws. */
    method FinishDeploy(response: Option<DeployResult>)
      requires Valid() && isDeploying
      modifies this
      ensures !isDeploying && deployResult == Some(response.GetOr(DeployFailed))
      ensures currentStep == old(currentStep) && values == old(values) && errors == old(errors)
      ensures Valid()
    {
      isDeploying := false;
      deployResult := Some(response.GetOr(DeployFailed));
    }

    /**
     * `handleNext`: when the step passes, advance, or on the last step start the deploy and
     * return what is sent.
     */
    method HandleNext() returns (sent: Option<string>)
      requires Valid() && NextEnabled()
      modifies this
      ensures errors == StepErrors(old(CurrentFields()), values) && values == old(values)
      ensures deployResult == old(deployResult)
      ensures |errors| != 0 ==> currentStep == old(currentStep) && !isDeploying && sent.None?
      ensures |errors| == 0 && old(currentStep) < |template.steps| - 1 ==>
                currentStep == old(currentStep) + 1 && !isDeploying && sent.None?
      ensures |errors| == 0 && old(IsLastStep()) ==>
                currentStep == old(currentStep) && isDeploying && sent == Some(Substituted(workflowJson, values))
      ensures Valid()
    {
      var ok := ValidateCurrentStep();
      sent := None;
      if ok {
        if currentStep == |template.steps| - 1 {
          var body := StartDeploy();
          sent := Some(body);
        } else {
          currentStep := currentStep + 1;
        }
      }
    }

    /** `handleBack`. */
    method HandleBack()
      requires Valid() && BackEnabled()
      modifies this
      ensures currentStep == old(currentStep) - 1
      ensures values == old(values) && errors == old(errors) && isDeploying == old(isDeploying)
      ensures deployResult == old(deployResult)
      ensures Valid()
    {
      currentStep := currentStep - 1;
    }

    /** 'Try Again' after a failed deploy clears the result, showing the step again. */
    method TryAgain()
      requires Valid() && deployResult.Some? && !deployResult.value.success
      modifies this
      ensures deployResult.None?
      ensures currentStep == old(currentStep) && values == old(values) && errors == old(errors)
      ensures isDeploying == old(isDeploying)
      ensures Valid()
    {
      deployResult := None;
    }
  }
}
