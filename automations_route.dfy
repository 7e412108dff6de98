/**
 * The automations endpoint: one item per n8n workflow with its health, its last run and the
 * number of runs in the past week, and the weekly total over all workflows.  The moment a week
 * ago is an input, as the ISO string the route compares start times with.
 */
module AutomationsRoute {
  import opened Wrappers
  import opened Text

  datatype N8nWorkflow = N8nWorkflow(id: string, name: string, active: bool)

  datatype ExecStatus = Success | Error | Waiting | Running

  datatype Execution = Execution(id: string, status: ExecStatus, startedAt: string, workflowId: string)

  datatype Health = Healthy | Failing | Unknown | Paused

  datatype AutomationItem = AutomationItem(id: string, name: string, active: bool, health: Health,
                                           lastRunAt: Option<string>, lastRunStatus: Option<ExecStatus>,
                                           weeklyRuns: nat, n8nUrl: string)

  // ---------------------------------------------------------------- the two filters

  /** The executions of one workflow, in the order n8n returned them (newest first). */
  function ExecutionsOf(all: seq<Execution>, workflowId: string): seq<Execution> {
    if |all| == 0 then []
    else
      var e := all[|all| - 1];
      ExecutionsOf(all[..|all| - 1], workflowId) + (if e.workflowId == workflowId then [e] else [])
  }

  /** `e.startedAt && e.startedAt >= weekAgoISO`: a non-empty start time not before a week ago. */
  predicate Recent(e: Execution, weekAgo: string) {
    |e.startedAt| > 0 && LexGe(e.startedAt, weekAgo)
  }

  function Weekly(execs: seq<Execution>, weekAgo: string): seq<Execution> {
    if |execs| == 0 then []
    else
      var e := execs[|execs| - 1];
      Weekly(execs[..|execs| - 1], weekAgo) + (if Recent(e, weekAgo) then [e] else [])
  }

  /** The executions of a workflow are those of the list that carry its id. */
  lemma {:induction false} ExecutionsOfMembers(all: seq<Execution>, workflowId: string, e: Execution)
    ensures e in ExecutionsOf(all, workflowId) <==> e in all && e.workflowId == workflowId
  {
    if |all| > 0 {
      var p := all[..|all| - 1];
      ExecutionsOfMembers(p, workflowId, e);
      assert all == p + [all[|all| - 1]];
    }
  }

  /** The first execution of a workflow is the first one of the list that carries its id. */
  lemma {:induction false} ExecutionsOfFirst(all: seq<Execution>, workflowId: string)
    requires |ExecutionsOf(all, workflowId)| > 0
    ensures exists i :: 0 <= i < |all| && all[i] == ExecutionsOf(all, workflowId)[0]
                        && all[i].workflowId == workflowId
                        && forall j :: 0 <= j < i ==> all[j].workflowId != workflowId
  {
    var p := all[..|all| - 1];
    if |ExecutionsOf(p, workflowId)| > 0 {
      ExecutionsOfFirst(p, workflowId);
      var i :| 0 <= i < |p| && p[i] == ExecutionsOf(p, workflowId)[0] && p[i].workflowId == workflowId
               && forall j :: 0 <= j < i ==> p[j].workflowId != workflowId;
      assert all[i] == p[i];
    } else {
      NoneOf(p, workflowId);
      assert all[|all| - 1] == ExecutionsOf(all, workflowId)[0];
    }
  }

  lemma {:induction false} NoneOf(all: seq<Execution>, workflowId: string)
    requires |ExecutionsOf(all, workflowId)| == 0
    ensures forall j :: 0 <= j < |all| ==> all[j].workflowId != workflowId
  {
    if |all| > 0 {
      NoneOf(all[..|all| - 1], workflowId);
    }
  }

  /** The weekly runs are a sub-list: never more of them than runs. */
  lemma {:induction false} WeeklyBounded(execs: seq<Execution>, weekAgo: string)
    ensures |Weekly(execs, weekAgo)| <= |execs|
    ensures forall e :: e in Weekly(execs, weekAgo) <==> e in execs && Recent(e, weekAgo)
  {
    if |execs| > 0 {
      var p := execs[..|execs| - 1];
      WeeklyBounded(p, weekAgo);
      assert execs == p + [execs[|execs| - 1]];
    }
  }

  // ---------------------------------------------------------------- one item

  /** Paused when inactive, unknown without executions, else decided by the newest execution. */
  function HealthOf(active: bool, execs: seq<Execution>): Health {
    if !active then Paused
    else if |execs| == 0 then Unknown
    else if execs[0].status == Success then Healthy
    else Failing
  }

  /** The newest status, only when it is success or error. */
  function LastRunStatus(execs: seq<Execution>): (r: Option<ExecStatus>)
    ensures r.Some? ==> |execs| > 0 && r.value == execs[0].status
    ensures r.None? <==> |execs| == 0 || execs[0].status.Waiting? || execs[0].status.Running?
  {
    if |execs| > 0 && (execs[0].status.Success? || execs[0].status.Error?) then Some(execs[0].status)
    else None
  }

  /** `lastExecution?.startedAt || null`: an empty start time counts as none. */
  function LastRunAt(execs: seq<Execution>): (r: Option<string>)
    ensures r.Some? <==> |execs| > 0 && |execs[0].startedAt| > 0
    ensures r.Some? ==> r.value == execs[0].startedAt
  {
    if |execs| > 0 && |execs[0].startedAt| > 0 then Some(execs[0].startedAt) else None
  }

  /** The body of the `map` callback. */
  function Item(host: string, w: N8nWorkflow, all: seq<Execution>, weekAgo: string): AutomationItem {
    var execs := ExecutionsOf(all, w.id);
    AutomationItem(w.id, w.name, w.active, HealthOf(w.active, execs), LastRunAt(execs),
                   LastRunStatus(execs), |Weekly(execs, weekAgo)|, host + "/workflow/" + w.id)
  }

  /**
   * The health of a workflow: paused exactly when it is inactive; for an active one unknown
   * exactly when it has no execution, healthy exactly when its newest execution succeeded and
   * failing exactly when that execution did not.
   */
  lemma HealthCases(host: string, w: N8nWorkflow, all: seq<Execution>, weekAgo: string)
    ensures Item(host, w, all, weekAgo).health == Paused <==> !w.active
    ensures w.active ==>
              (Item(host, w, all, weekAgo).health == Unknown <==> forall e :: e in all ==> e.workflowId != w.id)
    ensures w.active && (exists e :: e in all && e.workflowId == w.id) ==>
              exists i :: 0 <= i < |all| && all[i].workflowId == w.id
                          && (forall j :: 0 <= j < i ==> all[j].workflowId != w.id)
                          && (Item(host, w, all, weekAgo).health == Healthy <==> all[i].status == Success)
                          && (Item(host, w, all, weekAgo).health == Failing <==> all[i].status != Success)
  {
    var execs := ExecutionsOf(all, w.id);
    if |execs| > 0 {
      ExecutionsOfFirst(all, w.id);
      ExecutionsOfMembers(all, w.id, execs[0]);
    } else {
      forall e | e in all ensures e.workflowId != w.id {
        ExecutionsOfMembers(all, w.id, e);
      }
    }
  }

  /** The weekly runs of an item count its workflow's executions with a recent start time. */
  lemma WeeklyRunsAre(host: string, w: N8nWorkflow, all: seq<Execution>, weekAgo: string)
    ensures Item(host, w, all, weekAgo).weeklyRuns <= |ExecutionsOf(all, w.id)|
    ensures forall e :: e in Weekly(ExecutionsOf(all, w.id), weekAgo) <==>
                          e in all && e.workflowId == w.id && Recent(e, weekAgo)
  {
    WeeklyBounded(ExecutionsOf(all, w.id), weekAgo);
    forall e ensures e in ExecutionsOf(all, w.id) <==> e in all && e.workflowId == w.id {
      ExecutionsOfMembers(all, w.id, e);
    }
  }

  // ---------------------------------------------------------------- the response

  /** The `map` over the workflows. */
  function Automations(host: string, workflows: seq<N8nWorkflow>, all: seq<Execution>, weekAgo: string)
    : (r: seq<AutomationItem>)
    ensures |r| == |workflows|
    ensures forall i :: 0 <= i < |workflows| ==> r[i] == Item(host, workflows[i], all, weekAgo)
  {
    seq(|workflows|, i requires 0 <= i < |workflows| => Item(host, workflows[i], all, weekAgo))
  }

  /** The `reduce` summing the weekly runs. */
  function WeeklyTotal(items: seq<AutomationItem>): nat {
    if |items| == 0 then 0 else WeeklyTotal(items[..|items| - 1]) + items[|items| - 1].weeklyRuns
  }

  /** Every item carries its workflow's id, name and flag, and the link to it. */
  lemma ItemsFollowWorkflows(host: string, workflows: seq<N8nWorkflow>, all: seq<Execution>, weekAgo: string)
    ensures forall i :: 0 <= i < |workflows| ==>
              var a := Automations(host, workflows, all, weekAgo)[i];
              a.id == workflows[i].id && a.name == workflows[i].name && a.active == workflows[i].active
              && a.n8nUrl == host + "/workflow/" + workflows[i].id
  {
  }

  function Ids(workflows: seq<N8nWorkflow>): set<string> {
    set i | 0 <= i < |workflows| :: workflows[i].id
  }

  /** The recent executions of any workflow of `ids`. */
  function RecentOf(all: seq<Execution>, ids: set<string>, weekAgo: string): seq<Execution> {
    if |all| == 0 then []
    else
      var e := all[|all| - 1];
      RecentOf(all[..|all| - 1], ids, weekAgo) + (if e.workflowId in ids && Recent(e, weekAgo) then [e] else [])
  }

  /** Adding a workflow id adds that workflow's recent executions. */
  lemma {:induction false} RecentOfAdd(all: seq<Execution>, ids: set<string>, id: string, weekAgo: string)
    requires id !in ids
    ensures |RecentOf(all, ids + {id}, weekAgo)| == |RecentOf(all, ids, weekAgo)| + |Weekly(ExecutionsOf(all, id), weekAgo)|
  {
    if |all| > 0 {
      var p := all[..|all| - 1];
      RecentOfAdd(p, ids, id, weekAgo);
      var e := all[|all| - 1];
      var before := ExecutionsOf(p, id);
      if e.workflowId == id {
        assert ExecutionsOf(all, id) == before + [e];
        assert (before + [e])[..|before|] == before;
        assert |Weekly(before + [e], weekAgo)| == |Weekly(before, weekAgo)| + (if Recent(e, weekAgo) then 1 else 0);
        assert e.workflowId in ids + {id} && e.workflowId !in ids;
      } else {
        assert ExecutionsOf(all, id) == before;
        assert e.workflowId in ids + {id} <==> e.workflowId in ids;
      }
    }
  }

  lemma {:induction false} RecentOfBounded(all: seq<Execution>, ids: set<string>, weekAgo: string)
    ensures |RecentOf(all, ids, weekAgo)| <= |all|
  {
    if |all| > 0 {
      RecentOfBounded(all[..|all| - 1], ids, weekAgo);
    }
  }

  /**
   * With distinct workflow ids, the weekly total is the number of recent executions that belong
   * to one of the workflows, so it is never more than the number of executions fetched.
   */
  lemma {:induction false} WeeklyTotalCounts(host: string, workflows: seq<N8nWorkflow>, all: seq<Execution>, weekAgo: string)
    requires forall i, j :: 0 <= i < j < |workflows| ==> workflows[i].id != workflows[j].id
    ensures WeeklyTotal(Automations(host, workflows, all, weekAgo)) == |RecentOf(all, Ids(workflows), weekAgo)|
    ensures WeeklyTotal(Automations(host, workflows, all, weekAgo)) <= |all|
  {
    RecentOfBounded(all, Ids(workflows), weekAgo);
    if |workflows| == 0 {
      assert Ids(workflows) == {};
      EmptyIds(all, weekAgo);
    } else {
      var n := |workflows| - 1;
      var p := workflows[..n];
      var w := workflows[n];
      var items := Automations(host, workflows, all, weekAgo);
      assert forall i, j :: 0 <= i < j < |p| ==> p[i].id != p[j].id by {
        assert forall i :: 0 <= i < n ==> p[i] == workflows[i];
      }
      WeeklyTotalCounts(host, p, all, weekAgo);
      assert items[..n] == Automations(host, p, all, weekAgo);
      assert WeeklyTotal(items) == WeeklyTotal(items[..n]) + |Weekly(ExecutionsOf(all, w.id), weekAgo)|;
      IdsSnoc(workflows);
      RecentOfAdd(all, Ids(p), w.id, weekAgo);
    }
  }

  /** The ids of a list of workflows with distinct ids, split at the last one. */
  lemma IdsSnoc(workflows: seq<N8nWorkflow>)
    requires |workflows| > 0
    requires forall i, j :: 0 <= i < j < |workflows| ==> workflows[i].id != workflows[j].id
    ensures var n := |workflows| - 1;
            Ids(workflows) == Ids(workflows[..n]) + {workflows[n].id} && workflows[n].id !in Ids(workflows[..n])
  {
    var n := |workflows| - 1;
    var p := workflows[..n];
    assert forall i :: 0 <= i < n ==> p[i] == workflows[i];
    assert workflows == p + [workflows[n]];
  }

  lemma {:induction false} EmptyIds(all: seq<Execution>, weekAgo: string)
    ensures RecentOf(all, {}, weekAgo) == []
  {
    if |all| > 0 {
      EmptyIds(all[..|all| - 1], weekAgo);
    }
  }

  // ---------------------------------------------------------------- the handler

  datatype Credentials = Credentials(host: string, apiKey: string)

  datatype Response = Response(status: nat, automations: seq<AutomationItem>, weeklyTotal: nat, error: Option<string>)

  const UnauthorizedMsg := "Unauthorized"
  const NotConnectedMsg := "n8n not connected. " + "Please connect your " + "n8n instance in settings."
  const FetchFailedMsg := "Failed to connect to n8n. " + "Please check your " + "connection settings."

  /**
   * `GET`: the signed-in check, the stored credentials, the workflow list (None when the request
   * failed) and the execution list (None when that request failed).
   */
  function Get(signedIn: bool, credentials: Option<Credentials>, workflows: Option<seq<N8nWorkflow>>,
               executions: Option<seq<Execution>>, weekAgo: string): (r: Response)
    ensures !signedIn ==> r == Response(401, [], 0, Some(UnauthorizedMsg))
    ensures signedIn && credentials.None? ==> r == Response(200, [], 0, Some(NotConnectedMsg))
    ensures signedIn && credentials.Some? && workflows.None? ==> r == Response(200, [], 0, Some(FetchFailedMsg))
    ensures r.error.None? <==> signedIn && credentials.Some? && workflows.Some?
  {
    if !signedIn then Response(401, [], 0, Some(UnauthorizedMsg))
    else if credentials.None? then Response(200, [], 0, Some(NotConnectedMsg))
    else if workflows.None? then Response(200, [], 0, Some(FetchFailedMsg))
    else
      var items := Automations(credentials.value.host, workflows.value, executions.GetOr([]), weekAgo);
      Response(200, items, WeeklyTotal(items), None)
  }

  /**
   * A failed execution request is read as no executions: every active workflow is then of
   * unknown health with no weekly runs.
   */
  lemma ExecutionsFailed(signedIn: bool, credentials: Option<Credentials>, workflows: Option<seq<N8nWorkflow>>,
                         weekAgo: string)
    requires signedIn && credentials.Some? && workflows.Some?
    ensures var r := Get(signedIn, credentials, workflows, None, weekAgo);
            |r.automations| == |workflows.value| && r.weeklyTotal == 0
            && forall i :: 0 <= i < |r.automations| ==>
                 r.automations[i].health == (if workflows.value[i].active then Unknown else Paused)
                 && r.automations[i].weeklyRuns == 0
  {
    var items := Automations(credentials.value.host, workflows.value, [], weekAgo);
    ZeroRuns(items);
  }

  lemma {:induction false} ZeroRuns(items: seq<AutomationItem>)
    requires forall i :: 0 <= i < |items| ==> items[i].weeklyRuns == 0
    ensures WeeklyTotal(items) == 0
  {
    if |items| > 0 {
      ZeroRuns(items[..|items| - 1]);
    }
  }
}
