/** WorkflowLoader: the workflow record built from parsed metadata, and its checks. */
module Workflow {
  import opened Wrappers
  import opened Json
  import opened ConceptTypes

  datatype Stage = Stage(
    name: string,
    team: string,
    entryCriteria: Option<seq<string>>,
    tasks: seq<string>,
    exitCriteria: Option<seq<string>>,
    onFailure: Option<seq<string>>)

  datatype TriggerKind = Manual | Scheduled | Event

  datatype Trigger = Trigger(kind: TriggerKind, config: Option<Fields>)

  /** workflow.yml after schema parsing. */
  datatype WorkflowMetadata = WorkflowMetadata(
    name: string,
    description: Option<string>,
    stages: seq<Stage>,
    teams: seq<string>,
    triggers: Option<seq<Trigger>>,
    conditions: Option<Fields>)

  datatype WorkflowRecord = WorkflowRecord(
    name: string,
    conceptType: ConceptType,
    description: Option<string>,
    stages: seq<Stage>,
    teams: seq<string>,
    triggers: seq<Trigger>,
    conditions: Fields)

  /** `loadConceptContent`: type workflow, triggers default to [] and conditions to {}. */
  function WorkflowOf(m: WorkflowMetadata): (r: WorkflowRecord)
    ensures r.conceptType == WorkflowType && r.stages == m.stages && r.teams == m.teams
    ensures r.triggers == if m.triggers.Some? then m.triggers.value else []
    ensures r.conditions == if m.conditions.Some? then m.conditions.value else []
  {
    WorkflowRecord(m.name, WorkflowType, m.description, m.stages, m.teams,
      if m.triggers.Some? then m.triggers.value else [],
      if m.conditions.Some? then m.conditions.value else [])
  }

  /** `new Set(stages.map(s => s.team))`. */
  function StageTeams(stages: seq<Stage>): (r: set<string>)
    ensures forall t :: t in r <==> exists i :: 0 <= i < |stages| && stages[i].team == t
  {
    set i | 0 <= i < |stages| :: stages[i].team
  }

  function UnusedWarning(team: string): string {
    "Team " + team + " declared but not used in any stage"
  }

  /** One warning per declared team outside `used`, in declaration order. */
  function UnusedWarnings(teams: seq<string>, used: set<string>): (r: seq<string>)
    ensures |r| <= |teams|
  {
    if |teams| == 0 then []
    else
      var t := teams[|teams| - 1];
      UnusedWarnings(teams[..|teams| - 1], used) + (if t in used then [] else [UnusedWarning(t)])
  }

  /** What `validateConcept` does: throw, or complete with the warnings it logs. */
  datatype WorkflowCheck = WorkflowCheck(outcome: Outcome, warnings: seq<string>)

  function ValidateWorkflow(w: WorkflowRecord): (r: WorkflowCheck)
    ensures r.outcome.Pass? <==> |w.stages| > 0
    ensures r.outcome.Fail? ==> r == WorkflowCheck(Fail("Workflow must have at least one stage"), [])
  {
    if |w.stages| == 0 then WorkflowCheck(Fail("Workflow must have at least one stage"), [])
    else WorkflowCheck(Pass, UnusedWarnings(w.teams, StageTeams(w.stages)))
  }

  /** The warnings name exactly the declared teams no stage uses. */
  lemma {:induction false} UnusedWarningsExact(teams: seq<string>, used: set<string>)
    ensures forall m :: m in UnusedWarnings(teams, used) <==> exists t :: t in teams && t !in used && m == UnusedWarning(t)
  {
    if |teams| > 0 {
      var init := teams[..|teams| - 1];
      UnusedWarningsExact(init, used);
      assert forall t :: t in teams <==> t in init || t == teams[|teams| - 1];
    }
  }

  /** When every declared team has a stage there is nothing to warn about. */
  lemma {:induction false} AllUsedNoWarnings(teams: seq<string>, used: set<string>)
    requires forall t :: t in teams ==> t in used
    ensures UnusedWarnings(teams, used) == []
  {
    if |teams| > 0 {
      assert forall t :: t in teams[..|teams| - 1] ==> t in teams;
      AllUsedNoWarnings(teams[..|teams| - 1], used);
    }
  }
}
