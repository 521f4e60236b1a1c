/** TeamLoader: the team record built from parsed metadata, and its checks. */
module Team {
  import opened Wrappers
  import opened Json
  import opened ConceptTypes

  datatype Coordination = Hierarchical | Collaborative | Sequential | AutonomousCoordination

  datatype TeamMember = TeamMember(role: string, name: Option<string>, config: Option<Fields>)

  /** team.yml after schema parsing. */
  datatype TeamMetadata = TeamMetadata(
    name: string,
    description: Option<string>,
    members: seq<TeamMember>,
    coordination: Option<Coordination>,
    leader: Option<string>,
    workflows: Option<seq<string>>)

  datatype TeamRecord = TeamRecord(
    name: string,
    conceptType: ConceptType,
    description: Option<string>,
    members: seq<TeamMember>,
    coordination: Option<Coordination>,
    leader: Option<string>,
    workflows: seq<string>)

  /** `loadConceptContent`: the type is always team and `workflows` defaults to []. */
  function TeamOf(m: TeamMetadata): (r: TeamRecord)
    ensures r.conceptType == TeamType && r.name == m.name && r.members == m.members && r.leader == m.leader
    ensures m.workflows.None? ==> r.workflows == []
    ensures m.workflows.Some? ==> r.workflows == m.workflows.value
  {
    TeamRecord(m.name, TeamType, m.description, m.members, m.coordination, m.leader,
      if m.workflows.Some? then m.workflows.value else [])
  }

  /** Some member's `name` (not its `role`) is `leader`. */
  predicate LeaderIsMember(members: seq<TeamMember>, leader: string) {
    exists i :: 0 <= i < |members| && members[i].name == Some(leader)
  }

  /** The leader is set and truthy. */
  predicate HasLeader(team: TeamRecord) {
    team.leader.Some? && team.leader.value != ""
  }

  /** `validateConcept`: no members throws; a truthy leader that names no member throws. */
  function ValidateTeam(team: TeamRecord): (r: Outcome)
    ensures |team.members| == 0 ==> r == Fail("Team must have at least one member")
    ensures r.Pass? <==> |team.members| > 0 && (HasLeader(team) ==> LeaderIsMember(team.members, team.leader.value))
  {
    if |team.members| == 0 then Fail("Team must have at least one member")
    else if HasLeader(team) && !LeaderIsMember(team.members, team.leader.value) then
      Fail("Leader " + team.leader.value + " not found in team members")
    else Pass
  }

  /** With members and no leader, validation never throws. */
  lemma NoLeaderPasses(team: TeamRecord)
    requires |team.members| > 0 && team.leader.None?
    ensures ValidateTeam(team) == Pass
  {
  }

  /** A leader matching only a member's role, not its name, is not found. */
  lemma LeaderMatchedByName(role: string)
    requires role != ""
    ensures ValidateTeam(TeamOf(TeamMetadata("t", None, [TeamMember(role, None, None)], None, Some(role), None))) ==
      Fail("Leader " + role + " not found in team members")
  {
    var team := TeamOf(TeamMetadata("t", None, [TeamMember(role, None, None)], None, Some(role), None));
    assert !LeaderIsMember(team.members, role);
  }
}
