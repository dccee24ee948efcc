/**
 * A crew roster and the mission it serves (ex2/space_crew.py): field bounds
 * and defaults for both records, and the mission's four rules, which the
 * validator checks with loops over the crew.
 */
module Crew {
  import opened Wrappers
  import opened Text
  import opened Validation

  datatype Rank = Cadet | Officer | Lieutenant | Captain | Commander

  datatype CrewMember = CrewMember(
    memberId: string,
    name: string,
    rank: Rank,
    age: int,
    specialization: string,
    yearsExperience: int,
    isActive: bool)

  /** Construction values of a crew member; a left-out `is_active` is `None`. */
  datatype MemberInput = MemberInput(
    memberId: string,
    name: string,
    rank: Rank,
    age: int,
    specialization: string,
    yearsExperience: int,
    isActive: Option<bool>)

  datatype SpaceMission = SpaceMission(
    missionId: string,
    missionName: string,
    destination: string,
    launchDate: DateTime,
    durationDays: int,
    crew: seq<CrewMember>,
    missionStatus: string,
    budgetMillions: real)

  /** Construction values of a mission; a left-out `mission_status` is `None`. */
  datatype MissionInput = MissionInput(
    missionId: string,
    missionName: string,
    destination: string,
    launchDate: DateTime,
    durationDays: int,
    crew: seq<CrewMember>,
    missionStatus: Option<string>,
    budgetMillions: real)

  // ---------------------------------------------------------------- fields

  /** A crew member's `Field(...)` declarations, in declaration order. */
  function MemberDeclared(m: CrewMember): seq<Field> {
    [ Field("member_id", Str(m.memberId), Length(3, 10)),
      Field("name", Str(m.name), Length(2, 50)),
      Field("age", Int(m.age), IntBetween(18, 80)),
      Field("specialization", Str(m.specialization), Length(3, 30)),
      Field("years_experience", Int(m.yearsExperience), IntBetween(0, 50)) ]
  }

  /** Every declared field of the crew member meets its bounds. */
  function MemberFieldsValid(m: CrewMember): (r: bool)
    ensures r <==>
      && 3 <= |m.memberId| <= 10
      && 2 <= |m.name| <= 50
      && 18 <= m.age <= 80
      && 3 <= |m.specialization| <= 30
      && 0 <= m.yearsExperience <= 50
  {
    var f := MemberDeclared(m);
    assert AllSatisfied(f) <==>
      && Satisfies(f[0].value, f[0].constraint) && Satisfies(f[1].value, f[1].constraint)
      && Satisfies(f[2].value, f[2].constraint) && Satisfies(f[3].value, f[3].constraint)
      && Satisfies(f[4].value, f[4].constraint);
    AllSatisfied(f)
  }

  /** A mission's `Field(...)` declarations, in declaration order. */
  function MissionDeclared(m: SpaceMission): seq<Field> {
    [ Field("mission_id", Str(m.missionId), Length(5, 15)),
      Field("mission_name", Str(m.missionName), Length(3, 100)),
      Field("destination", Str(m.destination), Length(3, 50)),
      Field("duration_days", Int(m.durationDays), IntBetween(1, 3650)),
      Field("crew", Items(|m.crew|), Length(1, 12)),
      Field("budget_millions", Num(m.budgetMillions), RealBetween(1.0, 10000.0)) ]
  }

  /**
   * Every declared field of the mission meets its bounds. Crew members only
   * exist as validated records, so each of them meets its own bounds too.
   */
  function MissionFieldsValid(m: SpaceMission): (r: bool)
    ensures r <==>
      && 5 <= |m.missionId| <= 15
      && 3 <= |m.missionName| <= 100
      && 3 <= |m.destination| <= 50
      && 1 <= m.durationDays <= 3650
      && 1 <= |m.crew| <= 12
      && 1.0 <= m.budgetMillions <= 10000.0
      && (forall member :: member in m.crew ==> MemberFieldsValid(member))
  {
    var f := MissionDeclared(m);
    assert AllSatisfied(f) <==>
      && Satisfies(f[0].value, f[0].constraint) && Satisfies(f[1].value, f[1].constraint)
      && Satisfies(f[2].value, f[2].constraint) && Satisfies(f[3].value, f[3].constraint)
      && Satisfies(f[4].value, f[4].constraint) && Satisfies(f[5].value, f[5].constraint);
    AllSatisfied(f) && (forall i :: 0 <= i < |m.crew| ==> MemberFieldsValid(m.crew[i]))
  }

  function MemberWithDefaults(input: MemberInput): (m: CrewMember)
    ensures input.isActive.None? ==> m.isActive
    ensures input.isActive.Some? ==> m.isActive == input.isActive.value
    ensures MemberAsInput(m) == input.(isActive := Some(m.isActive))
  {
    CrewMember(input.memberId, input.name, input.rank, input.age, input.specialization,
               input.yearsExperience, input.isActive.GetOr(true))
  }

  /** The input that spells out every field of an existing crew member. */
  function MemberAsInput(m: CrewMember): MemberInput {
    MemberInput(m.memberId, m.name, m.rank, m.age, m.specialization, m.yearsExperience,
                Some(m.isActive))
  }

  /** Constructing a crew member: defaults, then the field checks; there are no rules. */
  function CreateMember(input: MemberInput): (r: Outcome<CrewMember>)
    ensures r.Accepted? <==> MemberFieldsValid(MemberWithDefaults(input))
    ensures r.FieldsRejected? <==> !MemberFieldsValid(MemberWithDefaults(input))
    ensures r.Accepted? ==> r.value == MemberWithDefaults(input)
  {
    Validate(MemberFieldsValid, NoRules, MemberWithDefaults(input))
  }

  function MissionWithDefaults(input: MissionInput): (m: SpaceMission)
    ensures input.missionStatus.None? ==> m.missionStatus == "planned"
    ensures input.missionStatus.Some? ==> m.missionStatus == input.missionStatus.value
    ensures m.crew == input.crew
    ensures MissionAsInput(m) == input.(missionStatus := Some(m.missionStatus))
  {
    SpaceMission(input.missionId, input.missionName, input.destination, input.launchDate,
                 input.durationDays, input.crew, input.missionStatus.GetOr("planned"),
                 input.budgetMillions)
  }

  // ---------------------------------------------------------------- rules

  const IdMessage := "Mission ID must start with \"M\""
  const LeaderMessage := "Mission must have at least one Commander or Captain"
  const ExperienceMessage := "Not enough experienced crew"
  const ActiveMessage := "All crew members must be active"

  predicate IsLeader(r: Rank) { r == Captain || r == Commander }

  predicate IsExperienced(m: CrewMember) { m.yearsExperience >= 5 }

  /** Someone in the crew holds the rank of captain or commander. */
  function HasLeader(crew: seq<CrewMember>): (r: bool)
    ensures r <==> exists member :: member in crew && member.rank in {Captain, Commander}
  {
    exists i :: 0 <= i < |crew| && IsLeader(crew[i].rank)
  }

  /** Nobody in the crew is inactive. */
  function AllActive(crew: seq<CrewMember>): (r: bool)
    ensures r <==> forall member :: member in crew ==> member.isActive
  {
    forall i :: 0 <= i < |crew| ==> crew[i].isActive
  }

  /** How many crew members have at least five years of experience. */
  function ExperiencedCount(crew: seq<CrewMember>): (n: nat)
    ensures n <= |crew|
    ensures n == |crew| <==> forall i :: 0 <= i < |crew| ==> IsExperienced(crew[i])
    ensures n == 0 <==> forall i :: 0 <= i < |crew| ==> !IsExperienced(crew[i])
  {
    if crew == [] then 0
    else ExperiencedCount(crew[..|crew| - 1]) + (if IsExperienced(crew[|crew| - 1]) then 1 else 0)
  }

  /** Extending a crew prefix by one member adds one to the count exactly when that member is experienced. */
  lemma ExperiencedCountStep(crew: seq<CrewMember>, i: nat)
    requires i < |crew|
    ensures ExperiencedCount(crew[..i + 1]) == ExperiencedCount(crew[..i]) + (if IsExperienced(crew[i]) then 1 else 0)
  {
    assert crew[..i + 1][..i] == crew[..i];
  }

  predicate IdRule(m: SpaceMission) { StartsWith(m.missionId, "M") }

  predicate LeaderRule(m: SpaceMission) { HasLeader(m.crew) }

  /**
   * Long missions need experienced crew: the count is compared with half the
   * crew size under true division, as the Python validator does. In whole
   * numbers: short missions always pass, long ones need at least half the
   * crew experienced.
   */
  function ExperienceRule(m: SpaceMission): (r: bool)
    ensures r <==> m.durationDays <= 365 || 2 * ExperiencedCount(m.crew) >= |m.crew|
  {
    var experienced, size := ExperiencedCount(m.crew) as real, |m.crew| as real;
    assert experienced < size / 2.0 <==> 2.0 * experienced < size;
    m.durationDays > 365 ==> !(experienced < size / 2.0)
  }

  predicate ActiveRule(m: SpaceMission) { AllActive(m.crew) }

  /** The rules, each with its message, in the order the validator checks them. */
  const MissionRules: seq<Rule<SpaceMission>> := [
    Rule(IdRule, IdMessage),
    Rule(LeaderRule, LeaderMessage),
    Rule(ExperienceRule, ExperienceMessage),
    Rule(ActiveRule, ActiveMessage)
  ]

  /** The verdict of the mission rules: the first failing rule's message, if any. */
  function MissionVerdict(m: SpaceMission): (r: Option<string>)
    ensures r.None? <==> IdRule(m) && LeaderRule(m) && ExperienceRule(m) && ActiveRule(m)
  {
    assert MissionRules[0].holds == IdRule && MissionRules[1].holds == LeaderRule;
    assert MissionRules[2].holds == ExperienceRule && MissionRules[3].holds == ActiveRule;
    FirstFailure(MissionRules, m)
  }

  /** The leader scan: a flag set at every captain or commander, without stopping early. */
  method ScanForLeader(crew: seq<CrewMember>) returns (hasLeader: bool)
    ensures hasLeader <==> HasLeader(crew)
  {
    hasLeader := false;
    for i := 0 to |crew|
      invariant hasLeader <==> exists j :: 0 <= j < i && IsLeader(crew[j].rank)
    {
      if crew[i].rank == Captain || crew[i].rank == Commander {
        hasLeader := true;
      }
    }
  }

  /** The experience tally: a counter bumped for every member with at least five years. */
  method CountExperienced(crew: seq<CrewMember>) returns (experienced: nat)
    ensures experienced == ExperiencedCount(crew)
  {
    experienced := 0;
    for i := 0 to |crew|
      invariant experienced == ExperiencedCount(crew[..i])
    {
      ExperiencedCountStep(crew, i);
      if crew[i].yearsExperience >= 5 {
        experienced := experienced + 1;
      }
    }
    assert crew[..|crew|] == crew;
  }

  /** The activity scan: a flag lowered at any inactive member. */
  method ScanAllActive(crew: seq<CrewMember>) returns (allActive: bool)
    ensures allActive <==> AllActive(crew)
  {
    allActive := true;
    for i := 0 to |crew|
      invariant allActive <==> forall j :: 0 <= j < i ==> crew[j].isActive
    {
      if !crew[i].isActive {
        allActive := false;
      }
    }
  }

  /**
   * The mission's `@model_validator` hook: the prefix test, then one pass over the
   * crew per rule, raising the first failing rule's message.
   */
  method ValidateMissionRules(m: SpaceMission) returns (r: Option<string>)
    ensures r == MissionVerdict(m)
  {
    if !StartsWith(m.missionId, "M") {
      IdCheckedFirst(m);
      return Some(IdMessage);
    }

    var hasLeader := ScanForLeader(m.crew);
    if !hasLeader {
      MissingLeaderReported(m);
      return Some(LeaderMessage);
    }

    if m.durationDays > 365 {
      var experienced := CountExperienced(m.crew);
      if (experienced as real) < (|m.crew| as real) / 2.0 {
        ExperienceShortfallReported(m);
        return Some(ExperienceMessage);
      }
    }

    var allActive := ScanAllActive(m.crew);
    if !allActive {
      ghost var k :| 0 <= k < |m.crew| && !m.crew[k].isActive;
      InactiveMemberReported(m, k);
      return Some(ActiveMessage);
    }

    return None;
  }

  /** What constructing a mission yields: defaults, then field checks, then the mission rules. */
  function MissionOutcome(input: MissionInput): (r: Outcome<SpaceMission>)
    ensures r.FieldsRejected? <==> !MissionFieldsValid(MissionWithDefaults(input))
    ensures r.Accepted? <==> MissionFieldsValid(MissionWithDefaults(input)) && MissionVerdict(MissionWithDefaults(input)).None?
    ensures r.Accepted? ==> r.value == MissionWithDefaults(input)
    ensures r.RuleRejected? ==> MissionFieldsValid(MissionWithDefaults(input)) && MissionVerdict(MissionWithDefaults(input)) == Some(r.message)
  {
    Validate(MissionFieldsValid, MissionVerdict, MissionWithDefaults(input))
  }

  /** Constructing a mission, running the validator's loops. */
  method CreateMission(input: MissionInput) returns (r: Outcome<SpaceMission>)
    ensures r == MissionOutcome(input)
  {
    var m := MissionWithDefaults(input);
    if !MissionFieldsValid(m) {
      return FieldsRejected;
    }
    var verdict := ValidateMissionRules(m);
    match verdict {
      case None => r := Accepted(m);
      case Some(msg) => r := RuleRejected(msg);
    }
  }

  // ---------------------------------------------------------------- properties

  /** A wrong prefix is reported first, whatever else is wrong. */
  lemma IdCheckedFirst(m: SpaceMission)
    requires !StartsWith(m.missionId, "M")
    ensures MissionVerdict(m) == Some(IdMessage)
  {
  }

  /** A crew with no captain or commander is reported once the prefix is right. */
  lemma MissingLeaderReported(m: SpaceMission)
    requires StartsWith(m.missionId, "M")
    requires !HasLeader(m.crew)
    ensures MissionVerdict(m) == Some(LeaderMessage)
  {
    FirstFailureAt(MissionRules, m, 1);
  }

  /** Missions of at most 365 days never raise the experience message. */
  lemma ShortMissionSkipsExperience(m: SpaceMission)
    requires m.durationDays <= 365
    ensures MissionVerdict(m) != Some(ExperienceMessage)
  {
  }

  /** Too few experienced members on a long mission is reported once prefix and leader are right. */
  lemma ExperienceShortfallReported(m: SpaceMission)
    requires StartsWith(m.missionId, "M") && HasLeader(m.crew)
    requires m.durationDays > 365 && 2 * ExperiencedCount(m.crew) < |m.crew|
    ensures MissionVerdict(m) == Some(ExperienceMessage)
  {
    FirstFailureAt(MissionRules, m, 2);
  }

  /**
   * The comparison uses true division: with an odd crew, exactly the floored
   * half of experienced members is not enough, although comparing against
   * the floored half would let the mission through.
   */
  lemma OddCrewFlooredHalfNotEnough(m: SpaceMission)
    requires m.durationDays > 365
    requires |m.crew| % 2 == 1 && ExperiencedCount(m.crew) == |m.crew| / 2
    ensures !ExperienceRule(m)
    ensures !(ExperiencedCount(m.crew) < |m.crew| / 2)
  {
  }

  /** An inactive crew member is reported once the three earlier rules pass. */
  lemma InactiveMemberReported(m: SpaceMission, k: nat)
    requires StartsWith(m.missionId, "M") && HasLeader(m.crew) && ExperienceRule(m)
    requires k < |m.crew| && !m.crew[k].isActive
    ensures MissionVerdict(m) == Some(ActiveMessage)
  {
  }

  /** The four messages are distinct, so a message names its rule. */
  lemma MissionMessagesDistinct()
    ensures DistinctMessages(MissionRules)
  {
  }

  /** A reported message means its rule failed and every rule checked before it passed. */
  lemma ReportedRuleIsFirstFailure(m: SpaceMission, k: nat)
    requires k < |MissionRules|
    requires MissionVerdict(m) == Some(MissionRules[k].message)
    ensures !MissionRules[k].holds(m)
    ensures forall j :: 0 <= j < k ==> MissionRules[j].holds(m)
  {
    MissionMessagesDistinct();
    FirstFailureIdentifies(MissionRules, m, k);
  }

  /** The input that spells out every field of an existing mission. */
  function MissionAsInput(m: SpaceMission): MissionInput {
    MissionInput(m.missionId, m.missionName, m.destination, m.launchDate, m.durationDays,
                 m.crew, Some(m.missionStatus), m.budgetMillions)
  }

  /** Re-validating an accepted mission from its own field values accepts the same mission. */
  lemma MissionOutcomeIdempotent(input: MissionInput)
    requires MissionOutcome(input).Accepted?
    ensures MissionOutcome(MissionAsInput(MissionOutcome(input).value)) == MissionOutcome(input)
  {
  }

  // ---------------------------------------------------------------- demonstration

  const Sarah := CrewMember("CM001", "Sarah Connor", Commander, 38, "Mission Command", 12, true)
  const John := CrewMember("LT002", "John Smith", Lieutenant, 33, "Navigation", 6, true)
  const Alice := CrewMember("OF003", "Alice Johnson", Officer, 29, "Engineering", 5, true)
  const TestCadet := CrewMember("CD001", "Test Cadet", Cadet, 22, "Support", 1, true)

  /** The 900-day Mars mission of the demonstration. */
  const MarsInput := MissionInput("M2024_MARS", "Mars Colony Establishment", "Mars",
    DateTime("2026-03-01T09:00:00"), 900, [Sarah, John, Alice], None, 2500.0)

  /** The 30-day test mission of the demonstration, crewed by one cadet. */
  const CadetInput := MissionInput("M2026_TEST", "Test Mission", "Moon",
    DateTime("2026-04-01T10:00:00"), 30, [TestCadet], None, 100.0)

  /** Every crew member of the demonstration is a valid record. */
  lemma DemonstrationMembersValid()
    ensures MemberFieldsValid(Sarah) && MemberFieldsValid(John)
    ensures MemberFieldsValid(Alice) && MemberFieldsValid(TestCadet)
  {
  }

  /** The Mars mission is accepted: all three members are experienced and a commander leads. */
  lemma MarsAccepted()
    ensures ExperiencedCount(MarsInput.crew) == 3
    ensures MissionOutcome(MarsInput) == Accepted(MissionWithDefaults(MarsInput))
    ensures MissionWithDefaults(MarsInput).missionStatus == "planned"
  {
    var m := MissionWithDefaults(MarsInput);
    DemonstrationMembersValid();
    assert MissionFieldsValid(m);
    assert m.crew[..2] == [Sarah, John] && m.crew[..2][..1] == [Sarah];
    assert IsLeader(m.crew[0].rank);
    assert AllActive(m.crew);
  }

  /** The cadet mission passes the field checks and fails the leader rule. */
  lemma CadetRejected()
    ensures MissionOutcome(CadetInput) == RuleRejected(LeaderMessage)
  {
  }

  /** A 900-day mission where only the commander is experienced fails the experience rule (1 < 3 / 2). */
  lemma LongMissionFewVeteransRejected()
    ensures MissionOutcome(MarsInput.(crew := [Sarah, John.(yearsExperience := 2), Alice.(yearsExperience := 1)]))
            == RuleRejected(ExperienceMessage)
  {
    var input := MarsInput.(crew := [Sarah, John.(yearsExperience := 2), Alice.(yearsExperience := 1)]);
    var m := MissionWithDefaults(input);
    assert MissionFieldsValid(m);
    assert m.crew[..2] == [Sarah, John.(yearsExperience := 2)] && m.crew[..2][..1] == [Sarah];
    assert ExperiencedCount(m.crew) == 1;
    assert IsLeader(m.crew[0].rank);
    ExperienceShortfallReported(m);
  }
}
