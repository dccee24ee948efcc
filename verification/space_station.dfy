/**
 * A space station status record (ex0/space_station.py): declared field
 * bounds and defaults only, with no business rules.
 */
module Station {
  import opened Wrappers
  import opened Text
  import opened Validation

  datatype SpaceStation = SpaceStation(
    stationId: string,
    name: string,
    crewSize: int,
    powerLevel: real,
    oxygenLevel: real,
    lastMaintenance: DateTime,
    isOperational: bool,
    notes: Option<string>)

  /**
   * The values a caller passes when constructing a station. A defaulted
   * field left out is `None`; `notes` is already optional, and leaving it
   * out means `None`.
   */
  datatype StationInput = StationInput(
    stationId: string,
    name: string,
    crewSize: int,
    powerLevel: real,
    oxygenLevel: real,
    lastMaintenance: DateTime,
    isOperational: Option<bool>,
    notes: Option<string>)

  /** The record's `Field(...)` declarations, in declaration order. */
  function Declared(s: SpaceStation): seq<Field> {
    [ Field("station_id", Str(s.stationId), Length(3, 10)),
      Field("name", Str(s.name), Length(1, 50)),
      Field("crew_size", Int(s.crewSize), IntBetween(1, 20)),
      Field("power_level", Num(s.powerLevel), RealBetween(0.0, 100.0)),
      Field("oxygen_level", Num(s.oxygenLevel), RealBetween(0.0, 100.0)),
      Field("notes", OptStr(s.notes), OptionalMaxLength(200)) ]
  }

  /** Every declared field of the station meets its bounds. */
  function FieldsValid(s: SpaceStation): (r: bool)
    ensures r <==>
      && 3 <= |s.stationId| <= 10
      && 1 <= |s.name| <= 50
      && 1 <= s.crewSize <= 20
      && 0.0 <= s.powerLevel <= 100.0
      && 0.0 <= s.oxygenLevel <= 100.0
      && (s.notes.Some? ==> |s.notes.value| <= 200)
  {
    var f := Declared(s);
    assert AllSatisfied(f) <==>
      && Satisfies(f[0].value, f[0].constraint) && Satisfies(f[1].value, f[1].constraint)
      && Satisfies(f[2].value, f[2].constraint) && Satisfies(f[3].value, f[3].constraint)
      && Satisfies(f[4].value, f[4].constraint) && Satisfies(f[5].value, f[5].constraint);
    AllSatisfied(f)
  }

  /** The record the input describes once the declared defaults fill the gaps. */
  function WithDefaults(input: StationInput): (s: SpaceStation)
    ensures input.isOperational.None? ==> s.isOperational
    ensures input.isOperational.Some? ==> s.isOperational == input.isOperational.value
    ensures s.notes == input.notes
    ensures AsInput(s) == input.(isOperational := Some(s.isOperational))
  {
    SpaceStation(input.stationId, input.name, input.crewSize, input.powerLevel,
                 input.oxygenLevel, input.lastMaintenance,
                 input.isOperational.GetOr(true), input.notes)
  }

  /** Constructing a station: the defaults are applied and the fields checked. */
  function CreateStation(input: StationInput): (r: Outcome<SpaceStation>)
    ensures r.Accepted? <==> FieldsValid(WithDefaults(input))
    ensures r.FieldsRejected? <==> !FieldsValid(WithDefaults(input))
    ensures r.Accepted? ==>
      && r.value.stationId == input.stationId && r.value.name == input.name
      && r.value.crewSize == input.crewSize && r.value.powerLevel == input.powerLevel
      && r.value.oxygenLevel == input.oxygenLevel
      && r.value.lastMaintenance == input.lastMaintenance
      && r.value.isOperational == input.isOperational.GetOr(true)
      && r.value.notes == input.notes
  {
    Validate(FieldsValid, NoRules, WithDefaults(input))
  }

  /** The input that spells out every field of an existing station. */
  function AsInput(s: SpaceStation): StationInput {
    StationInput(s.stationId, s.name, s.crewSize, s.powerLevel, s.oxygenLevel,
                 s.lastMaintenance, Some(s.isOperational), s.notes)
  }

  /** Re-validating an accepted station from its own field values accepts the same station. */
  lemma CreateStationIdempotent(input: StationInput)
    requires CreateStation(input).Accepted?
    ensures CreateStation(AsInput(CreateStation(input).value)) == CreateStation(input)
  {
  }

  /** Each numeric bound is inclusive at both ends. */
  lemma BoundsInclusive(s: SpaceStation)
    requires FieldsValid(s)
    ensures FieldsValid(s.(crewSize := 1)) && FieldsValid(s.(crewSize := 20))
    ensures !FieldsValid(s.(crewSize := 0)) && !FieldsValid(s.(crewSize := 21))
    ensures FieldsValid(s.(powerLevel := 0.0)) && FieldsValid(s.(powerLevel := 100.0))
    ensures FieldsValid(s.(oxygenLevel := 0.0)) && FieldsValid(s.(oxygenLevel := 100.0))
    ensures !FieldsValid(s.(powerLevel := -0.5)) && !FieldsValid(s.(powerLevel := 100.5))
    ensures !FieldsValid(s.(oxygenLevel := -0.5)) && !FieldsValid(s.(oxygenLevel := 100.5))
  {
  }

  const MaintenanceTime := DateTime("2026-02-01T10:30:00")

  /** The first station built in the demonstration. */
  const IssInput := StationInput("ISS001", "International Space Station", 6, 85.5, 92.3,
                                 MaintenanceTime, None, Some("All systems nominal."))

  /** The station with 30 crew built in the demonstration to provoke an error. */
  const OvercrewedInput := StationInput("BAD01", "Bad Station", 30, 50.0, 50.0,
                                        MaintenanceTime, None, None)

  /** The demonstration station is accepted, operational by default. */
  lemma IssAccepted()
    ensures CreateStation(IssInput) == Accepted(SpaceStation(
      "ISS001", "International Space Station", 6, 85.5, 92.3,
      MaintenanceTime, true, Some("All systems nominal.")))
  {
  }

  /** A crew of 30 is rejected, and the crew size is the only offending field. */
  lemma OvercrewedRejected()
    ensures CreateStation(OvercrewedInput) == FieldsRejected
    ensures forall k :: 1 <= k <= 20 ==> CreateStation(OvercrewedInput.(crewSize := k)).Accepted?
  {
  }
}
