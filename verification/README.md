# Space records: field constraints and business rules

This project models three record definitions, each of which is built once and then validated:
- a space station status (`ex0/space_station.py`);
- an alien-contact log entry (`ex1/alien_contact.py`);
- a crew member and the space mission it serves on (`ex2/space_crew.py`).

Every record goes through two phases:
1. Each field must meet the bounds, lengths and defaults declared for it.
2. Only when all fields are valid do the record's business rules run. They run in a fixed order, and the first rule that fails decides the one message reported.

The Dafny modules:
- `Wrappers` (`wrappers.dfy`): `Option`, standing for Python's `Optional[...]`.
- `Text` (`text.dfy`): Python's `str.startswith`, the truthiness of an optional string, and an opaque parsed date-time.
- `Validation` (`validation.dfy`):
  - `Field` and `Constraint`: a `Field(...)` declaration as data (length, integer range, float range, optional maximum length), and `AllSatisfied` over a record's declarations.
  - `Rule`: a condition with its message.
  - `FirstFailure`: evaluates rules in order, first failure wins.
  - `Validate`: the gate that runs the rules only on field-valid records. The result is `Accepted` with the record unchanged, `FieldsRejected`, or `RuleRejected(message)`.
- `Station` (`space_station.dfy`): the station's declarations, its field predicate, its defaults and its construction.
- `Contact` (`alien_contact.dfy`):
  - The contact's declarations, field predicate and defaults.
  - `BusinessRules`, the validator's chain of four guarded checks.
  - `BusinessRulesInOrder`, proving that chain equal to the declared rule list.
- `Crew` (`space_crew.dfy`):
  - The crew member and mission declarations and field predicates.
  - `ValidateMissionRules`, the mission validator as a method.
  - The Python validator's three loops over the crew, each a method of its own: `ScanForLeader` keeps a flag, `CountExperienced` a counter, `ScanAllActive` a flag.
  - Each loop is proved against an exists, count or forall function on the crew. The validator is proved to return `MissionVerdict`.

Float fields (signal strength, power, oxygen, budget) are `real`, because they are only compared against constants. The experience rule compares the count with half the crew size under true division, as `len(self.crew) / 2` does in Python. `ExperienceRule` is proved to equal the whole-number test `2 * count >= |crew|` (or a duration of at most 365 days). `OddCrewFlooredHalfNotEnough` shows where floor division would differ.

Each record's field predicate is its list of `Field(...)` declarations, checked by `AllSatisfied`. Its contract spells out every bound directly.

The strong-signal rule fires when the message is None or empty. This follows the truthiness of `not self.message_received` (ex1/alien_contact.py:38).

The validators are `if` chains. `ContactRules` and `MissionRules` give the same rules as ordered lists, and each chain is proved equal to its list.

## Model

| member | source | states |
|---|---|---|
| `Validation.FirstFailure` | ex2/space_crew.py:36-65 | No message exactly when every rule holds. A reported message belongs to a rule that fails. |
| `Validation.FirstFailureAt` | ex1/alien_contact.py:26-41 | If rule k fails and all earlier rules pass, rule k's message is reported, whatever later rules say. |
| `Validation.FirstFailureIdentifies` | ex1/alien_contact.py:26-41 | When messages are distinct, a reported message means its rule failed and every earlier rule passed. |
| `Validation.Validate` | ex1/alien_contact.py:26-27 | Rules run only when all fields are valid. Acceptance returns the record itself. A rule rejection carries the rule verdict's message. |
| `Text.StartsWith` | ex1/alien_contact.py:28 | Python `startswith`: holds exactly when the string is the prefix followed by some rest, possibly empty. |
| `Text.Truthy` | ex1/alien_contact.py:38 | An optional string is falsy exactly when it is None or the empty string. |
| `Station.FieldsValid` | ex0/space_station.py:8-15 | The declared bounds hold exactly when: id length 3..10, name 1..50, crew 1..20, power and oxygen in [0.0, 100.0], and notes, when present, at most 200 long. |
| `Station.WithDefaults` | ex0/space_station.py:7-15 | An omitted `is_operational` becomes true and an omitted `notes` is None. Every other field keeps the input's value. |
| `Station.CreateStation` | ex0/space_station.py:7-15 | Accepted exactly when the defaulted record meets every bound: id 3..10, name 1..50, crew 1..20, power and oxygen in [0, 100], notes at most 200. Otherwise rejected. The accepted record carries the input values. |
| `Station.CreateStationIdempotent` | ex0/space_station.py:7-15 | Re-validating an accepted station's own values yields the same accepted station. |
| `Station.BoundsInclusive` | ex0/space_station.py:10-12 | Crew size 1 and 20 and power/oxygen 0.0 and 100.0 are valid. Crew size 0 and 21 are not, and neither is power or oxygen at -0.5 or 100.5. |
| `Station.IssAccepted` | ex0/space_station.py:22-30 | The demonstration station is accepted and operational by default. |
| `Station.OvercrewedRejected` | ex0/space_station.py:41-49 | A crew of 30 is rejected, and any crew size in 1..20 would make the same input valid. |
| `Contact.FieldsValid` | ex1/alien_contact.py:16-24 | The declared bounds hold exactly when: id length 5..15, location 3..100, signal in [0.0, 10.0], duration 1..1440, witnesses 1..100, and a message, when present, at most 500 long. |
| `Contact.BusinessRules` | ex1/alien_contact.py:26-41 | No message exactly when the id starts with "AC", a physical contact is verified, a telepathic one has at least 3 witnesses, and a signal above 7.0 has a non-empty message. |
| `Contact.BusinessRulesInOrder` | ex1/alien_contact.py:26-41 | The validator's result is the first failing rule of the list ID, physical, telepathic, signal. |
| `Contact.ContactMessagesDistinct` | ex1/alien_contact.py:28-40 | The four messages are pairwise different. |
| `Contact.ReportedRuleIsFirstFailure` | ex1/alien_contact.py:26-41 | A reported message names a failing rule, and every rule before it passed. |
| `Contact.IdCheckedFirst` | ex1/alien_contact.py:28-29 | A wrong prefix is reported whatever else is wrong. |
| `Contact.PhysicalNeedsVerification` | ex1/alien_contact.py:30-31 | An unverified physical contact with a correct prefix gets the physical message. |
| `Contact.TelepathicNeedsWitnesses` | ex1/alien_contact.py:32-37 | A telepathic contact with fewer than 3 witnesses and a correct prefix gets the telepathic message. |
| `Contact.StrongSignalNeedsMessage` | ex1/alien_contact.py:38-40 | The signal message is reported exactly when the earlier rules pass, the signal exceeds 7.0, and the message is None or empty. |
| `Contact.WeakSignalNeedsNoMessage` | ex1/alien_contact.py:38 | A signal of at most 7.0, including exactly 7.0, never draws the signal message. |
| `Contact.WithDefaults` | ex1/alien_contact.py:15-24 | An omitted `is_verified` becomes false and an omitted message is None. Every other field keeps the input's value. |
| `Contact.CreateContact` | ex1/alien_contact.py:15-41 | Rejected on fields exactly when a bound fails: id 5..15, location 3..100, signal in [0, 10], duration 1..1440, witnesses 1..100, message at most 500. Otherwise the business rules decide, and an accepted contact is the defaulted input, so it carries every input value. |
| `Contact.CreateContactIdempotent` | ex1/alien_contact.py:15-41 | Re-validating an accepted contact's own values yields the same contact. |
| `Contact.RadioAccepted` | ex1/alien_contact.py:60-70 | The demonstration radio contact is accepted. |
| `Contact.RadioWithoutMessageRejected` | ex1/alien_contact.py:38-40 | The same 8.5-strength contact without its message is rejected with the signal message. |
| `Contact.TelepathicRejected` | ex1/alien_contact.py:76-85 | The single-witness telepathic contact passes the field checks and gets the telepathic message. |
| `Crew.MemberFieldsValid` | ex2/space_crew.py:17-22 | The declared bounds hold exactly when: id length 3..10, name 2..50, age 18..80, specialization 3..30, experience 0..50. |
| `Crew.MissionFieldsValid` | ex2/space_crew.py:27-34 | The declared bounds hold exactly when: id length 5..15, name 3..100, destination 3..50, duration 1..3650, crew of 1..12 members each meeting its own bounds, budget in [1.0, 10000.0]. |
| `Crew.MemberWithDefaults` | ex2/space_crew.py:16-23 | An omitted `is_active` becomes true. Every other field keeps the input's value. |
| `Crew.CreateMember` | ex2/space_crew.py:16-23 | Accepted exactly when id 3..10, name 2..50, age 18..80, specialization 3..30 and experience 0..50 all hold. The accepted member is the defaulted input, so it carries every input value. |
| `Crew.MissionWithDefaults` | ex2/space_crew.py:26-34 | An omitted `mission_status` becomes "planned". Every other field, the crew included, keeps the input's value. |
| `Crew.ExperiencedCount` | ex2/space_crew.py:50-53 | The count never exceeds the crew size. It equals the size exactly when everyone has at least 5 years, and is 0 exactly when nobody has. |
| `Crew.HasLeader` | ex2/space_crew.py:41-47 | Holds exactly when some member of the crew has rank captain or commander. |
| `Crew.ExperienceRule` | ex2/space_crew.py:49-56 | The true-division test `count < len(crew) / 2` passes exactly when the mission lasts at most 365 days or twice the experienced count reaches the crew size. |
| `Crew.AllActive` | ex2/space_crew.py:58-63 | Holds exactly when every member of the crew is active. |
| `Crew.MissionVerdict` | ex2/space_crew.py:36-65 | No message exactly when the ID, leader, experience and active rules all hold. |
| `Crew.ScanForLeader` | ex2/space_crew.py:41-44 | The `has_leader` flag loop ends true exactly when some crew member is a captain or commander. |
| `Crew.CountExperienced` | ex2/space_crew.py:50-53 | The `exprienced` counter loop ends equal to the number of members with at least 5 years. |
| `Crew.ScanAllActive` | ex2/space_crew.py:58-61 | The `all_active` flag loop ends true exactly when every crew member is active. |
| `Crew.ValidateMissionRules` | ex2/space_crew.py:36-65 | Returns the first failing rule's message in the order ID, leader, experience (checked only past 365 days), active, or None when all four pass. |
| `Crew.MissionOutcome` | ex2/space_crew.py:26-36 | Rejected on fields exactly when a mission bound fails: id 5..15, name 3..100, destination 3..50, duration 1..3650, crew 1..12 valid members, budget in [1, 10000]. Otherwise the mission rules decide. An accepted mission is the defaulted input, so it carries every input value. |
| `Crew.CreateMission` | ex2/space_crew.py:26-65 | Constructing a mission, running the validator's loops, yields `MissionOutcome`. |
| `Crew.IdCheckedFirst` | ex2/space_crew.py:38-39 | A wrong prefix is reported whatever else is wrong. |
| `Crew.MissingLeaderReported` | ex2/space_crew.py:41-47 | With a correct prefix and no captain or commander, the leader message is reported. |
| `Crew.ShortMissionSkipsExperience` | ex2/space_crew.py:49 | A mission of at most 365 days never gets the experience message. |
| `Crew.ExperienceShortfallReported` | ex2/space_crew.py:49-56 | With prefix and leader right, a long mission short of experience gets the experience message. |
| `Crew.OddCrewFlooredHalfNotEnough` | ex2/space_crew.py:55 | With an odd crew, an experienced count equal to the floored half fails the rule under true division, though it is not below the floored half. |
| `Crew.InactiveMemberReported` | ex2/space_crew.py:58-63 | Once the earlier rules pass, one inactive member draws the active message. |
| `Crew.MissionMessagesDistinct` | ex2/space_crew.py:39-63 | The four mission messages are pairwise different. |
| `Crew.ReportedRuleIsFirstFailure` | ex2/space_crew.py:36-65 | A reported message names a failing rule, and every rule checked before it passed. |
| `Crew.MissionOutcomeIdempotent` | ex2/space_crew.py:26-34 | Re-validating an accepted mission's own values yields the same mission. |
| `Crew.DemonstrationMembersValid` | ex2/space_crew.py:94-144 | The four demonstration crew members meet their field bounds. |
| `Crew.MarsAccepted` | ex2/space_crew.py:86-122 | The 900-day Mars mission has 3 experienced members and is accepted with status "planned". |
| `Crew.CadetRejected` | ex2/space_crew.py:128-146 | The one-cadet mission passes the field checks and gets the leader message. |
| `Crew.LongMissionFewVeteransRejected` | ex2/space_crew.py:49-56 | A 900-day mission with 1 experienced member out of 3 gets the experience message (1 < 1.5). |

## Left out

- Field error reporting is not modelled: which fields failed, in what order, and with what messages. A field failure is modelled only as `FieldsRejected`. The "Value error, " prefix added to rule messages is not modelled either.
- Coercion of raw values is not modelled: enum lookup from strings, numeric parsing, and parsing the ISO date-time strings (`last_maintenance`, `timestamp`, `launch_date`). The date-time fields are opaque `DateTime` values that no rule inspects.
- Floating-point rounding is not modelled. The float fields are `real`, and every rule and bound only compares them with constants.
- Crew members are validated when they are constructed (`CreateMember`). A mission receives them as validated records, so `MissionFieldsValid` states their validity rather than re-checking raw input.
- The printing helpers (`print_mission`, `print_contact`) and each file's `main` are console output only.
