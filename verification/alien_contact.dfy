/**
 * An alien-contact log entry (ex1/alien_contact.py): field bounds, defaults
 * and four business rules checked in a fixed order.
 */
module Contact {
  import opened Wrappers
  import opened Text
  import opened Validation

  datatype ContactType = Radio | Visual | Physical | Telepathic

  datatype AlienContact = AlienContact(
    contactId: string,
    timestamp: DateTime,
    location: string,
    contactType: ContactType,
    signalStrength: real,
    durationMinutes: int,
    witnessCount: int,
    messageReceived: Option<string>,
    isVerified: bool)

  /** Construction values; a left-out `is_verified` is `None`, a left-out message is `None`. */
  datatype ContactInput = ContactInput(
    contactId: string,
    timestamp: DateTime,
    location: string,
    contactType: ContactType,
    signalStrength: real,
    durationMinutes: int,
    witnessCount: int,
    messageReceived: Option<string>,
    isVerified: Option<bool>)

  /** The record's `Field(...)` declarations, in declaration order. */
  function Declared(c: AlienContact): seq<Field> {
    [ Field("contact_id", Str(c.contactId), Length(5, 15)),
      Field("location", Str(c.location), Length(3, 100)),
      Field("signal_strength", Num(c.signalStrength), RealBetween(0.0, 10.0)),
      Field("duration_minutes", Int(c.durationMinutes), IntBetween(1, 1440)),
      Field("witness_count", Int(c.witnessCount), IntBetween(1, 100)),
      Field("message_received", OptStr(c.messageReceived), OptionalMaxLength(500)) ]
  }

  /** Every declared field of the contact meets its bounds. */
  function FieldsValid(c: AlienContact): (r: bool)
    ensures r <==>
      && 5 <= |c.contactId| <= 15
      && 3 <= |c.location| <= 100
      && 0.0 <= c.signalStrength <= 10.0
      && 1 <= c.durationMinutes <= 1440
      && 1 <= c.witnessCount <= 100
      && (c.messageReceived.Some? ==> |c.messageReceived.value| <= 500)
  {
    var f := Declared(c);
    assert AllSatisfied(f) <==>
      && Satisfies(f[0].value, f[0].constraint) && Satisfies(f[1].value, f[1].constraint)
      && Satisfies(f[2].value, f[2].constraint) && Satisfies(f[3].value, f[3].constraint)
      && Satisfies(f[4].value, f[4].constraint) && Satisfies(f[5].value, f[5].constraint);
    AllSatisfied(f)
  }

  const IdMessage := "Contact ID must start with \"AC\" (Alien Contact)"
  const PhysicalMessage := "Physical contact reports must be verified"
  const TelepathicMessage := "Telepathic contact requires at least 3 witnesses"
  const SignalMessage := "Strong signals (> 7.0) should include received messages"

  /** The business rules as the `@model_validator` hook runs them, first failure raised. */
  function BusinessRules(c: AlienContact): (r: Option<string>)
    ensures r.None? <==>
      && StartsWith(c.contactId, "AC")
      && (c.contactType == Physical ==> c.isVerified)
      && (c.contactType == Telepathic ==> c.witnessCount >= 3)
      && (c.signalStrength > 7.0 ==> Truthy(c.messageReceived))
  {
    if !StartsWith(c.contactId, "AC") then Some(IdMessage)
    else if c.contactType == Physical && !c.isVerified then Some(PhysicalMessage)
    else if c.contactType == Telepathic && c.witnessCount < 3 then Some(TelepathicMessage)
    else if c.signalStrength > 7.0 && !Truthy(c.messageReceived) then Some(SignalMessage)
    else None
  }

  predicate IdRule(c: AlienContact) { StartsWith(c.contactId, "AC") }
  predicate PhysicalRule(c: AlienContact) { c.contactType == Physical ==> c.isVerified }
  predicate TelepathicRule(c: AlienContact) { c.contactType == Telepathic ==> c.witnessCount >= 3 }
  predicate SignalRule(c: AlienContact) { c.signalStrength > 7.0 ==> Truthy(c.messageReceived) }

  /** The rules, each with its message, in the order they are declared. */
  const ContactRules: seq<Rule<AlienContact>> := [
    Rule(IdRule, IdMessage),
    Rule(PhysicalRule, PhysicalMessage),
    Rule(TelepathicRule, TelepathicMessage),
    Rule(SignalRule, SignalMessage)
  ]

  /** The validator reports exactly the first failing rule of the declared list. */
  lemma BusinessRulesInOrder(c: AlienContact)
    ensures BusinessRules(c) == FirstFailure(ContactRules, c)
  {
    if !IdRule(c) {
      FirstFailureAt(ContactRules, c, 0);
    } else if !PhysicalRule(c) {
      FirstFailureAt(ContactRules, c, 1);
    } else if !TelepathicRule(c) {
      FirstFailureAt(ContactRules, c, 2);
    } else if !SignalRule(c) {
      FirstFailureAt(ContactRules, c, 3);
    }
  }

  /** The four messages are distinct, so a message names its rule. */
  lemma ContactMessagesDistinct()
    ensures DistinctMessages(ContactRules)
  {
  }

  /** A reported message means its rule failed and every earlier rule passed. */
  lemma ReportedRuleIsFirstFailure(c: AlienContact, k: nat)
    requires k < |ContactRules|
    requires BusinessRules(c) == Some(ContactRules[k].message)
    ensures !ContactRules[k].holds(c)
    ensures forall j :: 0 <= j < k ==> ContactRules[j].holds(c)
  {
  }

  /** A wrong prefix is reported first, whatever else is wrong. */
  lemma IdCheckedFirst(c: AlienContact)
    requires !StartsWith(c.contactId, "AC")
    ensures BusinessRules(c) == Some(IdMessage)
  {
  }

  /** An unverified physical contact is reported once the prefix is right. */
  lemma PhysicalNeedsVerification(c: AlienContact)
    requires StartsWith(c.contactId, "AC")
    requires c.contactType == Physical && !c.isVerified
    ensures BusinessRules(c) == Some(PhysicalMessage)
  {
  }

  /** A telepathic contact with fewer than 3 witnesses is reported once the prefix is right. */
  lemma TelepathicNeedsWitnesses(c: AlienContact)
    requires StartsWith(c.contactId, "AC")
    requires c.contactType == Telepathic && c.witnessCount < 3
    ensures BusinessRules(c) == Some(TelepathicMessage)
  {
  }

  /**
   * The strong-signal message is reported exactly when the earlier rules pass,
   * the signal is strictly above 7.0 and the message is missing or empty.
   */
  lemma StrongSignalNeedsMessage(c: AlienContact)
    ensures BusinessRules(c) == Some(SignalMessage) <==>
      && IdRule(c) && PhysicalRule(c) && TelepathicRule(c)
      && c.signalStrength > 7.0 && (c.messageReceived.None? || c.messageReceived == Some(""))
  {
  }

  /** A signal of at most 7.0, exactly 7.0 included, never needs a message. */
  lemma WeakSignalNeedsNoMessage(c: AlienContact)
    requires c.signalStrength <= 7.0
    ensures BusinessRules(c) != Some(SignalMessage)
  {
  }

  /** The record the input describes once the declared defaults fill the gaps. */
  function WithDefaults(input: ContactInput): (c: AlienContact)
    ensures input.isVerified.None? ==> !c.isVerified
    ensures input.isVerified.Some? ==> c.isVerified == input.isVerified.value
    ensures c.messageReceived == input.messageReceived
    ensures AsInput(c) == input.(isVerified := Some(c.isVerified))
  {
    AlienContact(input.contactId, input.timestamp, input.location, input.contactType,
                 input.signalStrength, input.durationMinutes, input.witnessCount,
                 input.messageReceived, input.isVerified.GetOr(false))
  }

  /** Constructing a contact: defaults, then field checks, then the business rules. */
  function CreateContact(input: ContactInput): (r: Outcome<AlienContact>)
    ensures r.FieldsRejected? <==> !FieldsValid(WithDefaults(input))
    ensures r.Accepted? <==> FieldsValid(WithDefaults(input)) && BusinessRules(WithDefaults(input)).None?
    ensures r.Accepted? ==> r.value == WithDefaults(input)
    ensures r.RuleRejected? ==> FieldsValid(WithDefaults(input)) && BusinessRules(WithDefaults(input)) == Some(r.message)
  {
    Validate(FieldsValid, BusinessRules, WithDefaults(input))
  }

  /** The input that spells out every field of an existing contact. */
  function AsInput(c: AlienContact): ContactInput {
    ContactInput(c.contactId, c.timestamp, c.location, c.contactType, c.signalStrength,
                 c.durationMinutes, c.witnessCount, c.messageReceived, Some(c.isVerified))
  }

  /** Re-validating an accepted contact from its own field values accepts the same contact. */
  lemma CreateContactIdempotent(input: ContactInput)
    requires CreateContact(input).Accepted?
    ensures CreateContact(AsInput(CreateContact(input).value)) == CreateContact(input)
  {
  }

  /** The radio contact of the demonstration. */
  const RadioInput := ContactInput("AC_2024_001", DateTime("2026-02-06T12:30:00"),
    "Area 51, Nevada", Radio, 8.5, 45, 5, Some("Greetings from Zeta Reticuli"), Some(false))

  /** The telepathic contact of the demonstration, with a single witness. */
  const TelepathicInput := ContactInput("AC_2024_002", DateTime("2026-02-06T13:00:00"),
    "Desert Zone", Telepathic, 5.0, 30, 1, None, Some(false))

  /** The radio contact is accepted: its strong signal carries a message. */
  lemma RadioAccepted()
    ensures CreateContact(RadioInput) == Accepted(WithDefaults(RadioInput))
  {
  }

  /** Without its message the same strong radio signal is rejected. */
  lemma RadioWithoutMessageRejected()
    ensures CreateContact(RadioInput.(messageReceived := None)) == RuleRejected(SignalMessage)
  {
  }

  /** The single-witness telepathic contact passes the field checks and fails the witness rule. */
  lemma TelepathicRejected()
    ensures CreateContact(TelepathicInput) == RuleRejected(TelepathicMessage)
  {
  }
}
