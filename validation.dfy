/** The request-body rules checked before the create/update handlers run
    (the four rule sets of the validation middleware), the 400 response they
    produce, and the typed request a body that passes stands for. Bodies are
    given field by field, `None` for a field the request leaves out. */
module Validation {
  import opened Common
  import AircraftModel
  import PartModel
  import MaintenanceModel
  import MechanicModel

  datatype Rule = Required | Empty | NotInteger | Below(min: real) | Above(max: real) | NotAllowed | NotEmail | TooShort(minLength: nat)

  /** One field-level failure; `field` names the path of the offending key. */
  datatype Violation = Violation(field: string, rule: Rule)

  /** What the middleware does: pass control on, or answer 400 with the
      message "Validation error" and one detail per failed rule. */
  datatype Outcome = Next | Rejected(code: int, error: string, details: seq<Violation>)

  function Gate(violations: seq<Violation>): (o: Outcome)
    ensures o.Next? <==> violations == []
    ensures o.Rejected? ==> o.code == 400 && o.error == "Validation error" && o.details == violations
  {
    if violations == [] then Next else Rejected(400, "Validation error", violations)
  }

  // ---- single-field rules ----

  /** `Joi.string().required()`: present and not the empty string. */
  predicate FilledIn(v: Option<string>) {
    v.Some? && v.value != ""
  }

  function RequiredString(field: string, v: Option<string>): (r: seq<Violation>)
    ensures r == [] <==> FilledIn(v)
  {
    if v.None? then [Violation(field, Required)]
    else if v.value == "" then [Violation(field, Empty)]
    else []
  }

  /** An optional string, when given, must not be empty. */
  function OptionalString(field: string, v: Option<string>): (r: seq<Violation>)
    ensures r == [] <==> (v.Some? ==> v.value != "")
  {
    if v.Some? && v.value == "" then [Violation(field, Empty)] else []
  }

  function RequiredPresent<T>(field: string, v: Option<T>): (r: seq<Violation>)
    ensures r == [] <==> v.Some?
  {
    if v.None? then [Violation(field, Required)] else []
  }

  /** `Joi.number().min(lo)`, required or not. */
  function AtLeast(field: string, v: Option<real>, lo: real, required: bool): (r: seq<Violation>)
    ensures r == [] <==> (if v.None? then !required else lo <= v.value)
  {
    if v.None? then (if required then [Violation(field, Required)] else [])
    else if v.value < lo then [Violation(field, Below(lo))]
    else []
  }

  /** `valid(...)` on an optional string: when given it must be one of `allowed`. */
  function OneOf(field: string, v: Option<string>, allowed: set<string>, required: bool): (r: seq<Violation>)
    ensures r == [] <==> (if v.None? then !required else v.value in allowed)
  {
    if v.None? then (if required then [Violation(field, Required)] else [])
    else if v.value !in allowed then [Violation(field, NotAllowed)]
    else []
  }

  predicate IsInteger(x: real) {
    x.Floor as real == x
  }

  // ---- aircraft ----

  datatype AircraftBody = AircraftBody(
    registration: Option<string>,
    model: Option<string>,
    manufacturer: Option<string>,
    yearBuilt: Option<real>,
    flightHours: Option<real>,
    lastMaintenance: Option<Time>,
    nextMaintenance: Option<Time>,
    location: Option<string>,
    status: Option<string>)

  const AircraftStatusNames: set<string> := {"compliant", "alert", "overdue", "grounded"}

  /** The aircraft rules: three required strings, an integer build year from
      1900 to the current year, non-negative flight hours, a next-maintenance
      date, a location, and a status among the four names. */
  predicate AircraftRulesHold(b: AircraftBody, currentYear: int) {
    && FilledIn(b.registration) && FilledIn(b.model) && FilledIn(b.manufacturer)
    && b.yearBuilt.Some? && IsInteger(b.yearBuilt.value)
    && 1900.0 <= b.yearBuilt.value <= currentYear as real
    && (b.flightHours.Some? ==> 0.0 <= b.flightHours.value)
    && b.nextMaintenance.Some?
    && FilledIn(b.location)
    && (b.status.Some? ==> b.status.value in AircraftStatusNames)
  }

  function YearViolations(v: Option<real>, currentYear: int): (r: seq<Violation>)
    ensures r == [] <==> (v.Some? && IsInteger(v.value) && 1900.0 <= v.value <= currentYear as real)
  {
    if v.None? then [Violation("yearBuilt", Required)]
    else
      (if IsInteger(v.value) then [] else [Violation("yearBuilt", NotInteger)])
      + (if v.value < 1900.0 then [Violation("yearBuilt", Below(1900.0))] else [])
      + (if v.value > currentYear as real then [Violation("yearBuilt", Above(currentYear as real))] else [])
  }

  function AircraftViolations(b: AircraftBody, currentYear: int): (r: seq<Violation>)
    ensures r == [] <==> AircraftRulesHold(b, currentYear)
  {
    RequiredString("registration", b.registration)
    + RequiredString("model", b.model)
    + RequiredString("manufacturer", b.manufacturer)
    + YearViolations(b.yearBuilt, currentYear)
    + AtLeast("flightHours", b.flightHours, 0.0, false)
    + RequiredPresent("nextMaintenance", b.nextMaintenance)
    + RequiredString("location", b.location)
    + OneOf("status", b.status, AircraftStatusNames, false)
  }

  /** The accepted status names are exactly the names of the schema's enumeration. */
  lemma AircraftStatusNamesMatchSchema(name: string)
    ensures name in AircraftStatusNames <==> AircraftModel.ParseStatus(name).Some?
  {
  }

  /** `validateAircraft`. */
  function ValidateAircraft(b: AircraftBody, currentYear: int): (o: Outcome)
    ensures o.Next? <==> AircraftRulesHold(b, currentYear)
    ensures o.Rejected? ==> o.code == 400 && o.error == "Validation error" && o.details != []
  {
    Gate(AircraftViolations(b, currentYear))
  }

  /** An aircraft request once it has passed validation. The middleware
      discards the defaults its rule set would fill in, so omitted optional
      fields stay omitted; the schema supplies its defaults when a record is
      created. */
  datatype AircraftRequest = AircraftRequest(
    registration: string,
    model: string,
    manufacturer: string,
    yearBuilt: int,
    flightHours: Option<real>,
    lastMaintenance: Option<Time>,
    nextMaintenance: Time,
    location: string,
    status: Option<AircraftModel.AircraftStatus>)

  function AircraftRequestOf(b: AircraftBody, currentYear: int): (r: AircraftRequest)
    requires AircraftRulesHold(b, currentYear)
    ensures r.registration == b.registration.value && r.model == b.model.value
    ensures r.manufacturer == b.manufacturer.value && r.location == b.location.value
    ensures r.lastMaintenance == b.lastMaintenance && r.nextMaintenance == b.nextMaintenance.value
    ensures 1900 <= r.yearBuilt <= currentYear && r.yearBuilt as real == b.yearBuilt.value
    ensures r.flightHours == b.flightHours && (r.flightHours.Some? ==> 0.0 <= r.flightHours.value)
    ensures b.status.Some? <==> r.status.Some?
    ensures r.status.Some? ==> AircraftModel.StatusName(r.status.value) == b.status.value
  {
    AircraftRequest(
      b.registration.value, b.model.value, b.manufacturer.value, b.yearBuilt.value.Floor, b.flightHours,
      b.lastMaintenance, b.nextMaintenance.value, b.location.value,
      if b.status.Some? then AircraftModel.ParseStatus(b.status.value) else None)
  }

  // ---- part ----

  datatype PartBody = PartBody(
    partNumber: Option<string>,
    name: Option<string>,
    manufacturer: Option<string>,
    serialNumber: Option<string>,
    aircraft: Option<Id>,
    installDate: Option<Time>,
    location: Option<string>,
    nextInspection: Option<Time>,
    status: Option<string>)

  const PartStatusNames: set<string> := {"authentic", "counterfeit", "pending", "retired"}

  predicate PartRulesHold(b: PartBody) {
    && FilledIn(b.partNumber) && FilledIn(b.name) && FilledIn(b.manufacturer) && FilledIn(b.serialNumber)
    && b.aircraft.Some? && b.installDate.Some? && FilledIn(b.location) && b.nextInspection.Some?
    && (b.status.Some? ==> b.status.value in PartStatusNames)
  }

  function PartViolations(b: PartBody): (r: seq<Violation>)
    ensures r == [] <==> PartRulesHold(b)
  {
    RequiredString("partNumber", b.partNumber)
    + RequiredString("name", b.name)
    + RequiredString("manufacturer", b.manufacturer)
    + RequiredString("serialNumber", b.serialNumber)
    + RequiredPresent("aircraft", b.aircraft)
    + RequiredPresent("installDate", b.installDate)
    + RequiredString("location", b.location)
    + RequiredPresent("nextInspection", b.nextInspection)
    + OneOf("status", b.status, PartStatusNames, false)
  }

  lemma PartStatusNamesMatchSchema(name: string)
    ensures name in PartStatusNames <==> PartModel.ParseStatus(name).Some?
  {
  }

  /** `validatePart`. */
  function ValidatePart(b: PartBody): (o: Outcome)
    ensures o.Next? <==> PartRulesHold(b)
    ensures o.Rejected? ==> o.code == 400 && o.error == "Validation error" && o.details != []
  {
    Gate(PartViolations(b))
  }

  datatype PartRequest = PartRequest(
    partNumber: string,
    name: string,
    manufacturer: string,
    serialNumber: string,
    aircraft: Id,
    installDate: Time,
    location: string,
    nextInspection: Time,
    status: Option<PartModel.PartStatus>)

  function PartRequestOf(b: PartBody): (r: PartRequest)
    requires PartRulesHold(b)
    ensures r.partNumber == b.partNumber.value && r.name == b.name.value && r.manufacturer == b.manufacturer.value
    ensures r.aircraft == b.aircraft.value && r.serialNumber == b.serialNumber.value
    ensures r.installDate == b.installDate.value && r.location == b.location.value
    ensures r.nextInspection == b.nextInspection.value
    ensures b.status.Some? <==> r.status.Some?
    ensures r.status.Some? ==> PartModel.StatusName(r.status.value) == b.status.value
  {
    PartRequest(
      b.partNumber.value, b.name.value, b.manufacturer.value, b.serialNumber.value, b.aircraft.value,
      b.installDate.value, b.location.value, b.nextInspection.value,
      if b.status.Some? then PartModel.ParseStatus(b.status.value) else None)
  }

  // ---- maintenance ----

  datatype ChecklistEntryBody = ChecklistEntryBody(task: Option<string>, completed: Option<bool>)

  datatype MaintenanceBody = MaintenanceBody(
    aircraft: Option<Id>,
    kind: Option<string>,
    description: Option<string>,
    priority: Option<string>,
    assignedTo: Option<Id>,
    scheduledDate: Option<Time>,
    dueDate: Option<Time>,
    estimatedHours: Option<real>,
    checklist: Option<seq<ChecklistEntryBody>>)

  const WorkTypeNames: set<string> := {
    "Scheduled Inspection", "Engine Service", "Avionics Check", "Landing Gear Service",
    "Hydraulic Service", "Emergency Repair", "Compliance Check", "Parts Replacement"
  }

  const PriorityNames: set<string> := {"low", "medium", "high", "critical"}

  predicate ChecklistRulesHold(items: seq<ChecklistEntryBody>) {
    forall i :: 0 <= i < |items| ==> FilledIn(items[i].task)
  }

  function ChecklistViolations(items: seq<ChecklistEntryBody>): (r: seq<Violation>)
    ensures r == [] <==> ChecklistRulesHold(items)
  {
    if |items| == 0 then []
    else
      var rest := items[1..];
      assert ChecklistRulesHold(items) <==> FilledIn(items[0].task) && ChecklistRulesHold(rest) by {
        if FilledIn(items[0].task) && ChecklistRulesHold(rest) {
          forall i | 0 <= i < |items| ensures FilledIn(items[i].task) {
            if i > 0 { assert items[i] == rest[i - 1]; }
          }
        }
      }
      RequiredString("checklist.task", items[0].task) + ChecklistViolations(rest)
  }

  predicate MaintenanceRulesHold(b: MaintenanceBody) {
    && b.aircraft.Some?
    && b.kind.Some? && b.kind.value in WorkTypeNames
    && FilledIn(b.description)
    && (b.priority.Some? ==> b.priority.value in PriorityNames)
    && b.assignedTo.Some? && b.scheduledDate.Some? && b.dueDate.Some?
    && b.estimatedHours.Some? && 0.0 <= b.estimatedHours.value
    && (b.checklist.Some? ==> ChecklistRulesHold(b.checklist.value))
  }

  function MaintenanceViolations(b: MaintenanceBody): (r: seq<Violation>)
    ensures r == [] <==> MaintenanceRulesHold(b)
  {
    RequiredPresent("aircraft", b.aircraft)
    + OneOf("type", b.kind, WorkTypeNames, true)
    + RequiredString("description", b.description)
    + OneOf("priority", b.priority, PriorityNames, false)
    + RequiredPresent("assignedTo", b.assignedTo)
    + RequiredPresent("scheduledDate", b.scheduledDate)
    + RequiredPresent("dueDate", b.dueDate)
    + AtLeast("estimatedHours", b.estimatedHours, 0.0, true)
    + (if b.checklist.Some? then ChecklistViolations(b.checklist.value) else [])
  }

  /** The accepted `type` values are exactly the eight names of the schema's enumeration. */
  lemma WorkTypeNamesMatchSchema(name: string)
    ensures name in WorkTypeNames <==> MaintenanceModel.ParseType(name).Some?
  {
  }

  lemma PriorityNamesMatchSchema(name: string)
    ensures name in PriorityNames <==> MaintenanceModel.ParsePriority(name).Some?
  {
  }

  /** `validateMaintenance`. */
  function ValidateMaintenance(b: MaintenanceBody): (o: Outcome)
    ensures o.Next? <==> MaintenanceRulesHold(b)
    ensures o.Rejected? ==> o.code == 400 && o.error == "Validation error" && o.details != []
  {
    Gate(MaintenanceViolations(b))
  }

  /** A work-order request once it has passed validation, with the schema's
      defaults (the same as the rule set's): priority medium, and every
      checklist entry not completed, with nobody and no time recorded. */
  datatype MaintenanceRequest = MaintenanceRequest(
    aircraft: Id,
    kind: MaintenanceModel.WorkType,
    description: string,
    priority: MaintenanceModel.Priority,
    assignedTo: Id,
    scheduledDate: Time,
    dueDate: Time,
    estimatedHours: real,
    checklist: seq<MaintenanceModel.ChecklistItem>)

  function ChecklistOf(items: seq<ChecklistEntryBody>): (c: seq<MaintenanceModel.ChecklistItem>)
    requires ChecklistRulesHold(items)
    ensures |c| == |items|
    ensures forall i :: 0 <= i < |items| ==>
              && c[i].task == items[i].task.value
              && c[i].completed == (items[i].completed == Some(true))
              && c[i].completedBy.None? && c[i].completedAt.None? && c[i].notes.None?
  {
    if |items| == 0 then []
    else
      [MaintenanceModel.ChecklistItem(items[0].task.value, items[0].completed == Some(true), None, None, None)]
      + ChecklistOf(items[1..])
  }

  function MaintenanceRequestOf(b: MaintenanceBody): (r: MaintenanceRequest)
    requires MaintenanceRulesHold(b)
    ensures r.aircraft == b.aircraft.value && r.assignedTo == b.assignedTo.value
    ensures r.description == b.description.value && r.estimatedHours == b.estimatedHours.value
    ensures r.scheduledDate == b.scheduledDate.value && r.dueDate == b.dueDate.value
    ensures MaintenanceModel.TypeName(r.kind) == b.kind.value
    ensures b.priority.None? ==> r.priority == MaintenanceModel.Medium
    ensures b.priority.Some? ==> MaintenanceModel.PriorityName(r.priority) == b.priority.value
    ensures b.checklist.None? ==> r.checklist == []
    ensures b.checklist.Some? ==> r.checklist == ChecklistOf(b.checklist.value)
  {
    var kind := MaintenanceModel.ParseType(b.kind.value);
    var priority := if b.priority.Some? then MaintenanceModel.ParsePriority(b.priority.value) else Some(MaintenanceModel.Medium);
    MaintenanceRequest(
      b.aircraft.value, kind.value, b.description.value, priority.value, b.assignedTo.value,
      b.scheduledDate.value, b.dueDate.value, b.estimatedHours.value,
      if b.checklist.Some? then ChecklistOf(b.checklist.value) else [])
  }

  // ---- mechanic ----

  datatype CertificationBody = CertificationBody(
    name: Option<string>,
    number: Option<string>,
    issuedBy: Option<string>,
    issuedDate: Option<Time>,
    expiryDate: Option<Time>,
    status: Option<string>)

  datatype MechanicBody = MechanicBody(
    employeeId: Option<string>,
    name: Option<string>,
    email: Option<string>,
    password: Option<string>,
    certifications: Option<seq<CertificationBody>>,
    specialties: Option<seq<string>>)

  const CertStatusNames: set<string> := {"active", "expired", "suspended"}

  /** The address shape accepted here: an '@' with something on each side. */
  predicate LooksLikeEmail(s: string) {
    exists i :: 0 < i < |s| - 1 && s[i] == '@'
  }

  predicate CertificationRulesHold(c: CertificationBody) {
    && FilledIn(c.name)
    && (c.number.Some? ==> c.number.value != "")
    && (c.issuedBy.Some? ==> c.issuedBy.value != "")
    && (c.status.Some? ==> c.status.value in CertStatusNames)
  }

  function CertificationViolations(c: CertificationBody): (r: seq<Violation>)
    ensures r == [] <==> CertificationRulesHold(c)
  {
    RequiredString("certifications.name", c.name)
    + OptionalString("certifications.number", c.number)
    + OptionalString("certifications.issuedBy", c.issuedBy)
    + OneOf("certifications.status", c.status, CertStatusNames, false)
  }

  predicate CertificationsRulesHold(cs: seq<CertificationBody>) {
    forall i :: 0 <= i < |cs| ==> CertificationRulesHold(cs[i])
  }

  function CertificationsViolations(cs: seq<CertificationBody>): (r: seq<Violation>)
    ensures r == [] <==> CertificationsRulesHold(cs)
  {
    if |cs| == 0 then []
    else
      var rest := cs[1..];
      assert CertificationsRulesHold(cs) <==> CertificationRulesHold(cs[0]) && CertificationsRulesHold(rest) by {
        if CertificationRulesHold(cs[0]) && CertificationsRulesHold(rest) {
          forall i | 0 <= i < |cs| ensures CertificationRulesHold(cs[i]) {
            if i > 0 { assert cs[i] == rest[i - 1]; }
          }
        }
      }
      CertificationViolations(cs[0]) + CertificationsViolations(rest)
  }

  predicate SpecialtiesRulesHold(ss: seq<string>) {
    forall i :: 0 <= i < |ss| ==> ss[i] != ""
  }

  function SpecialtiesViolations(ss: seq<string>): (r: seq<Violation>)
    ensures r == [] <==> SpecialtiesRulesHold(ss)
  {
    if |ss| == 0 then []
    else
      var rest := ss[1..];
      assert SpecialtiesRulesHold(ss) <==> ss[0] != "" && SpecialtiesRulesHold(rest) by {
        if ss[0] != "" && SpecialtiesRulesHold(rest) {
          forall i | 0 <= i < |ss| ensures ss[i] != "" {
            if i > 0 { assert ss[i] == rest[i - 1]; }
          }
        }
      }
      OptionalString("specialties", Some(ss[0])) + SpecialtiesViolations(rest)
  }

  /** The mechanic rules: employee id, name and an e-mail address required, a
      password of at least six characters, and well-formed certifications. */
  predicate MechanicRulesHold(b: MechanicBody) {
    && FilledIn(b.employeeId) && FilledIn(b.name)
    && FilledIn(b.email) && LooksLikeEmail(b.email.value)
    && FilledIn(b.password) && |b.password.value| >= 6
    && (b.certifications.Some? ==> CertificationsRulesHold(b.certifications.value))
    && (b.specialties.Some? ==> SpecialtiesRulesHold(b.specialties.value))
  }

  function EmailViolations(v: Option<string>): (r: seq<Violation>)
    ensures r == [] <==> FilledIn(v) && LooksLikeEmail(v.value)
  {
    if !FilledIn(v) then RequiredString("email", v)
    else if !LooksLikeEmail(v.value) then [Violation("email", NotEmail)]
    else []
  }

  function PasswordViolations(v: Option<string>): (r: seq<Violation>)
    ensures r == [] <==> FilledIn(v) && |v.value| >= 6
  {
    if !FilledIn(v) then RequiredString("password", v)
    else if |v.value| < 6 then [Violation("password", TooShort(6))]
    else []
  }

  function MechanicViolations(b: MechanicBody): (r: seq<Violation>)
    ensures r == [] <==> MechanicRulesHold(b)
  {
    RequiredString("employeeId", b.employeeId)
    + RequiredString("name", b.name)
    + EmailViolations(b.email)
    + PasswordViolations(b.password)
    + (if b.certifications.Some? then CertificationsViolations(b.certifications.value) else [])
    + (if b.specialties.Some? then SpecialtiesViolations(b.specialties.value) else [])
  }

  /** `validateMechanic`. */
  function ValidateMechanic(b: MechanicBody): (o: Outcome)
    ensures o.Next? <==> MechanicRulesHold(b)
    ensures o.Next? ==> |b.password.value| >= 6 && b.email.Some?
    ensures o.Rejected? ==> o.code == 400 && o.error == "Validation error" && o.details != []
  {
    Gate(MechanicViolations(b))
  }

  datatype MechanicRequest = MechanicRequest(
    employeeId: string,
    name: string,
    email: string,
    password: string,
    certifications: seq<MechanicModel.Certification>,
    specialties: seq<string>)

  function CertificationsOf(cs: seq<CertificationBody>): (r: seq<MechanicModel.Certification>)
    requires CertificationsRulesHold(cs)
    ensures |r| == |cs|
    ensures forall i :: 0 <= i < |cs| ==> r[i].name == cs[i].name.value && r[i].name != ""
    ensures forall i :: 0 <= i < |cs| ==>
              && r[i].number == cs[i].number && r[i].issuedBy == cs[i].issuedBy
              && r[i].issuedDate == cs[i].issuedDate && r[i].expiryDate == cs[i].expiryDate
    ensures forall i :: 0 <= i < |cs| ==> cs[i].status.None? ==> r[i].status == MechanicModel.Active
    ensures forall i :: 0 <= i < |cs| ==> cs[i].status.Some? ==> MechanicModel.CertStatusName(r[i].status) == cs[i].status.value
  {
    if |cs| == 0 then []
    else
      var c := cs[0];
      var status := if c.status.Some? then MechanicModel.ParseCertStatus(c.status.value).value else MechanicModel.Active;
      [MechanicModel.Certification(c.name.value, c.number, c.issuedBy, c.issuedDate, c.expiryDate, status)]
      + CertificationsOf(cs[1..])
  }

  function MechanicRequestOf(b: MechanicBody): (r: MechanicRequest)
    requires MechanicRulesHold(b)
    ensures r.employeeId == b.employeeId.value && r.name == b.name.value
    ensures r.email == b.email.value && r.password == b.password.value && |r.password| >= 6
    ensures forall i :: 0 <= i < |r.certifications| ==> r.certifications[i].name != ""
    ensures b.certifications.None? ==> r.certifications == []
    ensures b.certifications.Some? ==> r.certifications == CertificationsOf(b.certifications.value)
    ensures r.specialties == (if b.specialties.Some? then b.specialties.value else [])
  {
    MechanicRequest(
      b.employeeId.value, b.name.value, b.email.value, b.password.value,
      if b.certifications.Some? then CertificationsOf(b.certifications.value) else [],
      if b.specialties.Some? then b.specialties.value else [])
  }
}
