/** The Part document: its status enumeration and defaults, the authenticity
    record, the inspection log and the `daysUntilInspection` virtual. */
module PartModel {
  import opened Common

  datatype PartStatus = Authentic | Counterfeit | Pending | Retired

  function StatusName(s: PartStatus): string {
    match s
    case Authentic => "authentic"
    case Counterfeit => "counterfeit"
    case Pending => "pending"
    case Retired => "retired"
  }

  /** The schema's enumeration check: the status a string names, if any. */
  function ParseStatus(name: string): (s: Option<PartStatus>)
    ensures s.Some? ==> StatusName(s.value) == name
  {
    if name == "authentic" then Some(Authentic)
    else if name == "counterfeit" then Some(Counterfeit)
    else if name == "pending" then Some(Pending)
    else if name == "retired" then Some(Retired)
    else None
  }

  lemma ParseStatusName(s: PartStatus)
    ensures ParseStatus(StatusName(s)) == Some(s)
  {
  }

  /** The schema default for a status the request leaves out. */
  function StatusOrDefault(s: Option<PartStatus>): (r: PartStatus)
    ensures s.None? ==> r == Pending
    ensures s.Some? ==> r == s.value
  {
    if s.Some? then s.value else Pending
  }

  /** One entry of `lifecycle.inspections`. */
  datatype Inspection = Inspection(date: Time, kind: Option<string>, result: Option<string>, mechanic: Option<Id>)

  /** What a Mongoose array holds. An element declaration with a `type` key
      declares an array of that type, here `String`, and its other keys become
      options of it; an element declaration without one declares an array of
      subdocuments. */
  datatype ElementKind = StringElements | SubdocumentElements

  function ElementKindOf(keys: seq<string>): (kind: ElementKind)
    ensures kind == StringElements <==> "type" in keys
  {
    if "type" in keys then StringElements else SubdocumentElements
  }

  /** The keys of the `lifecycle.inspections` element declaration. */
  const InspectionKeys: seq<string> := ["date", "type", "result", "mechanic"]

  /** The cast error a string array raises for an object. */
  const InspectionCastError := "Cast to string failed"

  /** Pushing an inspection object: an array of strings cannot cast it and
      rejects the push, an array of subdocuments appends it. */
  function PushInspection(p: Part, elements: ElementKind, i: Inspection): (r: Option<Part>)
    ensures r.None? <==> elements == StringElements
    ensures r.Some? ==> r.value.inspections == p.inspections + [i] && r.value == p.(inspections := r.value.inspections)
  {
    if elements == StringElements then None else Some(p.(inspections := p.inspections + [i]))
  }

  /** As declared, `lifecycle.inspections` is an array of strings, so every
      push of an inspection object fails, whatever the part. */
  lemma DeclaredInspectionsRejectEveryPush(p: Part, i: Inspection)
    ensures ElementKindOf(InspectionKeys) == StringElements
    ensures PushInspection(p, ElementKindOf(InspectionKeys), i) == None
  {
    assert InspectionKeys[1] == "type";
  }

  /** The `lifecycle.manufactured` sub-record. */
  datatype Manufactured = Manufactured(date: Time, facility: Option<string>, batchNumber: Option<string>)

  /** The `authenticity` sub-record. */
  datatype Authenticity = Authenticity(
    verified: bool,
    verificationDate: Option<Time>,
    verificationMethod: Option<string>,
    blockchainProof: Option<string>)

  /** The authenticity record of a part nobody has verified yet. */
  const Unverified: Authenticity := Authenticity(false, None, None, None)

  datatype Part = Part(
    partNumber: string,
    name: string,
    manufacturer: string,
    serialNumber: string,
    aircraft: Id,
    installDate: Time,
    status: PartStatus,
    location: string,
    blockchainHash: string,
    qrCode: Option<string>,
    nextInspection: Time,
    manufactured: Manufactured,
    inspections: seq<Inspection>,
    authenticity: Authenticity)

  /** The `daysUntilInspection` virtual: whole days, rounded up, from `now`
      to the next inspection; negative exactly when the inspection is at
      least one full day past. */
  function DaysUntilInspection(p: Part, now: Time): (days: int)
    ensures days < 0 <==> p.nextInspection - now <= -DAY
    ensures (days - 1) * DAY < p.nextInspection - now <= days * DAY
  {
    DaysCeil(p.nextInspection - now)
  }

  /** The ids of the stored parts having status `s`. */
  function WithStatus(parts: map<Id, Part>, s: PartStatus): (ids: set<Id>)
    ensures ids <= parts.Keys
    ensures forall k :: k in ids <==> k in parts && parts[k].status == s
  {
    set k | k in parts && parts[k].status == s
  }
}
