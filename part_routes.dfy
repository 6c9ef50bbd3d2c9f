/** The part endpoints: create, authenticity verification, inspections, the
    verification statistics and the QR scan. The random draw of the
    simulated verifier, the clock, SHA-256 and the QR encoder are parameters. */
module PartRoutes {
  import opened Common
  import opened BlockchainUtil
  import AircraftModel
  import PartModel
  import Validation
  import Analytics
  import opened Database
  import Router

  // ---- POST / ----

  /** The data hashed for a new part. */
  function PartHashData(partNumber: string, serialNumber: string, manufacturer: string, now: Time): string {
    JsonObject([("partNumber", Quoted(partNumber)), ("serialNumber", Quoted(serialNumber)),
                ("manufacturer", Quoted(manufacturer)), ("timestamp", IntString(now))])
  }

  /** `new Part({...req.body, blockchainHash, qrCode, lifecycle})`. The rule
      set admits no manufacturing fields, so the manufacturing date is always
      the clock reading and facility and batch are absent. */
  function NewPart(req: Validation.PartRequest, hash: string, qrCode: string, now: Time): (p: Part)
    ensures p.status == PartModel.StatusOrDefault(req.status)
    ensures !p.authenticity.verified && p.inspections == []
    ensures p.manufactured == PartModel.Manufactured(now, None, None)
    ensures p.aircraft == req.aircraft && p.blockchainHash == hash && p.qrCode == Some(qrCode)
  {
    PartModel.Part(
      req.partNumber, req.name, req.manufacturer, req.serialNumber, req.aircraft, req.installDate,
      PartModel.StatusOrDefault(req.status), req.location, hash, Some(qrCode), req.nextInspection,
      PartModel.Manufactured(now, None, None), [], PartModel.Unverified)
  }

  /** The hash a new part is registered under. */
  function NewPartHash(req: Validation.PartRequest, now: Time, sha256: string -> Digest): string {
    GenerateBlockchainHash(PartHashData(req.partNumber, req.serialNumber, req.manufacturer, now), now, sha256)
  }

  /** The aircraft after the new part's id is appended and it is saved again. */
  function WithPart(a: Aircraft, part: Id, now: Time): (u: Aircraft)
    ensures u.parts == a.parts + [part]
    ensures u == a.(parts := u.parts, status := AircraftModel.DerivedStatus(a.nextMaintenance, now))
  {
    AircraftModel.Saved(a.(parts := a.parts + [part]), now)
  }

  /** POST /api/parts. `accountsError` is the message of a rejected
      `web3.eth.getAccounts()`, which runs after both saves: the part and the
      aircraft's new parts list stay stored and the answer is a 400. */
  method Create(db: Store, body: Validation.PartBody, now: Time, sha256: string -> Digest, qrCode: string,
                accountsError: Option<string>)
    returns (r: Response<Part>)
    requires db.Valid()
    modifies db
    ensures db.Valid()
    ensures db.maintenance == old(db.maintenance) && db.mechanics == old(db.mechanics)
    ensures !Validation.PartRulesHold(body) ==>
              r == Fail(400, "Validation error") && db.parts == old(db.parts) && db.aircraft == old(db.aircraft)
    ensures Validation.PartRulesHold(body) && body.aircraft.value !in old(db.aircraft) ==>
              r == Fail(400, "Aircraft not found") && db.parts == old(db.parts) && db.aircraft == old(db.aircraft)
    ensures Validation.PartRulesHold(body) && body.aircraft.value in old(db.aircraft) ==>
              var req := Validation.PartRequestOf(body);
              var p := NewPart(req, NewPartHash(req, now, sha256), qrCode, now);
              if PartTaken(old(db.parts), old(db.nextId), p)
              then r == Fail(400, DuplicateKeyError) && db.parts == old(db.parts) && db.aircraft == old(db.aircraft)
              else
                && r == (if accountsError.Some? then Fail(400, accountsError.value) else Ok(201, p))
                && db.parts == old(db.parts)[old(db.nextId) := p]
                && db.aircraft == old(db.aircraft)[req.aircraft := WithPart(old(db.aircraft)[req.aircraft], old(db.nextId), now)]
  {
    var gate := Validation.ValidatePart(body);
    if gate.Rejected? {
      return Fail(400, gate.error);
    }
    var req := Validation.PartRequestOf(body);
    if req.aircraft !in db.aircraft {
      return Fail(400, "Aircraft not found");
    }
    var p := NewPart(req, NewPartHash(req, now, sha256), qrCode, now);
    if PartTaken(db.parts, db.nextId, p) {
      return Fail(400, DuplicateKeyError);
    }
    var id := db.InsertPart(p);
    var a := db.aircraft[req.aircraft];
    a := a.(parts := a.parts + [id]);
    a := AircraftModel.PreSave(a, now);
    ReplaceAircraft(db.aircraft, req.aircraft, a);
    db.SaveAircraft(req.aircraft, a);
    if accountsError.Some? {
      return Fail(400, accountsError.value);
    }
    r := Ok(201, p);
  }

  // ---- POST /:id/verify-authenticity ----

  datatype Verification = Verification(
    partId: Id,
    isAuthentic: bool,
    status: PartModel.PartStatus,
    verificationDate: Time,
    blockchainProof: string)

  /** The part after verification: authentic or counterfeit by the verifier's
      answer, and an authenticity record that names the blockchain as method
      and the part's own hash as proof. */
  function Verified(p: Part, authentic: bool, now: Time): (v: Part)
    ensures v.status == PartModel.Authentic <==> authentic
    ensures v.status == PartModel.Counterfeit <==> !authentic
    ensures v.authenticity.verified && v.authenticity.verificationDate == Some(now)
    ensures v.authenticity.verificationMethod == Some("blockchain")
    ensures v.authenticity.blockchainProof == Some(p.blockchainHash)
    ensures v == p.(status := v.status, authenticity := v.authenticity)
  {
    p.(status := if authentic then PartModel.Authentic else PartModel.Counterfeit,
       authenticity := PartModel.Authenticity(true, Some(now), Some("blockchain"), Some(p.blockchainHash)))
  }

  /** POST /api/parts/:id/verify-authenticity, with `draw` the verifier's random draw. */
  method VerifyAuthenticity(db: Store, id: Id, draw: real, now: Time) returns (r: Response<Verification>)
    requires db.Valid()
    modifies db
    ensures db.Valid()
    ensures db.aircraft == old(db.aircraft) && db.maintenance == old(db.maintenance) && db.mechanics == old(db.mechanics)
    ensures id !in old(db.parts) ==> r == Fail(404, "Part not found") && db.parts == old(db.parts)
    ensures id in old(db.parts) ==>
              var p := old(db.parts)[id];
              var authentic := VerifyPartAuthenticity(p.blockchainHash, p.serialNumber, draw);
              && r == Ok(200, Verification(id, authentic, Verified(p, authentic, now).status, now, p.blockchainHash))
              && db.parts == old(db.parts)[id := Verified(p, authentic, now)]
  {
    if id !in db.parts {
      return Fail(404, "Part not found");
    }
    var p := db.parts[id];
    var authentic := VerifyPartAuthenticity(p.blockchainHash, p.serialNumber, draw);
    var v := Verified(p, authentic, now);
    ReplacePart(db.parts, id, v);
    db.SavePart(id, v);
    r := Ok(200, Verification(id, authentic, v.status, now, p.blockchainHash));
  }

  /** A part whose hash is not 66 characters long, or whose serial number has
      at most five, is marked counterfeit whatever the draw. */
  lemma MalformedPartIsCounterfeit(p: Part, draw: real, now: Time)
    requires |p.blockchainHash| != 66 || |p.serialNumber| <= 5
    ensures Verified(p, VerifyPartAuthenticity(p.blockchainHash, p.serialNumber, draw), now).status
            == PartModel.Counterfeit
  {
  }

  // ---- POST /:id/add-inspection ----

  /** POST /api/parts/:id/add-inspection: append one inspection stamped with
      the clock reading. `elements` is what `lifecycle.inspections` holds: as
      declared, strings, which reject the object with a cast error (400,
      nothing saved); as evidently intended, inspection subdocuments. The
      inspection has no `notes` field, so the notes a request sends are
      dropped. */
  method AddInspection(db: Store, id: Id, elements: PartModel.ElementKind, kind: Option<string>, result: Option<string>,
                       mechanic: Option<Id>, notes: Option<string>, now: Time) returns (r: Response<Part>)
    requires db.Valid()
    modifies db
    ensures db.Valid()
    ensures db.aircraft == old(db.aircraft) && db.maintenance == old(db.maintenance) && db.mechanics == old(db.mechanics)
    ensures id !in old(db.parts) ==> r == Fail(404, "Part not found") && db.parts == old(db.parts)
    ensures id in old(db.parts) && elements == PartModel.StringElements ==>
              r == Fail(400, PartModel.InspectionCastError) && db.parts == old(db.parts)
    ensures id in old(db.parts) && elements == PartModel.SubdocumentElements ==>
              var p := old(db.parts)[id];
              var u := p.(inspections := p.inspections + [PartModel.Inspection(now, kind, result, mechanic)]);
              r == Ok(200, u) && db.parts == old(db.parts)[id := u]
  {
    if id !in db.parts {
      return Fail(404, "Part not found");
    }
    var pushed := PartModel.PushInspection(db.parts[id], elements, PartModel.Inspection(now, kind, result, mechanic));
    if pushed.None? {
      return Fail(400, PartModel.InspectionCastError);
    }
    var u := pushed.value;
    ReplacePart(db.parts, id, u);
    db.SavePart(id, u);
    r := Ok(200, u);
  }

  // ---- GET /statistics ----

  /** The GET routes of the parts router, in the order they are registered:
      `/`, `/:id`, `/statistics`. */
  const GetRoutes: seq<seq<Router.Segment>> := [[], [Router.Param], [Router.Literal("statistics")]]

  /** `GET /api/parts/statistics` is taken by the single-record route with
      the id "statistics", which cannot be cast to an ObjectId, so `findById`
      throws and the answer is 500; the statistics handler below runs for no
      path at all. */
  lemma StatisticsIsShadowed(path: seq<string>)
    ensures Router.FirstMatch(GetRoutes, ["statistics"]) == Some(1)
    ensures !Router.IsObjectIdText("statistics")
    ensures Router.FirstMatch(GetRoutes, path) != Some(2)
  {
    Router.CoveredRouteNeverRuns(GetRoutes, 1, 2, path);
  }

  datatype PartStats = PartStats(
    totalParts: nat,
    authenticParts: nat,
    counterfeitParts: nat,
    pendingParts: nat,
    verificationRate: real)

  /** The body of the GET /api/parts/statistics handler: the status counts
      and the share of authentic parts, 0 for an empty collection. As
      registered, no request reaches it (`StatisticsIsShadowed`). */
  function Statistics(parts: map<Id, Part>): (s: PartStats)
    ensures s.totalParts == |parts|
    ensures s.authenticParts == |PartModel.WithStatus(parts, PartModel.Authentic)|
    ensures s.counterfeitParts == |PartModel.WithStatus(parts, PartModel.Counterfeit)|
    ensures s.pendingParts == |PartModel.WithStatus(parts, PartModel.Pending)|
    ensures s.authenticParts + s.counterfeitParts + s.pendingParts <= s.totalParts
    ensures s.verificationRate == Analytics.Rate(s.authenticParts, s.totalParts)
    ensures s.totalParts == 0 ==> s.verificationRate == 0.0
    ensures 0.0 <= s.verificationRate <= 100.0
  {
    var authentic := PartModel.WithStatus(parts, PartModel.Authentic);
    var counterfeit := PartModel.WithStatus(parts, PartModel.Counterfeit);
    var pending := PartModel.WithStatus(parts, PartModel.Pending);
    assert authentic * counterfeit == {} && (authentic + counterfeit) * pending == {};
    SubsetCard(authentic + counterfeit + pending, parts.Keys);
    PartStats(|parts|, |authentic|, |counterfeit|, |pending|, Analytics.Rate(|authentic|, |parts|))
  }

  // ---- POST /scan-qr ----

  datatype Scan = Scan(part: Id, isAuthentic: bool, scanTimestamp: Time, verificationStatus: string)

  /** POST /api/parts/scan-qr: look a part up by its QR code and run the
      verifier on it, without recording anything. */
  method ScanQr(db: Store, qrCode: Option<string>, draw: real, now: Time) returns (r: Response<Scan>)
    requires db.Valid()
    ensures qrCode.None? || qrCode == Some("") ==> r == Fail(400, "QR code is required")
    ensures (qrCode.Some? && qrCode.value != "" && forall k :: k in db.parts ==> db.parts[k].qrCode != qrCode)
            ==> r == Fail(404, "Part not found for this QR code")
    ensures r.Ok? ==>
              && r.code == 200
              && r.body.part in db.parts && db.parts[r.body.part].qrCode == qrCode
              && (forall k :: k in db.parts && db.parts[k].qrCode == qrCode ==> k == r.body.part)
              && r.body.isAuthentic == VerifyPartAuthenticity(db.parts[r.body.part].blockchainHash, db.parts[r.body.part].serialNumber, draw)
              && (r.body.verificationStatus == "verified" <==> r.body.isAuthentic)
              && (r.body.verificationStatus == "failed" <==> !r.body.isAuthentic)
              && r.body.scanTimestamp == now
    ensures qrCode.Some? && qrCode.value != "" && (exists k :: k in db.parts && db.parts[k].qrCode == qrCode) ==> r.Ok?
  {
    if qrCode.None? || qrCode.value == "" {
      return Fail(400, "QR code is required");
    }
    if !(exists k :: k in db.parts && db.parts[k].qrCode == qrCode) {
      return Fail(404, "Part not found for this QR code");
    }
    var k :| k in db.parts && db.parts[k].qrCode == qrCode;
    var p := db.parts[k];
    var authentic := VerifyPartAuthenticity(p.blockchainHash, p.serialNumber, draw);
    r := Ok(200, Scan(k, authentic, now, if authentic then "verified" else "failed"));
  }
}
