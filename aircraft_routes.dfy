/** The aircraft endpoints: the paged list, create, update, the cascading
    delete and QR regeneration. Clock readings, the SHA-256 function and the
    QR encoder's output are parameters. */
module AircraftRoutes {
  import opened Common
  import opened BlockchainUtil
  import AircraftModel
  import Validation
  import opened Database

  // ---- GET / ----

  /** `Math.ceil(a / b)` for a positive divisor. */
  function CeilDiv(a: int, b: int): (q: int)
    requires b > 0
    ensures (q - 1) * b < a <= q * b
  {
    var f := (-a) / b;
    assert (-a) == f * b + (-a) % b;
    -f
  }

  datatype Page<T> = Page(items: seq<T>, totalPages: int, currentPage: int, total: int)

  /** `(page - 1) * limit`, the number of matching aircraft the query skips. */
  function Offset(page: int, limit: int): nat
    requires 1 <= page && 1 <= limit
  {
    (page - 1) * limit
  }

  /** One page of the matching aircraft, already filtered and sorted: at most
      `limit` items starting at offset `(page - 1) * limit`, and the page
      count `ceil(total / limit)`. */
  function Paginate<T>(matching: seq<T>, page: int, limit: int): (p: Page<T>)
    requires 1 <= page && 1 <= limit
    ensures p.total == |matching| && p.currentPage == page
    ensures (p.totalPages - 1) * limit < |matching| <= p.totalPages * limit
    ensures |p.items| <= limit
    ensures Offset(page, limit) >= |matching| ==> p.items == []
    ensures Offset(page, limit) < |matching| ==> Offset(page, limit) + |p.items| <= |matching|
    ensures Offset(page, limit) < |matching| ==> Offset(page, limit) + |p.items| == |matching| || |p.items| == limit
    ensures forall i :: 0 <= i < |p.items| ==> p.items[i] == matching[Offset(page, limit) + i]
  {
    var start := Offset(page, limit);
    var items :=
      if start >= |matching| then []
      else if start + limit >= |matching| then matching[start..]
      else matching[start..start + limit];
    Page(items, CeilDiv(|matching|, limit), page, |matching|)
  }

  lemma MulLe(a: int, b: int, c: int)
    requires a <= b && 0 <= c
    ensures a * c <= b * c
  {
  }

  /** Every matching aircraft is listed, on page `i / limit + 1` at position
      `i % limit`, and that page is within the page count. */
  lemma EveryItemOnItsPage<T>(matching: seq<T>, limit: int, i: int)
    requires 1 <= limit && 0 <= i < |matching|
    ensures var p := Paginate(matching, i / limit + 1, limit);
            i % limit < |p.items| && p.items[i % limit] == matching[i] && i / limit + 1 <= p.totalPages
  {
    var q, rem := i / limit, i % limit;
    var start := q * limit;
    assert i == start + rem && 0 <= rem < limit;
    var p := Paginate(matching, q + 1, limit);
    assert Offset(q + 1, limit) == start;
    assert start < |matching|;
    if |p.items| != limit {
      assert start + |p.items| == |matching|;
    }
    if p.totalPages <= q {
      MulLe(p.totalPages, q, limit);
      assert false;
    }
  }

  // ---- POST / ----

  /** The data hashed for a new aircraft. */
  function AircraftHashData(registration: string, model: string, now: Time): string {
    JsonObject([("registration", Quoted(registration)), ("model", Quoted(model)), ("timestamp", IntString(now))])
  }

  /** `new Aircraft({...req.body, blockchainHash, qrCode})`: the request's
      fields with the schema's defaults (no flight hours, last maintenance
      now, status compliant), no parts and no maintenance history. */
  function NewAircraft(req: Validation.AircraftRequest, hash: string, qrCode: string, now: Time): Aircraft {
    AircraftModel.Aircraft(
      req.registration, req.model, req.manufacturer, req.yearBuilt,
      if req.flightHours.Some? then req.flightHours.value else 0.0,
      if req.lastMaintenance.Some? then req.lastMaintenance.value else now,
      req.nextMaintenance,
      if req.status.Some? then req.status.value else AircraftModel.Compliant,
      req.location, hash, Some(qrCode), [], [])
  }

  /** POST /api/aircraft: validate, hash, build, run the save hook, insert.
      `accountsError` is the message of a rejected `web3.eth.getAccounts()`,
      which runs after the save: the aircraft stays stored and the answer is
      a 400. */
  method Create(db: Store, body: Validation.AircraftBody, currentYear: int, now: Time,
                sha256: string -> Digest, qrCode: string, accountsError: Option<string>)
    returns (r: Response<Aircraft>)
    requires db.Valid()
    modifies db
    ensures db.Valid()
    ensures db.parts == old(db.parts) && db.maintenance == old(db.maintenance) && db.mechanics == old(db.mechanics)
    ensures !Validation.AircraftRulesHold(body, currentYear) ==>
              r == Fail(400, "Validation error") && db.aircraft == old(db.aircraft)
    ensures Validation.AircraftRulesHold(body, currentYear) ==>
              var req := Validation.AircraftRequestOf(body, currentYear);
              var hash := GenerateBlockchainHash(AircraftHashData(req.registration, req.model, now), now, sha256);
              var a := AircraftModel.Saved(NewAircraft(req, hash, qrCode, now), now);
              if AircraftTaken(old(db.aircraft), old(db.nextId), a)
              then r == Fail(400, DuplicateKeyError) && db.aircraft == old(db.aircraft)
              else
                && db.aircraft == old(db.aircraft)[old(db.nextId) := a]
                && r == (if accountsError.Some? then Fail(400, accountsError.value) else Ok(201, a))
  {
    var gate := Validation.ValidateAircraft(body, currentYear);
    if gate.Rejected? {
      return Fail(400, gate.error);
    }
    var req := Validation.AircraftRequestOf(body, currentYear);
    var hash := GenerateBlockchainHash(AircraftHashData(req.registration, req.model, now), now, sha256);
    var saved := AircraftModel.PreSave(NewAircraft(req, hash, qrCode, now), now);
    if AircraftTaken(db.aircraft, db.nextId, saved) {
      return Fail(400, DuplicateKeyError);
    }
    var id := db.InsertAircraft(saved);
    if accountsError.Some? {
      return Fail(400, accountsError.value);
    }
    r := Ok(201, saved);
  }

  /** A created aircraft's status comes from its dates alone: whatever status
      the request carried, `grounded` included, is replaced. */
  lemma CreateDerivesStatus(req: Validation.AircraftRequest, hash: string, qrCode: string, now: Time)
    ensures AircraftModel.Saved(NewAircraft(req, hash, qrCode, now), now).status
            == AircraftModel.DerivedStatus(req.nextMaintenance, now)
    ensures AircraftModel.Saved(NewAircraft(req, hash, qrCode, now), now).status != AircraftModel.Grounded
  {
  }

  // ---- PUT /:id ----

  /** `findByIdAndUpdate(id, req.body)`: the body's fields are written over
      the stored ones as they are; fields the body leaves out stay, and no
      save hook runs. */
  function Overwrite(a: Aircraft, req: Validation.AircraftRequest): (u: Aircraft)
    ensures u.status == (if req.status.Some? then req.status.value else a.status)
    ensures u.nextMaintenance == req.nextMaintenance && u.registration == req.registration
    ensures u.blockchainHash == a.blockchainHash && u.qrCode == a.qrCode
    ensures u.parts == a.parts && u.maintenanceHistory == a.maintenanceHistory
  {
    a.(registration := req.registration, model := req.model, manufacturer := req.manufacturer,
       yearBuilt := req.yearBuilt, nextMaintenance := req.nextMaintenance, location := req.location,
       flightHours := if req.flightHours.Some? then req.flightHours.value else a.flightHours,
       lastMaintenance := if req.lastMaintenance.Some? then req.lastMaintenance.value else a.lastMaintenance,
       status := if req.status.Some? then req.status.value else a.status)
  }

  /** PUT /api/aircraft/:id. */
  method Update(db: Store, id: Id, body: Validation.AircraftBody, currentYear: int) returns (r: Response<Aircraft>)
    requires db.Valid()
    modifies db
    ensures db.Valid()
    ensures db.parts == old(db.parts) && db.maintenance == old(db.maintenance) && db.mechanics == old(db.mechanics)
    ensures !Validation.AircraftRulesHold(body, currentYear) ==>
              r == Fail(400, "Validation error") && db.aircraft == old(db.aircraft)
    ensures Validation.AircraftRulesHold(body, currentYear) && id !in old(db.aircraft) ==>
              r == Fail(404, "Aircraft not found") && db.aircraft == old(db.aircraft)
    ensures Validation.AircraftRulesHold(body, currentYear) && id in old(db.aircraft) ==>
              var u := Overwrite(old(db.aircraft)[id], Validation.AircraftRequestOf(body, currentYear));
              if AircraftTaken(old(db.aircraft), id, u)
              then r == Fail(400, DuplicateKeyError) && db.aircraft == old(db.aircraft)
              else r == Ok(200, u) && db.aircraft == old(db.aircraft)[id := u]
  {
    var gate := Validation.ValidateAircraft(body, currentYear);
    if gate.Rejected? {
      return Fail(400, gate.error);
    }
    if id !in db.aircraft {
      return Fail(404, "Aircraft not found");
    }
    var u := Overwrite(db.aircraft[id], Validation.AircraftRequestOf(body, currentYear));
    if AircraftTaken(db.aircraft, id, u) {
      return Fail(400, DuplicateKeyError);
    }
    db.SaveAircraft(id, u);
    r := Ok(200, u);
  }

  /** Unlike create, an update keeps the status the body names even when the
      dates contradict it: a compliant status survives a maintenance date a
      day past, which the next save would turn into overdue, and a grounded
      status can be set at all. */
  lemma UpdateKeepsStaleStatus(a: Aircraft, req: Validation.AircraftRequest, now: Time)
    requires req.status == Some(AircraftModel.Compliant) && req.nextMaintenance <= now - DAY
    ensures Overwrite(a, req).status == AircraftModel.Compliant
    ensures AircraftModel.Saved(Overwrite(a, req), now).status == AircraftModel.Overdue
  {
  }

  // ---- DELETE /:id ----

  /** `Part.deleteMany({ aircraft: id })`: the parts that remain. */
  function PartsNotOf(parts: map<Id, Part>, id: Id): (r: map<Id, Part>)
    ensures forall k :: k in r <==> k in parts && parts[k].aircraft != id
    ensures forall k :: k in r ==> r[k] == parts[k]
  {
    map k | k in parts && parts[k].aircraft != id :: parts[k]
  }

  /** `Maintenance.deleteMany({ aircraft: id })`: the work orders that remain. */
  function WorkOrdersNotOf(orders: map<Id, WorkOrder>, id: Id): (r: map<Id, WorkOrder>)
    ensures forall k :: k in r <==> k in orders && orders[k].aircraft != id
    ensures forall k :: k in r ==> r[k] == orders[k]
  {
    map k | k in orders && orders[k].aircraft != id :: orders[k]
  }

  /** DELETE /api/aircraft/:id: remove the aircraft, then every part and work
      order that refers to it. */
  method Delete(db: Store, id: Id) returns (r: Response<string>)
    requires db.Valid()
    modifies db
    ensures db.Valid()
    ensures db.mechanics == old(db.mechanics)
    ensures id !in old(db.aircraft) ==>
              && r == Fail(404, "Aircraft not found")
              && db.aircraft == old(db.aircraft) && db.parts == old(db.parts) && db.maintenance == old(db.maintenance)
    ensures id in old(db.aircraft) ==>
              && r == Ok(200, "Aircraft deleted successfully")
              && db.aircraft == old(db.aircraft) - {id}
              && db.parts == PartsNotOf(old(db.parts), id)
              && db.maintenance == WorkOrdersNotOf(old(db.maintenance), id)
  {
    if id !in db.aircraft {
      return Fail(404, "Aircraft not found");
    }
    db.aircraft := db.aircraft - {id};
    db.parts := PartsNotOf(db.parts, id);
    db.maintenance := WorkOrdersNotOf(db.maintenance, id);
    r := Ok(200, "Aircraft deleted successfully");
  }

  /** After the cascade no part or work order refers to the deleted aircraft,
      and the records of every other aircraft are exactly as before. */
  lemma CascadeIsExact(parts: map<Id, Part>, orders: map<Id, WorkOrder>, id: Id, other: Id)
    requires other != id
    ensures forall k :: k in PartsNotOf(parts, id) ==> PartsNotOf(parts, id)[k].aircraft != id
    ensures forall k :: k in WorkOrdersNotOf(orders, id) ==> WorkOrdersNotOf(orders, id)[k].aircraft != id
    ensures forall k :: k in parts && parts[k].aircraft == other ==> k in PartsNotOf(parts, id) && PartsNotOf(parts, id)[k] == parts[k]
    ensures forall k :: k in orders && orders[k].aircraft == other ==> k in WorkOrdersNotOf(orders, id) && WorkOrdersNotOf(orders, id)[k] == orders[k]
  {
  }

  // ---- POST /:id/generate-qr ----

  /** POST /api/aircraft/:id/generate-qr: store the new QR code and save,
      which also re-derives the status from the dates. A QR code another
      aircraft already has is a duplicate key, answered with 500. */
  method GenerateQr(db: Store, id: Id, qrCode: string, now: Time) returns (r: Response<string>)
    requires db.Valid()
    modifies db
    ensures db.Valid()
    ensures db.parts == old(db.parts) && db.maintenance == old(db.maintenance) && db.mechanics == old(db.mechanics)
    ensures id !in old(db.aircraft) ==> r == Fail(404, "Aircraft not found") && db.aircraft == old(db.aircraft)
    ensures id in old(db.aircraft) ==>
              var a := AircraftModel.Saved(old(db.aircraft)[id].(qrCode := Some(qrCode)), now);
              if AircraftTaken(old(db.aircraft), id, a)
              then r == Fail(500, DuplicateKeyError) && db.aircraft == old(db.aircraft)
              else r == Ok(200, qrCode) && db.aircraft == old(db.aircraft)[id := a]
  {
    if id !in db.aircraft {
      return Fail(404, "Aircraft not found");
    }
    var a := db.aircraft[id].(qrCode := Some(qrCode));
    a := AircraftModel.PreSave(a, now);
    if AircraftTaken(db.aircraft, id, a) {
      return Fail(500, DuplicateKeyError);
    }
    db.SaveAircraft(id, a);
    r := Ok(200, qrCode);
  }

  /** Regenerating the QR code changes the QR code and, through the save
      hook, the status; nothing else. */
  lemma GenerateQrChangesQrAndStatus(a: Aircraft, qrCode: string, now: Time)
    ensures AircraftModel.Saved(a.(qrCode := Some(qrCode)), now)
            == a.(qrCode := Some(qrCode), status := AircraftModel.DerivedStatus(a.nextMaintenance, now))
  {
  }
}
