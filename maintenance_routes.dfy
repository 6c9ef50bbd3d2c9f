/** The work-order endpoints: create with its count-based numbering,
    complete-task with its cascade onto the mechanic and the aircraft, the
    digital signature, and the completion rate of the statistics. */
module MaintenanceRoutes {
  import opened Common
  import opened BlockchainUtil
  import AircraftModel
  import MaintenanceModel
  import MechanicModel
  import Validation
  import Analytics
  import opened Database
  import Router

  // ---- work-order numbering ----

  /** `WO-<year>-`. */
  function NumberPrefix(year: int): string {
    "WO-" + IntString(year) + "-"
  }

  /** `count + 1`, left-padded with zeros to four digits. */
  function Counter(count: nat): string {
    PadStart(DecimalString(count + 1), 4, '0')
  }

  /** The number given to a new work order when `count` orders are stored. */
  function WorkOrderNumber(year: int, count: nat): string {
    NumberPrefix(year) + Counter(count)
  }

  /** Within one year, different counts give different numbers. */
  lemma WorkOrderNumberInjective(year: int, c1: nat, c2: nat)
    requires WorkOrderNumber(year, c1) == WorkOrderNumber(year, c2)
    ensures c1 == c2
  {
    PrefixCancels(NumberPrefix(year), Counter(c1), Counter(c2));
    CounterInjective(c1, c2);
  }

  lemma CounterInjective(c1: nat, c2: nat)
    requires Counter(c1) == Counter(c2)
    ensures c1 == c2
  {
    var a, b := c1 + 1, c2 + 1;
    assert PadStart(DecimalString(a), 4, '0') == PadStart(DecimalString(b), 4, '0');
    PaddedDecimalInjective(a, b, 4);
  }

  /** The number the next create will try: it counts every stored work order,
      of any year. */
  function NextNumber(orders: map<Id, WorkOrder>, year: int): string {
    WorkOrderNumber(year, |orders|)
  }

  /** The count shrinks when a work order is deleted (with its aircraft), so
      the next number can be one already stored: with orders numbered for
      counts 0 and 1, deleting the first makes the next number the second's. */
  lemma NumberReusedAfterDeletion(orders: map<Id, WorkOrder>, first: Id, second: Id, year: int)
    requires first != second && orders.Keys == {first, second}
    requires orders[first].workOrder == WorkOrderNumber(year, 0)
    requires orders[second].workOrder == WorkOrderNumber(year, 1)
    ensures var rest := orders - {first};
            second in rest && rest[second].workOrder == NextNumber(rest, year)
  {
    var rest := orders - {first};
    assert rest.Keys == {second};
    assert |rest| == |rest.Keys| == 1;
  }

  // ---- POST / ----

  /** `new Maintenance({...req.body, workOrder})`, before the save hook: a
      pending order with nothing completed, signed or recorded. */
  function NewWorkOrder(req: Validation.MaintenanceRequest, number: string): (w: WorkOrder)
    ensures w.status == MaintenanceModel.Pending && w.workOrder == number
    ensures w.completedDate.None? && w.digitalSignature.None? && w.blockchainRecord.None?
    ensures w.checklist == req.checklist && w.aircraft == req.aircraft && w.assignedTo == req.assignedTo
  {
    MaintenanceModel.WorkOrder(
      number, req.aircraft, req.kind, req.description, req.priority, MaintenanceModel.Pending,
      req.assignedTo, req.scheduledDate, req.dueDate, None, req.estimatedHours, req.checklist, None, None)
  }

  /** The aircraft after the new order's id is appended and it is saved again. */
  function WithWorkOrder(a: Aircraft, order: Id, now: Time): (u: Aircraft)
    ensures u.maintenanceHistory == a.maintenanceHistory + [order]
    ensures u == a.(maintenanceHistory := u.maintenanceHistory, status := AircraftModel.DerivedStatus(a.nextMaintenance, now))
  {
    AircraftModel.Saved(a.(maintenanceHistory := a.maintenanceHistory + [order]), now)
  }

  /** The assigned mechanic, with one more task in progress. */
  function Assigned(m: Mechanic): (u: Mechanic)
    ensures u.tasksInProgress == m.tasksInProgress + 1
    ensures u == m.(tasksInProgress := u.tasksInProgress)
  {
    m.(tasksInProgress := m.tasksInProgress + 1)
  }

  /** The successful tail of a create: store the order under a fresh id,
      append it to its aircraft's history and count it in progress for its
      mechanic. */
  method Open(db: Store, w: WorkOrder, aircraft: Id, mechanic: Id, now: Time) returns (id: Id)
    requires db.Valid() && aircraft in db.aircraft && mechanic in db.mechanics
    requires !WorkOrderTaken(db.maintenance, db.nextId, w)
    modifies db
    ensures db.Valid()
    ensures id == old(db.nextId) && db.parts == old(db.parts)
    ensures db.maintenance == old(db.maintenance)[id := w]
    ensures db.aircraft == old(db.aircraft)[aircraft := WithWorkOrder(old(db.aircraft)[aircraft], id, now)]
    ensures db.mechanics == old(db.mechanics)[mechanic := Assigned(old(db.mechanics)[mechanic])]
  {
    id := db.InsertWorkOrder(w);

    var a := db.aircraft[aircraft];
    a := a.(maintenanceHistory := a.maintenanceHistory + [id]);
    a := AircraftModel.PreSave(a, now);
    ReplaceAircraft(db.aircraft, aircraft, a);
    db.SaveAircraft(aircraft, a);

    var m := db.mechanics[mechanic];
    m := m.(tasksInProgress := m.tasksInProgress + 1);
    ReplaceMechanic(db.mechanics, mechanic, m);
    db.SaveMechanic(mechanic, m);
  }

  /** POST /api/maintenance, with `year` the current calendar year. */
  method Create(db: Store, body: Validation.MaintenanceBody, year: int, now: Time) returns (r: Response<WorkOrder>)
    requires db.Valid()
    modifies db
    ensures db.Valid()
    ensures db.parts == old(db.parts)
    ensures !Validation.MaintenanceRulesHold(body) ==>
              && r == Fail(400, "Validation error")
              && db.maintenance == old(db.maintenance) && db.aircraft == old(db.aircraft) && db.mechanics == old(db.mechanics)
    ensures Validation.MaintenanceRulesHold(body) && body.aircraft.value !in old(db.aircraft) ==>
              && r == Fail(400, "Aircraft not found")
              && db.maintenance == old(db.maintenance) && db.aircraft == old(db.aircraft) && db.mechanics == old(db.mechanics)
    ensures Validation.MaintenanceRulesHold(body) && body.aircraft.value in old(db.aircraft)
            && body.assignedTo.value !in old(db.mechanics) ==>
              && r == Fail(400, "Mechanic not found")
              && db.maintenance == old(db.maintenance) && db.aircraft == old(db.aircraft) && db.mechanics == old(db.mechanics)
    ensures Validation.MaintenanceRulesHold(body) && body.aircraft.value in old(db.aircraft)
            && body.assignedTo.value in old(db.mechanics) ==>
              var req := Validation.MaintenanceRequestOf(body);
              var w := MaintenanceModel.Saved(NewWorkOrder(req, NextNumber(old(db.maintenance), year)), now);
              if WorkOrderTaken(old(db.maintenance), old(db.nextId), w)
              then
                && r == Fail(400, DuplicateKeyError)
                && db.maintenance == old(db.maintenance) && db.aircraft == old(db.aircraft) && db.mechanics == old(db.mechanics)
              else
                && r == Ok(201, w)
                && db.maintenance == old(db.maintenance)[old(db.nextId) := w]
                && db.aircraft == old(db.aircraft)[req.aircraft := WithWorkOrder(old(db.aircraft)[req.aircraft], old(db.nextId), now)]
                && db.mechanics == old(db.mechanics)[req.assignedTo := Assigned(old(db.mechanics)[req.assignedTo])]
  {
    var gate := Validation.ValidateMaintenance(body);
    if gate.Rejected? {
      return Fail(400, gate.error);
    }
    var req := Validation.MaintenanceRequestOf(body);
    if req.aircraft !in db.aircraft {
      return Fail(400, "Aircraft not found");
    }
    if req.assignedTo !in db.mechanics {
      return Fail(400, "Mechanic not found");
    }
    var number := NextNumber(db.maintenance, year);
    var w := MaintenanceModel.PreSave(NewWorkOrder(req, number), now);
    if WorkOrderTaken(db.maintenance, db.nextId, w) {
      return Fail(400, DuplicateKeyError);
    }
    var _ := Open(db, w, req.aircraft, req.assignedTo, now);
    r := Ok(201, w);
  }

  /** A new order is never stored in progress, completed or cancelled: the
      hook only schedules it or marks it overdue. */
  lemma NewOrderStatus(req: Validation.MaintenanceRequest, number: string, now: Time)
    ensures MaintenanceModel.Saved(NewWorkOrder(req, number), now).status
            in {MaintenanceModel.Pending, MaintenanceModel.Scheduled, MaintenanceModel.Overdue}
    ensures req.dueDate < now ==> MaintenanceModel.Saved(NewWorkOrder(req, number), now).status == MaintenanceModel.Overdue
  {
  }

  // ---- POST /:id/complete-task ----

  /** The chosen checklist entry, ticked by `who` at `now` with `notes`. */
  function MarkTask(c: seq<MaintenanceModel.ChecklistItem>, i: int, who: Option<Id>, notes: Option<string>, now: Time): (r: seq<MaintenanceModel.ChecklistItem>)
    requires 0 <= i < |c|
    ensures |r| == |c|
    ensures r[i] == c[i].(completed := true, completedBy := who, completedAt := Some(now), notes := notes)
    ensures forall j :: 0 <= j < |c| && j != i ==> r[j] == c[j]
  {
    c[i := c[i].(completed := true, completedBy := who, completedAt := Some(now), notes := notes)]
  }

  /** Ticking an entry adds one to the completed count, unless it was already ticked. */
  lemma {:induction false} MarkTaskCounts(c: seq<MaintenanceModel.ChecklistItem>, i: int, who: Option<Id>, notes: Option<string>, now: Time)
    requires 0 <= i < |c|
    ensures MaintenanceModel.CountCompleted(MarkTask(c, i, who, notes, now))
            == MaintenanceModel.CountCompleted(c) + (if c[i].completed then 0 else 1)
  {
    var r := MarkTask(c, i, who, notes, now);
    if i == 0 {
      assert r[1..] == c[1..];
    } else {
      assert r[1..] == MarkTask(c[1..], i - 1, who, notes, now);
      MarkTaskCounts(c[1..], i - 1, who, notes, now);
    }
  }

  /** Whether ticking entry `i` completes the order in the handler itself:
      every entry is then ticked and the order was in progress. */
  predicate Transitions(w: WorkOrder, i: int, who: Option<Id>, notes: Option<string>, now: Time)
    requires 0 <= i < |w.checklist|
  {
    MaintenanceModel.AllCompleted(MarkTask(w.checklist, i, who, notes, now)) && w.status == MaintenanceModel.InProgress
  }

  /** The order after the handler's own edits, before its final save. */
  function TaskApplied(w: WorkOrder, i: int, who: Option<Id>, notes: Option<string>, now: Time): (u: WorkOrder)
    requires 0 <= i < |w.checklist|
    ensures u.checklist == MarkTask(w.checklist, i, who, notes, now)
    ensures Transitions(w, i, who, notes, now) ==> u.status == MaintenanceModel.Completed && u.completedDate == Some(now)
    ensures !Transitions(w, i, who, notes, now) ==> u == w.(checklist := u.checklist)
  {
    var c := MarkTask(w.checklist, i, who, notes, now);
    if Transitions(w, i, who, notes, now) then w.(checklist := c, status := MaintenanceModel.Completed, completedDate := Some(now))
    else w.(checklist := c)
  }

  /** The mechanic credited with a completed order: one more completed, one
      fewer in progress but never below zero. */
  function Credited(m: Mechanic): (u: Mechanic)
    ensures u.tasksCompleted == m.tasksCompleted + 1
    ensures u.tasksInProgress == (if m.tasksInProgress >= 1 then m.tasksInProgress - 1 else 0)
    ensures m.tasksInProgress >= 0 ==> u.tasksInProgress >= 0
    ensures u == m.(tasksCompleted := u.tasksCompleted, tasksInProgress := u.tasksInProgress)
  {
    var inProgress := m.tasksInProgress - 1;
    m.(tasksCompleted := m.tasksCompleted + 1, tasksInProgress := if 0 > inProgress then 0 else inProgress)
  }

  /** The aircraft after a completed scheduled inspection, saved again:
      maintained now, next due on `threeMonthsOn` (the calendar date three
      months ahead). */
  function Inspected(a: Aircraft, now: Time, threeMonthsOn: Time): (u: Aircraft)
    ensures u.lastMaintenance == now && u.nextMaintenance == threeMonthsOn
    ensures u.status == AircraftModel.DerivedStatus(threeMonthsOn, now)
  {
    AircraftModel.Saved(a.(nextMaintenance := threeMonthsOn, lastMaintenance := now), now)
  }

  /** Three calendar months are more than seven days, so the inspected
      aircraft comes out compliant. */
  lemma InspectionMakesCompliant(a: Aircraft, now: Time, threeMonthsOn: Time)
    requires threeMonthsOn > now + 7 * DAY
    ensures Inspected(a, now, threeMonthsOn).status == AircraftModel.Compliant
  {
  }

  /** POST /api/maintenance/:id/complete-task. `taskIndex` is `None` when the
      body has none; a missing or negative index reaches an undefined entry,
      which throws. */
  method CompleteTask(db: Store, id: Id, taskIndex: Option<int>, mechanicId: Option<Id>, notes: Option<string>,
                      now: Time, threeMonthsOn: Time) returns (r: Response<WorkOrder>)
    requires db.Valid()
    modifies db
    ensures db.Valid()
    ensures db.parts == old(db.parts)
    ensures id !in old(db.maintenance) ==>
              && r == Fail(404, "Maintenance record not found")
              && db.maintenance == old(db.maintenance) && db.aircraft == old(db.aircraft) && db.mechanics == old(db.mechanics)
    ensures id in old(db.maintenance) && (taskIndex.None? || taskIndex.value < 0) ==>
              && r == Fail(400, "Cannot set properties of undefined")
              && db.maintenance == old(db.maintenance) && db.aircraft == old(db.aircraft) && db.mechanics == old(db.mechanics)
    ensures id in old(db.maintenance) && taskIndex.Some? && taskIndex.value >= |old(db.maintenance)[id].checklist| ==>
              && r == Fail(400, "Invalid task index")
              && db.maintenance == old(db.maintenance) && db.aircraft == old(db.aircraft) && db.mechanics == old(db.mechanics)
    ensures id in old(db.maintenance) && taskIndex.Some? && 0 <= taskIndex.value < |old(db.maintenance)[id].checklist| ==>
              var w := old(db.maintenance)[id];
              var i := taskIndex.value;
              var done := Transitions(w, i, mechanicId, notes, now);
              var saved := MaintenanceModel.Saved(TaskApplied(w, i, mechanicId, notes, now), now);
              && r == Ok(200, saved)
              && db.maintenance == old(db.maintenance)[id := saved]
              && db.mechanics == (if done && w.assignedTo in old(db.mechanics)
                                  then old(db.mechanics)[w.assignedTo := Credited(old(db.mechanics)[w.assignedTo])]
                                  else old(db.mechanics))
              && db.aircraft == (if done && w.kind == MaintenanceModel.ScheduledInspection && w.aircraft in old(db.aircraft)
                                 then old(db.aircraft)[w.aircraft := Inspected(old(db.aircraft)[w.aircraft], now, threeMonthsOn)]
                                 else old(db.aircraft))
  {
    if id !in db.maintenance {
      return Fail(404, "Maintenance record not found");
    }
    var w := db.maintenance[id];
    if taskIndex.Some? && taskIndex.value >= |w.checklist| {
      return Fail(400, "Invalid task index");
    }
    if taskIndex.None? || taskIndex.value < 0 {
      return Fail(400, "Cannot set properties of undefined");
    }
    var i := taskIndex.value;
    var checklist := w.checklist;
    checklist := checklist[i := checklist[i].(completed := true, completedBy := mechanicId, completedAt := Some(now), notes := notes)];
    assert checklist == MarkTask(w.checklist, i, mechanicId, notes, now);
    var before := w;
    w := w.(checklist := checklist);

    var allCompleted := MaintenanceModel.AllCompleted(w.checklist);
    if allCompleted && w.status == MaintenanceModel.InProgress {
      w := w.(status := MaintenanceModel.Completed, completedDate := Some(now));
      if w.assignedTo in db.mechanics {
        Credit(db, w.assignedTo);
      }
      if w.aircraft in db.aircraft && w.kind == MaintenanceModel.ScheduledInspection {
        Inspect(db, w.aircraft, now, threeMonthsOn);
      }
    }
    assert w == TaskApplied(before, i, mechanicId, notes, now);

    w := MaintenanceModel.PreSave(w, now);
    ReplaceWorkOrder(db.maintenance, id, w);
    db.SaveWorkOrder(id, w);
    r := Ok(200, w);
  }

  /** The completing mechanic's counters, saved. */
  method Credit(db: Store, mechanic: Id)
    requires db.Valid() && mechanic in db.mechanics
    modifies db
    ensures db.Valid()
    ensures db.mechanics == old(db.mechanics)[mechanic := Credited(old(db.mechanics)[mechanic])]
    ensures db.aircraft == old(db.aircraft) && db.parts == old(db.parts) && db.maintenance == old(db.maintenance)
    ensures db.nextId == old(db.nextId)
  {
    var m := db.mechanics[mechanic];
    var inProgress := m.tasksInProgress - 1;
    m := m.(tasksCompleted := m.tasksCompleted + 1, tasksInProgress := if 0 > inProgress then 0 else inProgress);
    ReplaceMechanic(db.mechanics, mechanic, m);
    db.SaveMechanic(mechanic, m);
  }

  /** The inspected aircraft's maintenance dates, saved. */
  method Inspect(db: Store, aircraft: Id, now: Time, threeMonthsOn: Time)
    requires db.Valid() && aircraft in db.aircraft
    modifies db
    ensures db.Valid()
    ensures db.aircraft == old(db.aircraft)[aircraft := Inspected(old(db.aircraft)[aircraft], now, threeMonthsOn)]
    ensures db.mechanics == old(db.mechanics) && db.parts == old(db.parts) && db.maintenance == old(db.maintenance)
    ensures db.nextId == old(db.nextId)
  {
    var a := db.aircraft[aircraft];
    a := a.(nextMaintenance := threeMonthsOn, lastMaintenance := now);
    a := AircraftModel.PreSave(a, now);
    ReplaceAircraft(db.aircraft, aircraft, a);
    db.SaveAircraft(aircraft, a);
  }

  /** complete-task completes an order only from in-progress: an overdue,
      scheduled, pending or cancelled order is not completed even when its
      last entry is ticked. */
  lemma CompleteTaskNeedsInProgress(w: WorkOrder, i: int, who: Option<Id>, notes: Option<string>, now: Time)
    requires 0 <= i < |w.checklist|
    requires w.status != MaintenanceModel.InProgress && w.status != MaintenanceModel.Completed
    ensures MaintenanceModel.Saved(TaskApplied(w, i, who, notes, now), now).status != MaintenanceModel.Completed
  {
  }

  /** Ticking the last entry of an in-progress order completes it even past
      its due date, because the handler completes it before the save hook
      could mark it overdue. */
  lemma CompleteTaskBeatsOverdue(w: WorkOrder, i: int, who: Option<Id>, notes: Option<string>, now: Time)
    requires 0 <= i < |w.checklist| && Transitions(w, i, who, notes, now)
    ensures MaintenanceModel.Saved(TaskApplied(w, i, who, notes, now), now).status == MaintenanceModel.Completed
    ensures MaintenanceModel.Saved(TaskApplied(w, i, who, notes, now), now).completedDate == Some(now)
  {
  }

  /** The completion happens exactly when the ticked entry was the only open
      one of an in-progress order. */
  lemma TransitionsWhenLastOpenEntry(w: WorkOrder, i: int, who: Option<Id>, notes: Option<string>, now: Time)
    requires 0 <= i < |w.checklist|
    ensures Transitions(w, i, who, notes, now) <==>
              w.status == MaintenanceModel.InProgress
              && forall j :: 0 <= j < |w.checklist| && j != i ==> w.checklist[j].completed
  {
    var c := MarkTask(w.checklist, i, who, notes, now);
    if forall j :: 0 <= j < |w.checklist| && j != i ==> w.checklist[j].completed {
      forall j | 0 <= j < |c| ensures c[j].completed {
        if j != i { assert c[j] == w.checklist[j]; }
      }
    }
  }

  // ---- POST /:id/digital-signature ----

  /** What is signed: the order's number, the signer and supervisor, the
      time, and the order's type, aircraft and number of completed entries. */
  datatype SignatureData = SignatureData(
    workOrder: string,
    mechanic: Id,
    supervisor: Option<Id>,
    timestamp: Time,
    kind: MaintenanceModel.WorkType,
    aircraft: Id,
    completedTasks: nat)

  function SignatureDataOf(w: WorkOrder, mechanic: Id, supervisor: Option<Id>, now: Time): (d: SignatureData)
    ensures d.completedTasks == MaintenanceModel.CountCompleted(w.checklist) <= |w.checklist|
    ensures d.completedTasks == |w.checklist| <==> MaintenanceModel.AllCompleted(w.checklist)
    ensures d.workOrder == w.workOrder && d.mechanic == mechanic && d.timestamp == now
  {
    SignatureData(w.workOrder, mechanic, supervisor, now, w.kind, w.aircraft,
                  MaintenanceModel.CountCompleted(w.checklist))
  }

  /** `JSON.stringify` of the signed data; an absent supervisor is left out.
      The timestamp is a `Date`, which renders as the quoted `toISOString()`
      text, given here as `iso`. */
  function EncodeSignatureData(d: SignatureData, iso: Time -> string): string {
    var head := [("workOrder", Quoted(d.workOrder)), ("mechanicId", Quoted(IntString(d.mechanic)))];
    var supervisor := if d.supervisor.Some? then [("supervisorId", Quoted(IntString(d.supervisor.value)))] else [];
    var tail := [("timestamp", Quoted(iso(d.timestamp))),
                 ("maintenanceData", JsonObject([("type", Quoted(MaintenanceModel.TypeName(d.kind))),
                                                 ("aircraft", Quoted(IntString(d.aircraft))),
                                                 ("completedTasks", IntString(d.completedTasks))]))];
    JsonObject(head + supervisor + tail)
  }

  /** The simulated block number, `floor(draw * 1000000) + 1000000`. */
  function BlockNumber(draw: real): (n: int)
    ensures 0.0 <= draw < 1.0 ==> 1000000 <= n <= 1999999
  {
    (draw * 1000000.0).Floor + 1000000
  }

  /** The signature and ledger record a signing stores. */
  function Signature(d: SignatureData, sha256: string -> Digest, iso: Time -> string): (s: MaintenanceModel.DigitalSignature)
    ensures ValidateTransaction(s.hash)
    ensures s.mechanic == d.mechanic && s.supervisor == d.supervisor && s.timestamp == d.timestamp
  {
    MaintenanceModel.DigitalSignature(d.mechanic, d.supervisor, d.timestamp, CreateDigitalSignature(EncodeSignatureData(d, iso), sha256))
  }

  function LedgerRecord(d: SignatureData, sha256: string -> Digest, iso: Time -> string, draw: real)
    : (b: MaintenanceModel.BlockchainRecord)
    ensures ValidateTransaction(b.transactionHash) && b.gasUsed == 21000 && b.timestamp == d.timestamp
    ensures 0.0 <= draw < 1.0 ==> 1000000 <= b.blockNumber <= 1999999
  {
    MaintenanceModel.BlockchainRecord(GenerateBlockchainHash(EncodeSignatureData(d, iso), d.timestamp, sha256),
                                      BlockNumber(draw), 21000, d.timestamp)
  }

  /** POST /api/maintenance/:id/digital-signature. */
  method SignWorkOrder(db: Store, id: Id, mechanicId: Option<Id>, supervisorId: Option<Id>, now: Time,
                       sha256: string -> Digest, iso: Time -> string, draw: real)
    returns (r: Response<(MaintenanceModel.DigitalSignature, MaintenanceModel.BlockchainRecord)>)
    requires db.Valid()
    modifies db
    ensures db.Valid()
    ensures db.parts == old(db.parts) && db.aircraft == old(db.aircraft)
    ensures id !in old(db.maintenance) ==>
              && r == Fail(404, "Maintenance record not found")
              && db.maintenance == old(db.maintenance) && db.mechanics == old(db.mechanics)
    ensures id in old(db.maintenance) && (mechanicId.None? || mechanicId.value !in old(db.mechanics)) ==>
              && r == Fail(400, "Mechanic not found")
              && db.maintenance == old(db.maintenance) && db.mechanics == old(db.mechanics)
    ensures id in old(db.maintenance) && mechanicId.Some? && mechanicId.value in old(db.mechanics) ==>
              var w := old(db.maintenance)[id];
              var mech := mechanicId.value;
              var d := SignatureDataOf(w, mech, supervisorId, now);
              var sig := Signature(d, sha256, iso);
              var rec := LedgerRecord(d, sha256, iso, draw);
              && r == Ok(200, (sig, rec))
              && db.maintenance == old(db.maintenance)[id := MaintenanceModel.Saved(w.(digitalSignature := Some(sig), blockchainRecord := Some(rec)), now)]
              && db.mechanics == old(db.mechanics)[mech := CountSigned(old(db.mechanics)[mech])]
  {
    if id !in db.maintenance {
      return Fail(404, "Maintenance record not found");
    }
    if mechanicId.None? || mechanicId.value !in db.mechanics {
      return Fail(400, "Mechanic not found");
    }
    var mech := mechanicId.value;
    var w := db.maintenance[id];
    var d := SignatureDataOf(w, mech, supervisorId, now);
    var sig := Signature(d, sha256, iso);
    var rec := LedgerRecord(d, sha256, iso, draw);
    w := w.(digitalSignature := Some(sig), blockchainRecord := Some(rec));
    w := MaintenanceModel.PreSave(w, now);
    ReplaceWorkOrder(db.maintenance, id, w);
    db.SaveWorkOrder(id, w);

    var m := CountSigned(db.mechanics[mech]);
    ReplaceMechanic(db.mechanics, mech, m);
    db.SaveMechanic(mech, m);
    r := Ok(200, (sig, rec));
  }

  /** The signing mechanic, with one more blockchain signature. */
  function CountSigned(m: Mechanic): (u: Mechanic)
    ensures u.blockchainSignatures == m.blockchainSignatures + 1
    ensures u == m.(blockchainSignatures := u.blockchainSignatures)
  {
    m.(blockchainSignatures := m.blockchainSignatures + 1)
  }

  /** Signing the same data twice gives the same signature hash, while the
      ledger hash also mixes in the clock. */
  lemma SignatureIsDeterministic(d: SignatureData, sha256: string -> Digest, iso: Time -> string)
    ensures Signature(d, sha256, iso).hash == "0x" + sha256(EncodeSignatureData(d, iso))
    ensures LedgerRecord(d, sha256, iso, 0.0).transactionHash
            == "0x" + sha256(EncodeSignatureData(d, iso) + IntString(d.timestamp))
  {
  }

  // ---- GET /statistics ----

  /** The GET routes of the maintenance router, in the order they are registered:
      `/`, `/:id`, `/statistics`, `/calendar/:year/:month`. */
  const GetRoutes: seq<seq<Router.Segment>> := [[], [Router.Param], [Router.Literal("statistics")],
                                                 [Router.Literal("calendar"), Router.Param, Router.Param]]

  /** `GET /api/maintenance/statistics` is taken by the single-record route with
      the id "statistics", which cannot be cast to an ObjectId, so `findById`
      throws and the answer is 500; the statistics handler below runs for no
      path at all. */
  lemma StatisticsIsShadowed(path: seq<string>)
    ensures Router.FirstMatch(GetRoutes, ["statistics"]) == Some(1)
    ensures !Router.IsObjectIdText("statistics")
    ensures Router.FirstMatch(GetRoutes, path) != Some(2)
  {
    Router.CoveredRouteNeverRuns(GetRoutes, 1, 2, path);
  }

  /** Every order is completed exactly when the completed ones are all of them. */
  lemma AllCompletedCount(orders: map<Id, WorkOrder>)
    ensures |MaintenanceModel.WithStatus(orders, MaintenanceModel.Completed)| <= |orders|
    ensures |MaintenanceModel.WithStatus(orders, MaintenanceModel.Completed)| == |orders|
            <==> forall k :: k in orders ==> orders[k].status == MaintenanceModel.Completed
  {
    var completed := MaintenanceModel.WithStatus(orders, MaintenanceModel.Completed);
    SubsetCard(completed, orders.Keys);
    if forall k :: k in orders ==> orders[k].status == MaintenanceModel.Completed {
      assert completed == orders.Keys;
    } else {
      var k :| k in orders && orders[k].status != MaintenanceModel.Completed;
      SubsetCard(completed, orders.Keys - {k});
      assert |orders.Keys - {k}| == |orders| - 1;
    }
  }

  /** The completion rate of the statistics handler's body: the share of
      completed orders, 0 when there are none. As registered, no request
      reaches that handler (`StatisticsIsShadowed`). */
  function CompletionRate(orders: map<Id, WorkOrder>): (rate: real)
    ensures rate == Analytics.Rate(|MaintenanceModel.WithStatus(orders, MaintenanceModel.Completed)|, |orders|)
    ensures |orders| > 0 ==>
              rate * |orders| as real == |MaintenanceModel.WithStatus(orders, MaintenanceModel.Completed)| as real * 100.0
    ensures |orders| == 0 ==> rate == 0.0
    ensures 0.0 <= rate <= 100.0
    ensures rate == 100.0 <==> |orders| > 0 && forall k :: k in orders ==> orders[k].status == MaintenanceModel.Completed
  {
    AllCompletedCount(orders);
    Analytics.Rate(|MaintenanceModel.WithStatus(orders, MaintenanceModel.Completed)|, |orders|)
  }
}
