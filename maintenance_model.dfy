/** The Maintenance (work order) document: its enumerations, checklist, the
    `completionPercentage` virtual and the pre-save hook that derives the
    status from the dates and the checklist. */
module MaintenanceModel {
  import opened Common

  datatype WorkType =
    | ScheduledInspection
    | EngineService
    | AvionicsCheck
    | LandingGearService
    | HydraulicService
    | EmergencyRepair
    | ComplianceCheck
    | PartsReplacement

  function TypeName(t: WorkType): string {
    match t
    case ScheduledInspection => "Scheduled Inspection"
    case EngineService => "Engine Service"
    case AvionicsCheck => "Avionics Check"
    case LandingGearService => "Landing Gear Service"
    case HydraulicService => "Hydraulic Service"
    case EmergencyRepair => "Emergency Repair"
    case ComplianceCheck => "Compliance Check"
    case PartsReplacement => "Parts Replacement"
  }

  /** The schema's enumeration check for `type`: the work type a string names, if any. */
  function ParseType(name: string): (t: Option<WorkType>)
    ensures t.Some? ==> TypeName(t.value) == name
  {
    if name == "Scheduled Inspection" then Some(ScheduledInspection)
    else if name == "Engine Service" then Some(EngineService)
    else if name == "Avionics Check" then Some(AvionicsCheck)
    else if name == "Landing Gear Service" then Some(LandingGearService)
    else if name == "Hydraulic Service" then Some(HydraulicService)
    else if name == "Emergency Repair" then Some(EmergencyRepair)
    else if name == "Compliance Check" then Some(ComplianceCheck)
    else if name == "Parts Replacement" then Some(PartsReplacement)
    else None
  }

  lemma ParseTypeName(t: WorkType)
    ensures ParseType(TypeName(t)) == Some(t)
  {
  }

  datatype Priority = Low | Medium | High | Critical

  function PriorityName(p: Priority): string {
    match p
    case Low => "low"
    case Medium => "medium"
    case High => "high"
    case Critical => "critical"
  }

  function ParsePriority(name: string): (p: Option<Priority>)
    ensures p.Some? ==> PriorityName(p.value) == name
  {
    if name == "low" then Some(Low)
    else if name == "medium" then Some(Medium)
    else if name == "high" then Some(High)
    else if name == "critical" then Some(Critical)
    else None
  }

  lemma ParsePriorityName(p: Priority)
    ensures ParsePriority(PriorityName(p)) == Some(p)
  {
  }

  datatype WorkStatus = Pending | Scheduled | InProgress | Completed | Cancelled | Overdue

  datatype ChecklistItem = ChecklistItem(
    task: string,
    completed: bool,
    completedBy: Option<Id>,
    completedAt: Option<Time>,
    notes: Option<string>)

  datatype DigitalSignature = DigitalSignature(mechanic: Id, supervisor: Option<Id>, timestamp: Time, hash: string)

  datatype BlockchainRecord = BlockchainRecord(transactionHash: string, blockNumber: int, gasUsed: int, timestamp: Time)

  datatype WorkOrder = WorkOrder(
    workOrder: string,
    aircraft: Id,
    kind: WorkType,
    description: string,
    priority: Priority,
    status: WorkStatus,
    assignedTo: Id,
    scheduledDate: Time,
    dueDate: Time,
    completedDate: Option<Time>,
    estimatedHours: real,
    checklist: seq<ChecklistItem>,
    digitalSignature: Option<DigitalSignature>,
    blockchainRecord: Option<BlockchainRecord>)

  /** `checklist.every((item) => item.completed)`. */
  predicate AllCompleted(checklist: seq<ChecklistItem>) {
    forall i :: 0 <= i < |checklist| ==> checklist[i].completed
  }

  /** `checklist.filter((item) => item.completed).length`. */
  function CountCompleted(checklist: seq<ChecklistItem>): (n: nat)
    ensures n <= |checklist|
    ensures n == |checklist| <==> AllCompleted(checklist)
  {
    if |checklist| == 0 then 0
    else
      var rest := checklist[1..];
      assert AllCompleted(checklist) <==> checklist[0].completed && AllCompleted(rest) by {
        if checklist[0].completed && AllCompleted(rest) {
          forall i | 0 <= i < |checklist| ensures checklist[i].completed {
            if i > 0 { assert checklist[i] == rest[i - 1]; }
          }
        }
      }
      (if checklist[0].completed then 1 else 0) + CountCompleted(rest)
  }

  lemma RatioAtMostOne(k: real, n: real)
    requires 0.0 <= k <= n && 0.0 < n
    ensures 0.0 <= k / n <= 1.0
  {
    assert k / n * n == k;
  }

  lemma DivSelf(x: real)
    requires x != 0.0
    ensures x / x == 1.0
  {
  }

  lemma FullRatio(checklist: seq<ChecklistItem>)
    requires |checklist| > 0
    ensures AllCompleted(checklist) ==> CountCompleted(checklist) as real / |checklist| as real == 1.0
  {
    if AllCompleted(checklist) {
      var n := |checklist| as real;
      assert CountCompleted(checklist) as real == n;
      DivSelf(n);
    }
  }

  /** The `completionPercentage` virtual: the rounded share of completed
      checklist entries, 0 for an empty checklist. */
  function CompletionPercentage(checklist: seq<ChecklistItem>): (percent: int)
    ensures 0 <= percent <= 100
    ensures |checklist| == 0 ==> percent == 0
    ensures |checklist| > 0 && AllCompleted(checklist) ==> percent == 100
    ensures |checklist| > 0 && CountCompleted(checklist) == 0 ==> percent == 0
  {
    if |checklist| == 0 then 0
    else
      var ratio := CountCompleted(checklist) as real / |checklist| as real;
      RatioAtMostOne(CountCompleted(checklist) as real, |checklist| as real);
      RoundWithin(ratio * 100.0, 0, 100);
      FullRatio(checklist);
      Round(ratio * 100.0)
  }

  /** A checklist that can complete the order: non-empty and fully ticked. */
  predicate ChecklistDone(checklist: seq<ChecklistItem>) {
    |checklist| > 0 && AllCompleted(checklist)
  }

  /** The status the pre-save hook leaves, as one case table: a completed
      order stays completed; otherwise a past-due order is overdue; otherwise
      an in-progress order with a done checklist completes, and a pending
      order whose scheduled date has come is scheduled. */
  function SavedStatus(w: WorkOrder, now: Time): WorkStatus {
    if w.status == Completed then Completed
    else if w.dueDate < now then Overdue
    else if w.status == InProgress && ChecklistDone(w.checklist) then Completed
    else if w.status == Pending && w.scheduledDate <= now then Scheduled
    else w.status
  }

  /** The record as the pre-save hook leaves it: the derived status, and
      `completedDate = now` exactly when the hook itself completes the order. */
  function Saved(w: WorkOrder, now: Time): WorkOrder {
    var s := SavedStatus(w, now);
    w.(status := s,
       completedDate := if s == Completed && w.status != Completed then Some(now) else w.completedDate)
  }

  /** The pre-save hook, three rules applied in order to the record. */
  method PreSave(w: WorkOrder, now: Time) returns (saved: WorkOrder)
    ensures saved == Saved(w, now)
  {
    saved := w;
    if saved.status == Pending && saved.scheduledDate <= now {
      saved := saved.(status := Scheduled);
    }
    if saved.status != Completed && saved.dueDate < now {
      saved := saved.(status := Overdue);
    }
    if |saved.checklist| > 0 {
      var allCompleted := AllCompleted(saved.checklist);
      if allCompleted && saved.status == InProgress {
        saved := saved.(status := Completed, completedDate := Some(now));
      }
    }
  }

  /** No rule fires on a completed order. */
  lemma SavedLeavesCompletedAlone(w: WorkOrder, now: Time)
    requires w.status == Completed
    ensures Saved(w, now) == w
  {
  }

  /** After the hook, a past-due order is overdue unless it was already
      completed; in particular a past-due cancelled or in-progress order is
      overdue, not completed. */
  lemma SavedPastDue(w: WorkOrder, now: Time)
    requires w.dueDate < now
    ensures Saved(w, now).status in {Overdue, Completed}
    ensures w.status != Completed ==> Saved(w, now).status == Overdue
  {
  }

  /** A pending order whose scheduled date has come, and which is not past
      due, becomes scheduled. */
  lemma SavedSchedules(w: WorkOrder, now: Time)
    requires w.status == Pending && w.scheduledDate <= now && now <= w.dueDate
    ensures Saved(w, now).status == Scheduled
    ensures Saved(w, now).completedDate == w.completedDate
  {
  }

  /** An in-progress order with a non-empty, fully ticked checklist, not past
      due, becomes completed on `now`. */
  lemma SavedCompletes(w: WorkOrder, now: Time)
    requires w.status == InProgress && ChecklistDone(w.checklist) && now <= w.dueDate
    ensures Saved(w, now).status == Completed
    ensures Saved(w, now).completedDate == Some(now)
  {
  }

  /** The hook completes an order only from in-progress with a done checklist,
      so an empty checklist never triggers completion; and it touches
      `completedDate` only on that transition. */
  lemma SavedCompletesOnlyFromInProgress(w: WorkOrder, now: Time)
    ensures Saved(w, now).status == Completed && w.status != Completed ==>
              w.status == InProgress && ChecklistDone(w.checklist) && now <= w.dueDate
    ensures |w.checklist| == 0 && w.status != Completed ==> Saved(w, now).status != Completed
    ensures Saved(w, now).completedDate != w.completedDate ==>
              w.status != Completed && Saved(w, now).status == Completed
  {
  }

  /** For a fixed `now` the hook is idempotent and never moves an order into
      pending or in-progress. */
  lemma SavedIdempotent(w: WorkOrder, now: Time)
    ensures Saved(Saved(w, now), now) == Saved(w, now)
    ensures Saved(w, now).status in {Pending, InProgress} ==> Saved(w, now).status == w.status
  {
  }

  /** Only status and completion date change; the checklist and every other
      field stay as they were. */
  lemma SavedKeepsOtherFields(w: WorkOrder, now: Time)
    ensures Saved(w, now) == w.(status := Saved(w, now).status, completedDate := Saved(w, now).completedDate)
  {
  }

  /** The ids of the stored work orders having status `s`. */
  function WithStatus(orders: map<Id, WorkOrder>, s: WorkStatus): (ids: set<Id>)
    ensures ids <= orders.Keys
    ensures forall k :: k in ids <==> k in orders && orders[k].status == s
  {
    set k | k in orders && orders[k].status == s
  }
}
