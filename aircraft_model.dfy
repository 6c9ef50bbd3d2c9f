/** The Aircraft document: its fields, the `daysUntilMaintenance` virtual and
    the pre-save hook that derives the compliance status from the time left
    until the next maintenance. */
module AircraftModel {
  import opened Common

  datatype AircraftStatus = Compliant | Alert | Overdue | Grounded

  function StatusName(s: AircraftStatus): string {
    match s
    case Compliant => "compliant"
    case Alert => "alert"
    case Overdue => "overdue"
    case Grounded => "grounded"
  }

  /** The schema's enumeration check: the status a stored string names, if any. */
  function ParseStatus(name: string): (s: Option<AircraftStatus>)
    ensures s.Some? ==> StatusName(s.value) == name
  {
    if name == "compliant" then Some(Compliant)
    else if name == "alert" then Some(Alert)
    else if name == "overdue" then Some(Overdue)
    else if name == "grounded" then Some(Grounded)
    else None
  }

  lemma ParseStatusName(s: AircraftStatus)
    ensures ParseStatus(StatusName(s)) == Some(s)
  {
  }

  datatype Aircraft = Aircraft(
    registration: string,
    model: string,
    manufacturer: string,
    yearBuilt: int,
    flightHours: real,
    lastMaintenance: Time,
    nextMaintenance: Time,
    status: AircraftStatus,
    location: string,
    blockchainHash: string,
    qrCode: Option<string>,
    parts: seq<Id>,
    maintenanceHistory: seq<Id>)

  /** The `daysUntilMaintenance` virtual: whole days, rounded up, from `now`
      to the next maintenance. */
  function DaysUntilMaintenance(a: Aircraft, now: Time): (days: int)
    ensures days < 0 <==> a.nextMaintenance - now <= -DAY
    ensures days <= 7 <==> a.nextMaintenance - now <= 7 * DAY
    ensures (days - 1) * DAY < a.nextMaintenance - now <= days * DAY
  {
    DaysCeil(a.nextMaintenance - now)
  }

  /** The status the save hook assigns, stated on the gap in milliseconds: a
      full day or more late is overdue, anything up to seven days ahead
      (including less than a day late) is an alert, more is compliant. */
  function DerivedStatus(nextMaintenance: Time, now: Time): AircraftStatus {
    var gap := nextMaintenance - now;
    if gap <= -DAY then Overdue
    else if gap <= 7 * DAY then Alert
    else Compliant
  }

  /** The record as the save hook leaves it. */
  function Saved(a: Aircraft, now: Time): Aircraft {
    a.(status := DerivedStatus(a.nextMaintenance, now))
  }

  /** The pre-save hook: recompute `status` from `ceil((next - now) / DAY)`
      with the thresholds 0 and 7, overwriting whatever status was there. */
  method PreSave(a: Aircraft, now: Time) returns (saved: Aircraft)
    ensures saved.status == DerivedStatus(a.nextMaintenance, now)
    ensures saved == a.(status := saved.status)
  {
    var daysUntil := DaysCeil(a.nextMaintenance - now);
    saved := a;
    if daysUntil < 0 {
      saved := saved.(status := Overdue);
    } else if daysUntil <= 7 {
      saved := saved.(status := Alert);
    } else {
      saved := saved.(status := Compliant);
    }
  }

  /** After a save the status depends only on the dates: any status the
      caller put in the record, `grounded` included, is discarded. */
  lemma SavedIgnoresCallerStatus(a: Aircraft, s: AircraftStatus, now: Time)
    ensures Saved(a.(status := s), now) == Saved(a, now)
    ensures Saved(a, now).status != Grounded
  {
  }

  /** The status thresholds read in whole days of the virtual. */
  lemma DerivedStatusByDays(a: Aircraft, now: Time)
    ensures DerivedStatus(a.nextMaintenance, now) == Overdue <==> DaysUntilMaintenance(a, now) < 0
    ensures DerivedStatus(a.nextMaintenance, now) == Alert <==> 0 <= DaysUntilMaintenance(a, now) <= 7
    ensures DerivedStatus(a.nextMaintenance, now) == Compliant <==> DaysUntilMaintenance(a, now) > 7
  {
  }

  /** How urgent a status is: compliant < alert < overdue. */
  function Urgency(s: AircraftStatus): nat {
    match s
    case Compliant => 0
    case Alert => 1
    case Overdue => 2
    case Grounded => 3
  }

  /** Moving the next maintenance later never makes the status more urgent. */
  lemma LaterMaintenanceIsNoMoreUrgent(next1: Time, next2: Time, now: Time)
    requires next1 <= next2
    ensures Urgency(DerivedStatus(next2, now)) <= Urgency(DerivedStatus(next1, now))
  {
  }

  /** The boundaries: exactly seven days ahead is still an alert, one
      millisecond more is compliant; less than a full day late is an alert, a
      full day late is overdue. */
  lemma StatusBoundaries(now: Time)
    ensures DerivedStatus(now + 7 * DAY, now) == Alert
    ensures DerivedStatus(now + 7 * DAY + 1, now) == Compliant
    ensures DerivedStatus(now, now) == Alert
    ensures DerivedStatus(now - DAY + 1, now) == Alert
    ensures DerivedStatus(now - DAY, now) == Overdue
  {
  }

  /** The ids of the stored aircraft having status `s`. */
  function WithStatus(aircraft: map<Id, Aircraft>, s: AircraftStatus): (ids: set<Id>)
    ensures ids <= aircraft.Keys
    ensures forall k :: k in ids <==> k in aircraft && aircraft[k].status == s
  {
    set k | k in aircraft && aircraft[k].status == s
  }
}
