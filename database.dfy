/** The four document collections the route handlers read and write, keyed
    by document id, with the unique indexes the schemas declare. */
module Database {
  import opened Common
  import AircraftModel
  import PartModel
  import MaintenanceModel
  import MechanicModel

  /** The message of a write rejected by a unique index (its exact text is not modelled). */
  const DuplicateKeyError: string := "E11000 duplicate key error"

  /** Two values of an optional field collide when the first is present and
      equal to the second. */
  predicate SameSome(x: Option<string>, y: Option<string>) {
    x.Some? && x == y
  }

  /** Aircraft: `registration`, `blockchainHash` and `qrCode` are unique. */
  predicate AircraftClash(a: Aircraft, b: Aircraft) {
    a.registration == b.registration || a.blockchainHash == b.blockchainHash || SameSome(a.qrCode, b.qrCode)
  }

  /** Parts: `serialNumber`, `blockchainHash` and `qrCode` are unique. */
  predicate PartClash(p: Part, q: Part) {
    p.serialNumber == q.serialNumber || p.blockchainHash == q.blockchainHash || SameSome(p.qrCode, q.qrCode)
  }

  /** Work orders: the `workOrder` number is unique. */
  predicate WorkOrderClash(w: WorkOrder, v: WorkOrder) {
    w.workOrder == v.workOrder
  }

  /** Mechanics: `employeeId`, `email` and the (sparse) `walletAddress` are unique. */
  predicate MechanicClash(m: Mechanic, n: Mechanic) {
    m.employeeId == n.employeeId || m.email == n.email || SameSome(m.walletAddress, n.walletAddress)
  }

  type Aircraft = AircraftModel.Aircraft
  type Part = PartModel.Part
  type WorkOrder = MaintenanceModel.WorkOrder
  type Mechanic = MechanicModel.Mechanic

  predicate AircraftUnique(m: map<Id, Aircraft>) {
    forall i, j :: i in m && j in m && i != j ==> !AircraftClash(m[i], m[j])
  }

  predicate PartsUnique(m: map<Id, Part>) {
    forall i, j :: i in m && j in m && i != j ==> !PartClash(m[i], m[j])
  }

  predicate WorkOrdersUnique(m: map<Id, WorkOrder>) {
    forall i, j :: i in m && j in m && i != j ==> !WorkOrderClash(m[i], m[j])
  }

  predicate MechanicsUnique(m: map<Id, Mechanic>) {
    forall i, j :: i in m && j in m && i != j ==> !MechanicClash(m[i], m[j])
  }

  /** Whether `a`, stored under `id`, would break a unique index of the aircraft collection. */
  predicate AircraftTaken(m: map<Id, Aircraft>, id: Id, a: Aircraft) {
    exists k :: k in m && k != id && (AircraftClash(a, m[k]) || AircraftClash(m[k], a))
  }

  predicate PartTaken(m: map<Id, Part>, id: Id, p: Part) {
    exists k :: k in m && k != id && (PartClash(p, m[k]) || PartClash(m[k], p))
  }

  predicate WorkOrderTaken(m: map<Id, WorkOrder>, id: Id, w: WorkOrder) {
    exists k :: k in m && k != id && WorkOrderClash(w, m[k])
  }

  predicate MechanicTaken(m: map<Id, Mechanic>, id: Id, n: Mechanic) {
    exists k :: k in m && k != id && (MechanicClash(n, m[k]) || MechanicClash(m[k], n))
  }

  /** Storing a record that takes no unique key of another keeps the index intact. */
  lemma StoreAircraftKeepsUnique(m: map<Id, Aircraft>, id: Id, a: Aircraft)
    requires AircraftUnique(m) && !AircraftTaken(m, id, a)
    ensures AircraftUnique(m[id := a])
  {
  }

  lemma StorePartKeepsUnique(m: map<Id, Part>, id: Id, p: Part)
    requires PartsUnique(m) && !PartTaken(m, id, p)
    ensures PartsUnique(m[id := p])
  {
  }

  lemma StoreWorkOrderKeepsUnique(m: map<Id, WorkOrder>, id: Id, w: WorkOrder)
    requires WorkOrdersUnique(m) && !WorkOrderTaken(m, id, w)
    ensures WorkOrdersUnique(m[id := w])
  {
  }

  lemma StoreMechanicKeepsUnique(m: map<Id, Mechanic>, id: Id, n: Mechanic)
    requires MechanicsUnique(m) && !MechanicTaken(m, id, n)
    ensures MechanicsUnique(m[id := n])
  {
  }

  /** Rewriting a stored record without touching its unique keys keeps every index intact. */
  lemma ReplaceAircraft(m: map<Id, Aircraft>, id: Id, a: Aircraft)
    requires AircraftUnique(m) && id in m
    requires a.registration == m[id].registration && a.blockchainHash == m[id].blockchainHash && a.qrCode == m[id].qrCode
    ensures !AircraftTaken(m, id, a) && AircraftUnique(m[id := a])
  {
  }

  lemma ReplacePart(m: map<Id, Part>, id: Id, p: Part)
    requires PartsUnique(m) && id in m
    requires p.serialNumber == m[id].serialNumber && p.blockchainHash == m[id].blockchainHash && p.qrCode == m[id].qrCode
    ensures !PartTaken(m, id, p) && PartsUnique(m[id := p])
  {
  }

  lemma ReplaceWorkOrder(m: map<Id, WorkOrder>, id: Id, w: WorkOrder)
    requires WorkOrdersUnique(m) && id in m
    requires w.workOrder == m[id].workOrder
    ensures !WorkOrderTaken(m, id, w) && WorkOrdersUnique(m[id := w])
  {
  }

  lemma ReplaceMechanic(m: map<Id, Mechanic>, id: Id, n: Mechanic)
    requires MechanicsUnique(m) && id in m
    requires n.employeeId == m[id].employeeId && n.email == m[id].email && n.walletAddress == m[id].walletAddress
    ensures !MechanicTaken(m, id, n) && MechanicsUnique(m[id := n])
  {
  }

  predicate AllWithinSchema(m: map<Id, Mechanic>) {
    forall k :: k in m ==> MechanicModel.WithinSchema(m[k])
  }

  predicate KeysBelow<T>(m: map<Id, T>, bound: Id) {
    forall k :: k in m ==> k < bound
  }

  class Store {
    var aircraft: map<Id, Aircraft>
    var parts: map<Id, Part>
    var maintenance: map<Id, WorkOrder>
    var mechanics: map<Id, Mechanic>
    /** The next document id to hand out; ids are unique across collections. */
    var nextId: Id

    /** Every id was handed out before, every unique index holds, and every
        mechanic satisfies the schema's validators. */
    ghost predicate Valid()
      reads this
    {
      && KeysBelow(aircraft, nextId) && KeysBelow(parts, nextId)
      && KeysBelow(maintenance, nextId) && KeysBelow(mechanics, nextId)
      && AircraftUnique(aircraft) && PartsUnique(parts)
      && WorkOrdersUnique(maintenance) && MechanicsUnique(mechanics)
      && AllWithinSchema(mechanics)
    }

    constructor()
      ensures Valid()
      ensures aircraft == map[] && parts == map[] && maintenance == map[] && mechanics == map[]
    {
      aircraft := map[];
      parts := map[];
      maintenance := map[];
      mechanics := map[];
      nextId := 0;
    }

    /** A fresh document id, in no collection yet. */
    method NewId() returns (id: Id)
      requires Valid()
      modifies this
      ensures Valid()
      ensures id == old(nextId) && nextId == id + 1
      ensures id !in aircraft && id !in parts && id !in maintenance && id !in mechanics
      ensures aircraft == old(aircraft) && parts == old(parts)
      ensures maintenance == old(maintenance) && mechanics == old(mechanics)
    {
      id := nextId;
      nextId := nextId + 1;
    }

    /** Store a new aircraft under a fresh id; it must take no unique key of another. */
    method InsertAircraft(r: Aircraft) returns (id: Id)
      requires Valid() && !AircraftTaken(aircraft, nextId, r)
      modifies this
      ensures Valid()
      ensures id == old(nextId) && nextId == id + 1 && id !in old(aircraft)
      ensures aircraft == old(aircraft)[id := r]
      ensures parts == old(parts) && maintenance == old(maintenance) && mechanics == old(mechanics)
    {
      id := nextId;
      nextId := nextId + 1;
      StoreAircraftKeepsUnique(aircraft, id, r);
      aircraft := aircraft[id := r];
    }

    /** Write back the stored aircraft `id`; it must take no unique key of another. */
    method SaveAircraft(id: Id, r: Aircraft)
      requires Valid() && id in aircraft && !AircraftTaken(aircraft, id, r)
      modifies this
      ensures Valid()
      ensures aircraft == old(aircraft)[id := r]
      ensures parts == old(parts) && maintenance == old(maintenance) && mechanics == old(mechanics) && nextId == old(nextId)
    {
      StoreAircraftKeepsUnique(aircraft, id, r);
      aircraft := aircraft[id := r];
    }

    /** Store a new part under a fresh id; it must take no unique key of another. */
    method InsertPart(r: Part) returns (id: Id)
      requires Valid() && !PartTaken(parts, nextId, r)
      modifies this
      ensures Valid()
      ensures id == old(nextId) && nextId == id + 1 && id !in old(parts)
      ensures parts == old(parts)[id := r]
      ensures aircraft == old(aircraft) && maintenance == old(maintenance) && mechanics == old(mechanics)
    {
      id := nextId;
      nextId := nextId + 1;
      StorePartKeepsUnique(parts, id, r);
      parts := parts[id := r];
    }

    /** Write back the stored part `id`; it must take no unique key of another. */
    method SavePart(id: Id, r: Part)
      requires Valid() && id in parts && !PartTaken(parts, id, r)
      modifies this
      ensures Valid()
      ensures parts == old(parts)[id := r]
      ensures aircraft == old(aircraft) && maintenance == old(maintenance) && mechanics == old(mechanics) && nextId == old(nextId)
    {
      StorePartKeepsUnique(parts, id, r);
      parts := parts[id := r];
    }

    /** Store a new work order under a fresh id; it must take no unique key of another. */
    method InsertWorkOrder(r: WorkOrder) returns (id: Id)
      requires Valid() && !WorkOrderTaken(maintenance, nextId, r)
      modifies this
      ensures Valid()
      ensures id == old(nextId) && nextId == id + 1 && id !in old(maintenance)
      ensures maintenance == old(maintenance)[id := r]
      ensures aircraft == old(aircraft) && parts == old(parts) && mechanics == old(mechanics)
    {
      id := nextId;
      nextId := nextId + 1;
      StoreWorkOrderKeepsUnique(maintenance, id, r);
      maintenance := maintenance[id := r];
    }

    /** Write back the stored work order `id`; it must take no unique key of another. */
    method SaveWorkOrder(id: Id, r: WorkOrder)
      requires Valid() && id in maintenance && !WorkOrderTaken(maintenance, id, r)
      modifies this
      ensures Valid()
      ensures maintenance == old(maintenance)[id := r]
      ensures aircraft == old(aircraft) && parts == old(parts) && mechanics == old(mechanics) && nextId == old(nextId)
    {
      StoreWorkOrderKeepsUnique(maintenance, id, r);
      maintenance := maintenance[id := r];
    }

    /** Store a new mechanic under a fresh id; it must take no unique key of another. */
    method InsertMechanic(r: Mechanic) returns (id: Id)
      requires Valid() && !MechanicTaken(mechanics, nextId, r) && MechanicModel.WithinSchema(r)
      modifies this
      ensures Valid()
      ensures id == old(nextId) && nextId == id + 1 && id !in old(mechanics)
      ensures mechanics == old(mechanics)[id := r]
      ensures aircraft == old(aircraft) && parts == old(parts) && maintenance == old(maintenance)
    {
      id := nextId;
      nextId := nextId + 1;
      StoreMechanicKeepsUnique(mechanics, id, r);
      mechanics := mechanics[id := r];
    }

    /** Write back the stored mechanic `id`; it must take no unique key of another. */
    method SaveMechanic(id: Id, r: Mechanic)
      requires Valid() && id in mechanics && !MechanicTaken(mechanics, id, r) && MechanicModel.WithinSchema(r)
      modifies this
      ensures Valid()
      ensures mechanics == old(mechanics)[id := r]
      ensures aircraft == old(aircraft) && parts == old(parts) && maintenance == old(maintenance) && nextId == old(nextId)
    {
      StoreMechanicKeepsUnique(mechanics, id, r);
      mechanics := mechanics[id := r];
    }
  }
}
