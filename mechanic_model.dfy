/** The Mechanic document: its numeric schema bounds, the JSON form that
    hides the credentials, the password re-hash guard of the pre-save hook,
    `updateLastActive` and the `overallPerformance` virtual. */
module MechanicModel {
  import opened Common

  datatype CertStatus = Active | Expired | Suspended

  function CertStatusName(s: CertStatus): string {
    match s
    case Active => "active"
    case Expired => "expired"
    case Suspended => "suspended"
  }

  function ParseCertStatus(name: string): (s: Option<CertStatus>)
    ensures s.Some? ==> CertStatusName(s.value) == name
  {
    if name == "active" then Some(Active)
    else if name == "expired" then Some(Expired)
    else if name == "suspended" then Some(Suspended)
    else None
  }

  lemma ParseCertStatusName(s: CertStatus)
    ensures ParseCertStatus(CertStatusName(s)) == Some(s)
  {
  }

  datatype Certification = Certification(
    name: string,
    number: Option<string>,
    issuedBy: Option<string>,
    issuedDate: Option<Time>,
    expiryDate: Option<Time>,
    status: CertStatus)

  datatype Performance = Performance(
    qualityScore: real,
    onTimeCompletion: real,
    complianceRate: real,
    customerSatisfaction: real)

  /** The schema defaults of a new mechanic's performance record. */
  const InitialPerformance: Performance := Performance(0.0, 0.0, 0.0, 0.0)

  datatype WorkRecord = WorkRecord(maintenance: Option<Id>, completedAt: Option<Time>, rating: Option<real>, feedback: Option<string>)

  datatype Mechanic = Mechanic(
    employeeId: string,
    name: string,
    email: string,
    password: string,
    certifications: seq<Certification>,
    specialties: seq<string>,
    rating: real,
    tasksCompleted: int,
    tasksInProgress: int,
    reputationScore: real,
    blockchainSignatures: int,
    walletAddress: Option<string>,
    privateKey: Option<string>,
    performance: Performance,
    workHistory: seq<WorkRecord>,
    lastActive: Time,
    isActive: bool)

  predicate InRange(x: real, lo: real, hi: real) {
    lo <= x <= hi
  }

  /** Each performance sub-score in [0, 100], customer satisfaction in [0, 5]. */
  predicate PerformanceWithinSchema(p: Performance) {
    && InRange(p.qualityScore, 0.0, 100.0)
    && InRange(p.onTimeCompletion, 0.0, 100.0)
    && InRange(p.complianceRate, 0.0, 100.0)
    && InRange(p.customerSatisfaction, 0.0, 5.0)
  }

  /** What the schema's validators demand of a stored mechanic: rating in
      [0, 5], reputation in [0, 1000], bounded performance scores, and a
      non-empty name on every certification. */
  predicate WithinSchema(m: Mechanic) {
    && InRange(m.rating, 0.0, 5.0)
    && InRange(m.reputationScore, 0.0, 1000.0)
    && PerformanceWithinSchema(m.performance)
    && forall i :: 0 <= i < |m.certifications| ==> m.certifications[i].name != ""
  }

  /** The `overallPerformance` virtual: the rounded mean of the three sub-scores. */
  function OverallPerformance(p: Performance): (score: int)
    ensures PerformanceWithinSchema(p) ==> 0 <= score <= 100
    ensures p.qualityScore == p.onTimeCompletion == p.complianceRate ==> score == Round(p.qualityScore)
  {
    var mean := (p.qualityScore + p.onTimeCompletion + p.complianceRate) / 3.0;
    assert PerformanceWithinSchema(p) ==> 0.0 <= mean <= 100.0;
    Round(mean)
  }

  /** A mechanic as the `toJSON` transform renders it: every field except
      `password` and `privateKey`. */
  datatype PublicMechanic = PublicMechanic(
    employeeId: string,
    name: string,
    email: string,
    certifications: seq<Certification>,
    specialties: seq<string>,
    rating: real,
    tasksCompleted: int,
    tasksInProgress: int,
    reputationScore: real,
    blockchainSignatures: int,
    walletAddress: Option<string>,
    performance: Performance,
    workHistory: seq<WorkRecord>,
    lastActive: Time,
    isActive: bool)

  function ToJson(m: Mechanic): PublicMechanic {
    PublicMechanic(m.employeeId, m.name, m.email, m.certifications, m.specialties, m.rating,
                   m.tasksCompleted, m.tasksInProgress, m.reputationScore, m.blockchainSignatures,
                   m.walletAddress, m.performance, m.workHistory, m.lastActive, m.isActive)
  }

  /** The JSON form reveals nothing of the credentials, and it loses nothing
      else: two mechanics with the same JSON form differ at most in
      `password` and `privateKey`. */
  lemma ToJsonRedactsExactlyCredentials(m: Mechanic, m': Mechanic, password: string, privateKey: Option<string>)
    ensures ToJson(m.(password := password, privateKey := privateKey)) == ToJson(m)
    ensures ToJson(m) == ToJson(m') ==> m' == m.(password := m'.password, privateKey := m'.privateKey)
  {
  }

  /** The pre-save hook: the password is replaced by its bcrypt hash (given
      as `hashed`) only when it was modified; otherwise the stored value stays. */
  method HashPasswordOnSave(m: Mechanic, passwordModified: bool, hashed: string) returns (saved: Mechanic)
    ensures passwordModified ==> saved.password == hashed
    ensures !passwordModified ==> saved.password == m.password
    ensures saved == m.(password := saved.password)
  {
    saved := m;
    if !passwordModified {
      return;
    }
    saved := saved.(password := hashed);
  }

  /** `updateLastActive`: stamp the clock reading and save; the password is not
      modified, so the save hook leaves it as it is. */
  method UpdateLastActive(m: Mechanic, now: Time) returns (saved: Mechanic)
    ensures saved.lastActive == now
    ensures saved.password == m.password
    ensures saved == m.(lastActive := now)
  {
    var touched := m.(lastActive := now);
    saved := HashPasswordOnSave(touched, false, touched.password);
  }
}
