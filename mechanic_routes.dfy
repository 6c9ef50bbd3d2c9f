/** The mechanic endpoints that write: create with its generated wallet,
    the PUT that cannot reach the credentials, update-performance with its
    running-average rating and recomputed reputation, and add-certification. */
module MechanicRoutes {
  import opened Common
  import opened BlockchainUtil
  import MechanicModel
  import Validation
  import opened Database

  // ---- POST / ----

  const DuplicateMechanicError: string := "Email or employee ID already exists"

  /** `new Mechanic({...req.body, walletAddress, privateKey})`: the request
      with the schema's defaults, before the save hook. */
  function NewMechanic(req: Validation.MechanicRequest, wallet: string, key: string, now: Time): (m: Mechanic)
    requires forall i :: 0 <= i < |req.certifications| ==> req.certifications[i].name != ""
    ensures MechanicModel.WithinSchema(m)
    ensures m.rating == 0.0 && m.reputationScore == 0.0 && m.performance == MechanicModel.InitialPerformance
    ensures m.tasksCompleted == 0 && m.tasksInProgress == 0 && m.blockchainSignatures == 0
    ensures m.workHistory == [] && m.isActive && m.lastActive == now
    ensures m.walletAddress == Some(wallet) && m.privateKey == Some(key)
    ensures m.employeeId == req.employeeId && m.email == req.email && m.password == req.password
    ensures m.certifications == req.certifications && m.specialties == req.specialties
  {
    MechanicModel.Mechanic(
      req.employeeId, req.name, req.email, req.password, req.certifications, req.specialties,
      0.0, 0, 0, 0.0, 0, Some(wallet), Some(key), MechanicModel.InitialPerformance, [], now, true)
  }

  /** POST /api/mechanics. The 20 and 32 random bytes of the wallet address
      and the private key, and the bcrypt hash of the password, are given. */
  method Create(db: Store, body: Validation.MechanicBody, random20: seq<byte>, random32: seq<byte>,
                hashed: string, now: Time) returns (r: Response<MechanicModel.PublicMechanic>)
    requires db.Valid()
    requires |random20| == 20 && |random32| == 32
    modifies db
    ensures db.Valid()
    ensures db.aircraft == old(db.aircraft) && db.parts == old(db.parts) && db.maintenance == old(db.maintenance)
    ensures !Validation.MechanicRulesHold(body) ==> r == Fail(400, "Validation error") && db.mechanics == old(db.mechanics)
    ensures Validation.MechanicRulesHold(body) ==>
              var req := Validation.MechanicRequestOf(body);
              var m := NewMechanic(req, GenerateWalletAddress(random20), GeneratePrivateKey(random32), now).(password := hashed);
              if MechanicTaken(old(db.mechanics), old(db.nextId), m)
              then r == Fail(400, DuplicateMechanicError) && db.mechanics == old(db.mechanics)
              else r == Ok(201, MechanicModel.ToJson(m)) && db.mechanics == old(db.mechanics)[old(db.nextId) := m]
  {
    var gate := Validation.ValidateMechanic(body);
    if gate.Rejected? {
      return Fail(400, gate.error);
    }
    var req := Validation.MechanicRequestOf(body);
    var wallet := GenerateWalletAddress(random20);
    var key := GeneratePrivateKey(random32);
    var m := NewMechanic(req, wallet, key, now);
    // a new document's password counts as modified, so the hook hashes it
    m := MechanicModel.HashPasswordOnSave(m, true, hashed);
    if MechanicTaken(db.mechanics, db.nextId, m) {
      return Fail(400, DuplicateMechanicError);
    }
    var id := db.InsertMechanic(m);
    r := Ok(201, MechanicModel.ToJson(m));
  }

  /** A created mechanic's stored password is the hash, never the plain
      text (unless the hash happens to equal it), and the response shows neither. */
  lemma CreateStoresOnlyTheHash(req: Validation.MechanicRequest, wallet: string, key: string, now: Time, hashed: string)
    requires forall i :: 0 <= i < |req.certifications| ==> req.certifications[i].name != ""
    ensures var m := NewMechanic(req, wallet, key, now).(password := hashed);
            m.password == hashed && m.walletAddress == Some(wallet)
            && MechanicModel.ToJson(m) == MechanicModel.ToJson(NewMechanic(req, wallet, key, now))
  {
    MechanicModel.ToJsonRedactsExactlyCredentials(NewMechanic(req, wallet, key, now), NewMechanic(req, wallet, key, now), hashed, Some(key));
  }

  // ---- PUT /:id ----

  /** The fields a PUT body may set; an absent field is `None`. */
  datatype MechanicPatch = MechanicPatch(
    employeeId: Option<string>,
    name: Option<string>,
    email: Option<string>,
    password: Option<string>,
    walletAddress: Option<string>,
    privateKey: Option<string>,
    certifications: Option<seq<MechanicModel.Certification>>,
    specialties: Option<seq<string>>,
    rating: Option<real>,
    tasksCompleted: Option<int>,
    tasksInProgress: Option<int>,
    reputationScore: Option<real>,
    blockchainSignatures: Option<int>,
    performance: Option<MechanicModel.Performance>,
    workHistory: Option<seq<MechanicModel.WorkRecord>>,
    lastActive: Option<Time>,
    isActive: Option<bool>)

  /** `delete req.body.password / walletAddress / privateKey`. */
  function StripCredentials(p: MechanicPatch): (q: MechanicPatch)
    ensures q.password.None? && q.walletAddress.None? && q.privateKey.None?
    ensures q == p.(password := None, walletAddress := None, privateKey := None)
  {
    p.(password := None, walletAddress := None, privateKey := None)
  }

  function Or<T>(x: Option<T>, fallback: T): T {
    if x.Some? then x.value else fallback
  }

  /** An optional field of the body replaces the stored value when present. */
  function OrKeep<T>(x: Option<T>, fallback: Option<T>): Option<T> {
    if x.Some? then x else fallback
  }

  /** The update's `$set`: every field the body supplies replaces the stored
      one, and every field it leaves out keeps its value. */
  function ApplyPatch(m: Mechanic, p: MechanicPatch): (u: Mechanic)
    ensures u.employeeId == Or(p.employeeId, m.employeeId) && u.name == Or(p.name, m.name)
    ensures u.email == Or(p.email, m.email) && u.password == Or(p.password, m.password)
    ensures p.walletAddress.Some? ==> u.walletAddress == p.walletAddress
    ensures p.walletAddress.None? ==> u.walletAddress == m.walletAddress
    ensures p.privateKey.Some? ==> u.privateKey == p.privateKey
    ensures p.privateKey.None? ==> u.privateKey == m.privateKey
    ensures u.certifications == Or(p.certifications, m.certifications)
    ensures u.specialties == Or(p.specialties, m.specialties)
    ensures u.rating == Or(p.rating, m.rating) && u.reputationScore == Or(p.reputationScore, m.reputationScore)
    ensures u.tasksCompleted == Or(p.tasksCompleted, m.tasksCompleted)
    ensures u.tasksInProgress == Or(p.tasksInProgress, m.tasksInProgress)
    ensures u.blockchainSignatures == Or(p.blockchainSignatures, m.blockchainSignatures)
    ensures u.performance == Or(p.performance, m.performance) && u.workHistory == Or(p.workHistory, m.workHistory)
    ensures u.lastActive == Or(p.lastActive, m.lastActive) && u.isActive == Or(p.isActive, m.isActive)
  {
    MechanicModel.Mechanic(
      Or(p.employeeId, m.employeeId), Or(p.name, m.name), Or(p.email, m.email), Or(p.password, m.password),
      Or(p.certifications, m.certifications), Or(p.specialties, m.specialties),
      Or(p.rating, m.rating), Or(p.tasksCompleted, m.tasksCompleted), Or(p.tasksInProgress, m.tasksInProgress),
      Or(p.reputationScore, m.reputationScore), Or(p.blockchainSignatures, m.blockchainSignatures),
      OrKeep(p.walletAddress, m.walletAddress), OrKeep(p.privateKey, m.privateKey),
      Or(p.performance, m.performance), Or(p.workHistory, m.workHistory),
      Or(p.lastActive, m.lastActive), Or(p.isActive, m.isActive))
  }

  /** A body that supplies nothing leaves the mechanic as it was. */
  lemma EmptyPatchChangesNothing(m: Mechanic)
    ensures ApplyPatch(m, MechanicPatch(None, None, None, None, None, None, None, None, None, None, None,
                                        None, None, None, None, None, None)) == m
  {
  }

  /** The update validators (`runValidators`): the bounds and required
      strings of the fields the patch sets. */
  predicate PatchRulesHold(p: MechanicPatch) {
    && (p.employeeId.Some? ==> p.employeeId.value != "")
    && (p.name.Some? ==> p.name.value != "")
    && (p.email.Some? ==> p.email.value != "")
    && (p.rating.Some? ==> MechanicModel.InRange(p.rating.value, 0.0, 5.0))
    && (p.reputationScore.Some? ==> MechanicModel.InRange(p.reputationScore.value, 0.0, 1000.0))
    && (p.performance.Some? ==> MechanicModel.PerformanceWithinSchema(p.performance.value))
    && (p.certifications.Some? ==> forall i :: 0 <= i < |p.certifications.value| ==> p.certifications.value[i].name != "")
  }

  /** A patch the validators accept keeps a mechanic within the schema. */
  lemma PatchKeepsSchema(m: Mechanic, p: MechanicPatch)
    requires MechanicModel.WithinSchema(m) && PatchRulesHold(p)
    ensures MechanicModel.WithinSchema(ApplyPatch(m, p))
  {
    var u := ApplyPatch(m, p);
    assert u.certifications == Or(p.certifications, m.certifications);
  }

  /** Whatever the body holds, a PUT leaves the password, the wallet
      address and the private key as they were. */
  lemma PutKeepsCredentials(m: Mechanic, p: MechanicPatch)
    ensures var u := ApplyPatch(m, StripCredentials(p));
            u.password == m.password && u.walletAddress == m.walletAddress && u.privateKey == m.privateKey
  {
  }

  /** PUT /api/mechanics/:id. The update validators run before the lookup,
      so an invalid body is a 400 even for an unknown id. */
  method Update(db: Store, id: Id, body: MechanicPatch) returns (r: Response<MechanicModel.PublicMechanic>)
    requires db.Valid()
    modifies db
    ensures db.Valid()
    ensures db.aircraft == old(db.aircraft) && db.parts == old(db.parts) && db.maintenance == old(db.maintenance)
    ensures var p := StripCredentials(body);
            !PatchRulesHold(p) ==> r == Fail(400, "Validation failed") && db.mechanics == old(db.mechanics)
    ensures var p := StripCredentials(body);
            PatchRulesHold(p) && id !in old(db.mechanics) ==>
              r == Fail(404, "Mechanic not found") && db.mechanics == old(db.mechanics)
    ensures var p := StripCredentials(body);
            PatchRulesHold(p) && id in old(db.mechanics) ==>
              var u := ApplyPatch(old(db.mechanics)[id], p);
              if MechanicTaken(old(db.mechanics), id, u)
              then r == Fail(400, DuplicateKeyError) && db.mechanics == old(db.mechanics)
              else r == Ok(200, MechanicModel.ToJson(u)) && db.mechanics == old(db.mechanics)[id := u]
  {
    var p := StripCredentials(body);
    if !PatchRulesHold(p) {
      return Fail(400, "Validation failed");
    }
    if id !in db.mechanics {
      return Fail(404, "Mechanic not found");
    }
    var u := ApplyPatch(db.mechanics[id], p);
    if MechanicTaken(db.mechanics, id, u) {
      return Fail(400, DuplicateKeyError);
    }
    PatchKeepsSchema(db.mechanics[id], p);
    db.SaveMechanic(id, u);
    r := Ok(200, MechanicModel.ToJson(u));
  }

  // ---- POST /:id/update-performance ----

  /** The performance fields of the body; an absent field is `None`. */
  datatype PerformanceInput = PerformanceInput(
    qualityScore: Option<real>,
    onTimeCompletion: Option<real>,
    complianceRate: Option<real>,
    rating: Option<real>)

  datatype PerformanceReport = PerformanceReport(performance: MechanicModel.Performance, rating: real, reputationScore: real)

  /** `(avg * n + x) / (n + 1)`: the mean of `n` ratings averaging `avg`
      and one more rating `x`. */
  function RunningAverage(avg: real, n: nat, x: real): (r: real)
    ensures r * (n + 1) as real == avg * n as real + x
    ensures n == 0 ==> r == x
    ensures 0.0 <= avg <= 5.0 && 0.0 <= x <= 5.0 ==> 0.0 <= r <= 5.0
  {
    var total := (n + 1) as real;
    var r := (avg * n as real + x) / total;
    assert r * total == avg * n as real + x;
    MeanBounds(avg, n as real, x, r);
    r
  }

  /** A weighted mean of two values in [0, 5] stays in [0, 5]. */
  lemma MeanBounds(avg: real, n: real, x: real, r: real)
    requires 0.0 <= n && r * (n + 1.0) == avg * n + x
    ensures 0.0 <= avg <= 5.0 && 0.0 <= x <= 5.0 ==> 0.0 <= r <= 5.0
  {
    if 0.0 <= avg <= 5.0 && 0.0 <= x <= 5.0 {
      assert 0.0 <= avg * n <= 5.0 * n;
      CancelPositive(0.0, r, n + 1.0);
      CancelPositive(r, 5.0, n + 1.0);
    }
  }

  /** `Math.round(mean of the three sub-scores * 10)`. */
  function Reputation(p: MechanicModel.Performance): (score: real)
    ensures MechanicModel.PerformanceWithinSchema(p) ==> 0.0 <= score <= 1000.0
    ensures score == (score.Floor) as real
  {
    var mean := (p.qualityScore + p.onTimeCompletion + p.complianceRate) / 3.0;
    ReputationBound(p, mean);
    Round(mean * 10.0) as real
  }

  lemma ReputationBound(p: MechanicModel.Performance, mean: real)
    requires mean == (p.qualityScore + p.onTimeCompletion + p.complianceRate) / 3.0
    ensures MechanicModel.PerformanceWithinSchema(p) ==> 0 <= Round(mean * 10.0) <= 1000
  {
    if MechanicModel.PerformanceWithinSchema(p) {
      RoundWithin(mean * 10.0, 0, 1000);
    }
  }

  /** The mechanic after the handler's field updates, before the save:
      supplied sub-scores overwrite, a supplied rating joins the running
      average over the work history, and the reputation is recomputed. */
  function PerformanceUpdated(m: Mechanic, input: PerformanceInput): (u: Mechanic)
    ensures u.performance.qualityScore == Or(input.qualityScore, m.performance.qualityScore)
    ensures u.performance.onTimeCompletion == Or(input.onTimeCompletion, m.performance.onTimeCompletion)
    ensures u.performance.complianceRate == Or(input.complianceRate, m.performance.complianceRate)
    ensures u.performance.customerSatisfaction == m.performance.customerSatisfaction
    ensures input.rating.None? ==> u.rating == m.rating
    ensures input.rating.Some? ==> u.rating == RunningAverage(m.rating, |m.workHistory|, input.rating.value)
    ensures u.reputationScore == Reputation(u.performance)
    ensures u == m.(performance := u.performance, rating := u.rating, reputationScore := u.reputationScore)
  {
    var perf := m.performance.(
      qualityScore := Or(input.qualityScore, m.performance.qualityScore),
      onTimeCompletion := Or(input.onTimeCompletion, m.performance.onTimeCompletion),
      complianceRate := Or(input.complianceRate, m.performance.complianceRate));
    var rating := if input.rating.Some? then RunningAverage(m.rating, |m.workHistory|, input.rating.value) else m.rating;
    m.(performance := perf, rating := rating, reputationScore := Reputation(perf))
  }

  /** Inputs within the schema's bounds always pass the save's validators. */
  lemma InRangeInputsSave(m: Mechanic, input: PerformanceInput)
    requires MechanicModel.WithinSchema(m)
    requires input.qualityScore.Some? ==> MechanicModel.InRange(input.qualityScore.value, 0.0, 100.0)
    requires input.onTimeCompletion.Some? ==> MechanicModel.InRange(input.onTimeCompletion.value, 0.0, 100.0)
    requires input.complianceRate.Some? ==> MechanicModel.InRange(input.complianceRate.value, 0.0, 100.0)
    requires input.rating.Some? ==> MechanicModel.InRange(input.rating.value, 0.0, 5.0)
    ensures MechanicModel.WithinSchema(PerformanceUpdated(m, input))
  {
    var u := PerformanceUpdated(m, input);
    assert MechanicModel.PerformanceWithinSchema(u.performance);
    assert u.certifications == m.certifications;
  }

  /** The handler's field-by-field updates of the loaded mechanic. */
  method ApplyPerformance(m: Mechanic, input: PerformanceInput) returns (u: Mechanic)
    ensures u == PerformanceUpdated(m, input)
  {
    var perf := m.performance;
    if input.qualityScore.Some? {
      perf := perf.(qualityScore := input.qualityScore.value);
    }
    if input.onTimeCompletion.Some? {
      perf := perf.(onTimeCompletion := input.onTimeCompletion.value);
    }
    if input.complianceRate.Some? {
      perf := perf.(complianceRate := input.complianceRate.value);
    }
    u := m.(performance := perf);
    if input.rating.Some? {
      var totalRatings := |u.workHistory|;
      var currentRatingSum := u.rating * totalRatings as real;
      u := u.(rating := (currentRatingSum + input.rating.value) / (totalRatings + 1) as real);
    }
    u := u.(reputationScore := Reputation(u.performance));
  }

  /** POST /api/mechanics/:id/update-performance. The feedback text is not
      stored. The save fails validation (400, nothing stored) when a
      supplied value is out of its bounds. */
  method UpdatePerformance(db: Store, id: Id, input: PerformanceInput) returns (r: Response<PerformanceReport>)
    requires db.Valid()
    modifies db
    ensures db.Valid()
    ensures db.aircraft == old(db.aircraft) && db.parts == old(db.parts) && db.maintenance == old(db.maintenance)
    ensures id !in old(db.mechanics) ==> r == Fail(404, "Mechanic not found") && db.mechanics == old(db.mechanics)
    ensures id in old(db.mechanics) ==>
              var u := PerformanceUpdated(old(db.mechanics)[id], input);
              if MechanicModel.WithinSchema(u)
              then r == Ok(200, PerformanceReport(u.performance, u.rating, u.reputationScore))
                   && db.mechanics == old(db.mechanics)[id := u]
              else r == Fail(400, "Validation failed") && db.mechanics == old(db.mechanics)
  {
    if id !in db.mechanics {
      return Fail(404, "Mechanic not found");
    }
    var m := ApplyPerformance(db.mechanics[id], input);
    if !MechanicModel.WithinSchema(m) {
      return Fail(400, "Validation failed");
    }
    // the password is not modified, so the save hook leaves it alone
    m := MechanicModel.HashPasswordOnSave(m, false, m.password);
    ReplaceMechanic(db.mechanics, id, m);
    db.SaveMechanic(id, m);
    r := Ok(200, PerformanceReport(m.performance, m.rating, m.reputationScore));
  }

  // ---- POST /:id/add-certification ----

  /** The certification fields of the body; an absent field is `None`. */
  datatype CertificationInput = CertificationInput(
    name: Option<string>,
    number: Option<string>,
    issuedBy: Option<string>,
    issuedDate: Option<Time>,
    expiryDate: Option<Time>)

  /** What the save accepts: a non-empty name, and two dates that parse
      (`new Date(undefined)` is an invalid date, which does not cast). */
  predicate CertificationSaves(c: CertificationInput) {
    c.name.Some? && c.name.value != "" && c.issuedDate.Some? && c.expiryDate.Some?
  }

  /** POST /api/mechanics/:id/add-certification: the new certification is
      active and goes last; the reply is the whole list. */
  method AddCertification(db: Store, id: Id, c: CertificationInput)
    returns (r: Response<seq<MechanicModel.Certification>>)
    requires db.Valid()
    modifies db
    ensures db.Valid()
    ensures db.aircraft == old(db.aircraft) && db.parts == old(db.parts) && db.maintenance == old(db.maintenance)
    ensures id !in old(db.mechanics) ==> r == Fail(404, "Mechanic not found") && db.mechanics == old(db.mechanics)
    ensures id in old(db.mechanics) && !CertificationSaves(c) ==>
              r == Fail(400, "Validation failed") && db.mechanics == old(db.mechanics)
    ensures id in old(db.mechanics) && CertificationSaves(c) ==>
              var m := old(db.mechanics)[id];
              var cert := MechanicModel.Certification(c.name.value, c.number, c.issuedBy, c.issuedDate, c.expiryDate, MechanicModel.Active);
              && r == Ok(200, m.certifications + [cert])
              && db.mechanics == old(db.mechanics)[id := m.(certifications := m.certifications + [cert])]
  {
    if id !in db.mechanics {
      return Fail(404, "Mechanic not found");
    }
    if !CertificationSaves(c) {
      return Fail(400, "Validation failed");
    }
    var m := db.mechanics[id];
    var cert := MechanicModel.Certification(c.name.value, c.number, c.issuedBy, c.issuedDate, c.expiryDate, MechanicModel.Active);
    m := m.(certifications := m.certifications + [cert]);
    assert MechanicModel.WithinSchema(m) by {
      var old_m := db.mechanics[id];
      forall i | 0 <= i < |m.certifications| ensures m.certifications[i].name != "" {
        if i < |old_m.certifications| {
          assert m.certifications[i] == old_m.certifications[i];
        }
      }
    }
    ReplaceMechanic(db.mechanics, id, m);
    db.SaveMechanic(id, m);
    r := Ok(200, m.certifications);
  }
}
