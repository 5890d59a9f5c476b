// What the calm system guarantees in every run: one place per job, one record per job, a bounded number of attempts.
module CalmResults {
  import opened Types
  import opened Lists
  import opened Database
  import opened System
  import opened Calm
  import opened CalmSafety

  // ---- One place ----

  // Main result: a job id is never in two places, nor twice in one list; a running job is in exactly one
  // processing list; and whatever a promotion could still touch is a row that says retrying.
  lemma {:induction false} OnePlacePerJob(c: CalmState, r: Run<CalmAction>, id: JobId)
    requires CalmInitial(c) && CalmValid(c, r)
    ensures var s := CalmAfter(c, r).sys;
      && (forall p, q :: At(s, id, p) && At(s, id, q) ==> p == q)
      && Once(s.pending, Id(id)) && (forall w :: w in s.processing ==> Once(s.processing[w], Id(id)))
      && (id in s.db.rows && s.db.rows[id].status == Running ==> exists w :: At(s, id, List(w)))
      && (At(s, id, Delayed) ==> id in s.db.rows && s.db.rows[id].status == Retrying)
      && (At(s, id, Pending) ==> id in s.db.rows && s.db.rows[id].status != Running)
  {
    CalmAlways(c, r);
    var s := CalmAfter(c, r).sys;
    assert JobFits(s, id);
    assert At(s, id, Delayed) ==> Fits(s, id, Delayed);
    assert At(s, id, Pending) ==> Fits(s, id, Pending);
  }

  // What the SELECT of a sweep returns: queued rows created before the cutoff, and if any such row is left out, a full
  // batch of rows at least as old.
  lemma CandidatesAreOld(db: Db, cutoff: int, cs: seq<JobId>, id: JobId)
    requires IsLowest(QueuedBefore(db, cutoff), BATCH, cs)
    ensures id in cs ==> id in db.rows && db.rows[id].status == Queued && db.rows[id].createdAt < cutoff
    ensures id in db.rows && db.rows[id].status == Queued && db.rows[id].createdAt < cutoff && id !in cs ==>
      |cs| == 100 && forall j :: j in cs ==> j in db.rows && db.rows[j].createdAt <= db.rows[id].createdAt
  {
    if id in db.rows && db.rows[id].status == Queued && db.rows[id].createdAt < cutoff {
      assert id in QueuedBefore(db, cutoff);
    }
  }

  // Main result: a job that is queued since before the cutoff and nowhere is pushed by every sweep, unless a full batch of
  // rows at least as old comes first; and a sweep pushes no job that is not queued, too young, or somewhere already.
  lemma {:induction false} SweepFindsOrphan(c: CalmState, r: Run<CalmAction>, id: JobId, cutoff: int, cs: seq<JobId>)
    requires CalmInitial(c) && CalmValid(c, r) && CalmEnabled(CalmAfter(c, r), SweepAll(cutoff, cs))
    ensures var s := CalmAfter(c, r).sys; var t := CalmNext(CalmAfter(c, r), SweepAll(cutoff, cs)).sys;
      && (id in cs ==> id in s.db.rows && s.db.rows[id].status == Queued && s.db.rows[id].createdAt < cutoff)
      && (At(t, id, Pending) <==> At(s, id, Pending) || (id in cs && Nowhere(s, id)))
    ensures var s := CalmAfter(c, r).sys;
      Nowhere(s, id) && id in s.db.rows && s.db.rows[id].status == Queued && s.db.rows[id].createdAt < cutoff && id !in cs ==>
        |cs| == 100 && forall j :: j in cs ==> j in s.db.rows && s.db.rows[j].createdAt <= s.db.rows[id].createdAt
  {
    var s := CalmAfter(c, r).sys;
    CalmAlways(c, r);
    CandidatesAreOld(s.db, cutoff, cs, id);
    OrphansOnce(s, cs, id);
    if id in cs { OrphanIsNowhere(CalmAfter(c, r), id, cutoff, cs); }
  }

  // A candidate no list holds is nowhere.
  lemma OrphanIsNowhere(c: CalmState, id: JobId, cutoff: int, cs: seq<JobId>)
    requires CalmInv(c) && CalmEnabled(c, SweepAll(cutoff, cs)) && id in cs
    ensures !HeldByRedis(c.sys, id) <==> Nowhere(c.sys, id)
  {
    var s := c.sys;
    assert JobFits(s, id);
    assert id in QueuedBefore(s.db, cutoff);
    assert forall w :: w in s.processing ==> (At(s, id, List(w)) <==> Id(id) in s.processing[w]);
    assert At(s, id, Pending) <==> Id(id) in s.pending;
    if !HeldByRedis(s, id) {
      forall pl ensures !At(s, id, pl) {
        match pl
        case Pending =>
        case List(w) =>
        case Delayed =>
        case InHand(p) =>
        case AtDoor(k) =>
      }
    }
  }

  // ---- One record ----

  // job_effects only grows.
  ghost predicate Extends(d: Db, d': Db) {
    |d.effects| <= |d'.effects| && d'.effects[..|d.effects|] == d.effects
  }

  lemma StepAddsEffects(c: CalmState, a: CalmAction)
    requires CalmEnabled(c, a)
    ensures Extends(c.sys.db, CalmNext(c, a).sys.db)
  {
    match a
    case Step(Worker(x)) => WorkerAddsEffects(c.sys, x);
    case Step(Promoter(x)) => PromoteAddsEffects(c.sys, x);
    case Step(Api(x)) => ApiAddsEffects(c.sys, x);
    case _ =>
  }

  lemma WorkerAddsEffects(s: State, a: WorkerAction)
    requires WorkerEnabled(s, a)
    ensures Extends(s.db, WorkerNext(s, a).db)
  {}

  lemma PromoteAddsEffects(s: State, a: PromoteAction)
    requires PromoteEnabled(s, a)
    ensures Extends(s.db, PromoteNext(s, a).db)
  {}

  lemma ApiAddsEffects(s: State, a: ApiAction)
    requires ApiEnabled(s, a)
    ensures Extends(s.db, ApiNext(s, a).db)
  {}

  lemma {:induction false} PrefixCount(effects: seq<Effect>, n: nat, id: JobId)
    requires n <= |effects|
    ensures EffectCount(effects[..n], id) <= EffectCount(effects, id)
    decreases |effects|
  {
    if n < |effects| {
      PrefixCount(effects[..|effects| - 1], n, id);
      assert effects[..|effects| - 1][..n] == effects[..n];
    } else {
      assert effects[..n] == effects;
    }
  }

  predicate Succeeds(s: State, id: JobId) { id in s.db.rows && s.db.rows[id].status == Succeeded }

  // Main result: although handlers fail, retries come due and dead jobs are replayed, every job is recorded
  // exactly as often as it stands at succeeded - never twice.
  lemma {:induction false} RecordedExactlyOnce(c: CalmState, r: Run<CalmAction>, id: JobId)
    requires CalmInitial(c) && CalmValid(c, r)
    ensures EffectCount(CalmAfter(c, r).sys.db.effects, id) == (if Succeeds(CalmAfter(c, r).sys, id) then 1 else 0)
  {
    CalmAlways(c, r);
    assert JobFits(CalmAfter(c, r).sys, id);
  }

  // Main result: a success is final, in every continuation of a calm run.
  lemma {:induction false} SuccessIsFinal(c: CalmState, r: Run<CalmAction>, t: Run<CalmAction>, id: JobId)
    requires CalmInitial(c) && CalmValid(c, Join(r, t)) && CalmValid(c, r)
    requires Succeeds(CalmAfter(c, r).sys, id)
    ensures Succeeds(CalmAfter(c, Join(r, t)).sys, id)
  {
    match t
    case Start =>
    case Then(t', a) =>
      SuccessIsFinal(c, r, t', id);
      var b := CalmAfter(c, Join(r, t'));
      RecordedExactlyOnce(c, Join(r, t'), id);
      RecordedExactlyOnce(c, Join(r, t), id);
      StepAddsEffects(b, a);
      PrefixCount(CalmNext(b, a).sys.db.effects, |b.sys.db.effects|, id);
  }

  // ---- The attempt budget ----

  // A restarted worker puts a running job back without looking at its attempts. This one has none left.
  predicate Overruns(s: State, a: CalmAction, id: JobId) {
    a.RecoverOwn? && Id(id) in Processing(s, a.w) && id in s.db.rows && s.db.rows[id].status == Running
    && s.db.rows[id].attempts >= s.db.rows[id].maxAttempts
  }

  predicate Claims(s: State, a: CalmAction, id: JobId) {
    && a.Step? && a.a.Worker? && a.a.worker.Claim?
    && a.a.worker.e in s.execs && s.execs[a.a.worker.e].entry == Id(id) && Claimable(s.db, id)
  }

  // Overruns of the job, and successful claims of it, since it was submitted or last replayed.
  ghost function OverrunCount(c: CalmState, r: Run<CalmAction>, id: JobId): nat {
    match r
    case Start => 0
    case Then(r', a) =>
      if a == ReplayNow(id) then 0
      else OverrunCount(c, r', id) + (if Overruns(CalmAfter(c, r').sys, a, id) then 1 else 0)
  }

  ghost function ClaimCount(c: CalmState, r: Run<CalmAction>, id: JobId): nat {
    match r
    case Start => 0
    case Then(r', a) =>
      if a == ReplayNow(id) then 0
      else ClaimCount(c, r', id) + (if Claims(CalmAfter(c, r').sys, a, id) then 1 else 0)
  }

  // What `k` overruns make of a row's attempts: without any, max_attempts is kept; after the first, every overrun is
  // followed by exactly one more claim.
  predicate Spent(row: Row, k: nat) {
    if k == 0 then
      && row.attempts <= row.maxAttempts
      && (row.status == Queued || row.status == Retrying ==> row.attempts < row.maxAttempts)
      && (row.status == Dead ==> row.attempts == row.maxAttempts)
    else
      && row.status != Retrying
      && (row.status == Queued ==> row.attempts == row.maxAttempts + k - 1)
      && (row.status == Running || row.status == Succeeded ==> row.attempts == row.maxAttempts + k)
      && (row.status == Dead ==> row.attempts == row.maxAttempts + k - 1 || row.attempts == row.maxAttempts + k)
  }

  ghost predicate Budgeted(s: State, id: JobId, k: nat, claims: nat) {
    if id in s.db.rows then Spent(s.db.rows[id], k) && s.db.rows[id].attempts == claims
    else k == 0 && claims == 0
  }

  lemma WorkerSpends(c: CalmState, a: WorkerAction, id: JobId, k: nat, claims: nat)
    requires CalmInv(c) && Budgeted(c.sys, id, k, claims) && CalmEnabled(c, Step(Worker(a)))
    ensures Budgeted(CalmNext(c, Step(Worker(a))).sys, id, k, claims + (if Claims(c.sys, Step(Worker(a)), id) then 1 else 0))
  {
    assert JobFits(c.sys, id);
  }

  lemma RecoverSpends(c: CalmState, w: WorkerId, id: JobId, k: nat, claims: nat)
    requires Budgeted(c.sys, id, k, claims) && CalmEnabled(c, RecoverOwn(w))
    ensures Budgeted(RecoveredBy(c.sys, w), id, k + (if Overruns(c.sys, RecoverOwn(w), id) then 1 else 0), claims)
  {
    assert id in JobsIn(Processing(c.sys, w)) <==> Id(id) in Processing(c.sys, w);
  }

  lemma OtherSpends(c: CalmState, a: CalmAction, id: JobId, k: nat, claims: nat)
    requires CalmInv(c) && Budgeted(c.sys, id, k, claims) && CalmEnabled(c, a) && !a.Step? && a != ReplayNow(id)
    ensures Budgeted(CalmNext(c, a).sys, id, k + (if Overruns(c.sys, a, id) then 1 else 0), claims)
  {
    hide CalmInv;
    if a.RecoverOwn? { RecoverSpends(c, a.w, id, k, claims); }
  }

  lemma PromoteSpends(c: CalmState, a: PromoteAction, id: JobId, k: nat, claims: nat)
    requires CalmInv(c) && Budgeted(c.sys, id, k, claims) && CalmEnabled(c, Step(Promoter(a)))
    ensures Budgeted(CalmNext(c, Step(Promoter(a))).sys, id, k, claims)
  {
    assert JobFits(c.sys, id);
    if a.PromoteUpdate? && c.sys.promotions[a.p].hand.job == id { assert At(c.sys, id, InHand(a.p)); }
  }

  lemma ApiSpends(c: CalmState, a: ApiAction, id: JobId, k: nat, claims: nat)
    requires CalmInv(c) && Budgeted(c.sys, id, k, claims) && CalmEnabled(c, Step(Api(a)))
    ensures Budgeted(CalmNext(c, Step(Api(a))).sys, id, k, claims)
  {}

  lemma ReplaySpends(c: CalmState, id: JobId)
    requires CalmInv(c) && CalmEnabled(c, ReplayNow(id))
    ensures Budgeted(CalmNext(c, ReplayNow(id)).sys, id, 0, 0)
  {
    assert JobFits(c.sys, id);
  }

  // Main result: attempts count exactly the claims since the last replay, and the overruns since then say how far they
  // go: up to max_attempts without any, and by one past it for each.
  lemma {:induction false} AttemptBudget(c: CalmState, r: Run<CalmAction>, id: JobId)
    requires CalmInitial(c) && CalmValid(c, r)
    ensures Budgeted(CalmAfter(c, r).sys, id, OverrunCount(c, r, id), ClaimCount(c, r, id))
  {
    match r
    case Start =>
    case Then(r', a) =>
      AttemptBudget(c, r', id);
      CalmAlways(c, r');
      hide CalmInv, CalmNext, CalmEnabled, Budgeted;
      StepSpends(CalmAfter(c, r'), a, id, OverrunCount(c, r', id), ClaimCount(c, r', id));
  }

  lemma StepSpends(b: CalmState, a: CalmAction, id: JobId, k: nat, claims: nat)
    requires CalmInv(b) && CalmEnabled(b, a) && Budgeted(b.sys, id, k, claims)
    ensures Budgeted(CalmNext(b, a).sys, id,
                     if a == ReplayNow(id) then 0 else k + if Overruns(b.sys, a, id) then 1 else 0,
                     if a == ReplayNow(id) then 0 else claims + if Claims(b.sys, a, id) then 1 else 0)
  {
    hide CalmInv, Budgeted;
    if a == ReplayNow(id) {
      ReplaySpends(b, id);
    } else if a.Step? {
      match a.a
      case Worker(x) => WorkerSpends(b, x, id, k, claims);
      case Promoter(x) => PromoteSpends(b, x, id, k, claims);
      case Api(x) => ApiSpends(b, x, id, k, claims);
    } else {
      OtherSpends(b, a, id, k, claims);
    }
  }

  // Main result: max_attempts is exceeded exactly by a job that a restarted worker put back after its last attempt:
  // by one that runs or has succeeded, once that has happened; by one that is queued, once it has happened twice.
  lemma {:induction false} OverBudgetExactly(c: CalmState, r: Run<CalmAction>, id: JobId)
    requires CalmInitial(c) && CalmValid(c, r) && id in CalmAfter(c, r).sys.db.rows
    ensures var row, k := CalmAfter(c, r).sys.db.rows[id], OverrunCount(c, r, id);
      && (row.status == Running || row.status == Succeeded ==> (row.attempts > row.maxAttempts <==> k > 0))
      && (row.status == Queued ==> (row.attempts > row.maxAttempts <==> k > 1))
      && (row.status == Retrying ==> k == 0 && row.attempts < row.maxAttempts)
      && (row.status == Dead && row.attempts > row.maxAttempts ==> k > 0)
      && (row.status == Dead && k > 1 ==> row.attempts > row.maxAttempts)
  {
    AttemptBudget(c, r, id);
  }

  // Main result: a job that was never put back after its last attempt is dead after exactly max_attempts claims, even
  // one that kills every worker that runs it; it is never claimed once more.
  lemma {:induction false} DeadAfterExactlyMaxClaims(c: CalmState, r: Run<CalmAction>, id: JobId)
    requires CalmInitial(c) && CalmValid(c, r) && OverrunCount(c, r, id) == 0
    requires id in CalmAfter(c, r).sys.db.rows
    ensures var row := CalmAfter(c, r).sys.db.rows[id];
      && ClaimCount(c, r, id) <= row.maxAttempts
      && (row.status == Dead ==> ClaimCount(c, r, id) == row.maxAttempts)
      && (Claimable(CalmAfter(c, r).sys.db, id) ==> ClaimCount(c, r, id) < row.maxAttempts)
  {
    AttemptBudget(c, r, id);
  }
}
