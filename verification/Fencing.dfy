// What the lease guarantees in every run of the free system, whatever crashes, restarts,
// false suspicions and duplicate list entries occur.
module Fencing {
  import opened Types
  import opened Database
  import opened System

  predicate HasLease(x: Exec) { x.entry.Id? && (x.pc.Handling? || x.pc.Failing?) }

  predicate InFlight(s: State, e: ActorId) { e in s.execs && HasLease(s.execs[e]) }

  predicate RowOwnedBy(s: State, x: Exec)
    requires HasLease(x)
  {
    x.entry.job in s.db.rows && s.db.rows[x.entry.job].lease == Some(x.pc.lease)
  }

  // 0 when the job was never claimed, otherwise one more than its lease
  function LeaseRank(db: Db, id: JobId): nat {
    if id in db.rows && db.rows[id].lease.Some? then db.rows[id].lease.value + 1 else 0
  }

  // Leases in use are distinct, were all handed out already, and never exceed the one on the row.
  ghost predicate LeasesOrdered(s: State) {
    && (forall id :: id in s.db.rows ==> LeaseRank(s.db, id) <= s.db.nextLease)
    && (forall e :: InFlight(s, e) ==> s.execs[e].pc.lease < LeaseRank(s.db, s.execs[e].entry.job))
    && (forall e, f :: InFlight(s, e) && InFlight(s, f) && e != f ==> s.execs[e].pc.lease != s.execs[f].pc.lease)
  }

  // An execution that still owns its row has not recorded anything yet.
  ghost predicate OwnersUnsettled(s: State) {
    forall e :: InFlight(s, e) && RowOwnedBy(s, s.execs[e]) ==>
      s.db.rows[s.execs[e].entry.job].status != Succeeded
  }

  // Effects of one job come in strictly increasing claim order, none of them from a claim still in flight.
  ghost predicate EffectsOrdered(s: State) {
    && (forall i :: 0 <= i < |s.db.effects| ==>
         s.db.effects[i].claim < LeaseRank(s.db, s.db.effects[i].job))
    && (forall i, j :: 0 <= i < j < |s.db.effects| && s.db.effects[i].job == s.db.effects[j].job ==>
         s.db.effects[i].claim < s.db.effects[j].claim)
    && (forall i, e :: 0 <= i < |s.db.effects| && InFlight(s, e) && s.execs[e].entry.job == s.db.effects[i].job ==>
         s.execs[e].pc.lease != s.db.effects[i].claim)
  }

  ghost predicate Fenced(s: State) {
    s.fencing && LeasesOrdered(s) && OwnersUnsettled(s) && EffectsOrdered(s)
  }

  // A write that hands out no lease, records no effect and lets no row succeed.
  ghost predicate QuietDb(d: Db, d': Db) {
    && d'.effects == d.effects && d'.nextLease == d.nextLease
    && (forall id :: id in d.rows ==> id in d'.rows && d'.rows[id].lease == d.rows[id].lease)
    && (forall id :: id in d'.rows && id !in d.rows ==> d'.rows[id].lease == None)
    && (forall id :: id in d'.rows && d'.rows[id].status == Succeeded ==>
         id in d.rows && d.rows[id].status == Succeeded)
  }

  // A step that starts no execution past its claim.
  ghost predicate QuietExecs(s: State, t: State) {
    forall e :: InFlight(t, e) ==>
      InFlight(s, e) && t.execs[e].entry == s.execs[e].entry && t.execs[e].pc.lease == s.execs[e].pc.lease
  }

  ghost predicate Quiet(s: State, t: State) {
    t.fencing == s.fencing && QuietDb(s.db, t.db) && QuietExecs(s, t)
  }

  lemma RestoreQuiet(db: Db, ids: set<JobId>)
    ensures QuietDb(db, RestoreRunning(db, ids))
  {}

  lemma InsertQuiet(db: Db, id: JobId, key: Option<string>, now: int)
    requires id !in db.rows
    ensures QuietDb(db, InsertRow(db, id, key, now).0)
  {}

  lemma WorkerQuiet(s: State, a: WorkerAction)
    requires WorkerEnabled(s, a) && !a.Claim? && !a.Settle?
    ensures Quiet(s, WorkerNext(s, a))
  {
    var t := WorkerNext(s, a);
    assert QuietDb(s.db, t.db);
    match a
    case Take(w, e) => assert QuietExecs(s, t);
    case TakeLost(w) =>
    case Kill(w) => assert QuietExecs(s, t);
    case Release(e) => assert QuietExecs(s, t);
    case Abandon(e) => assert QuietExecs(s, t);
    case SelectRow(e) => assert QuietExecs(s, t);
    case Throw(e) => assert QuietExecs(s, t);
    case Resolve(e) => assert QuietExecs(s, t);
    case Zadd(e, due) => assert QuietExecs(s, t);
    case Beat(w) =>
    case Expire(w) =>
  }

  lemma RecoveryQuiet(s: State, a: RecoveryAction)
    requires RecoveryEnabled(s, a)
    ensures var t := RecoveryNext(s, a); t.execs == s.execs && t.fencing == s.fencing && QuietDb(s.db, t.db)
  {
    if a.RecoverRestore? { RestoreQuiet(s.db, s.recoveries[a.r].pc.stranded); }
  }

  lemma ReapQuiet(s: State, a: ReapAction)
    requires ReapEnabled(s, a)
    ensures var t := ReapNext(s, a); t.execs == s.execs && t.fencing == s.fencing && QuietDb(s.db, t.db)
  {}

  lemma SweepQuiet(s: State, a: SweepAction)
    requires SweepEnabled(s, a)
    ensures var t := SweepNext(s, a); t.execs == s.execs && t.fencing == s.fencing && t.db == s.db
  {}

  lemma PromoteQuiet(s: State, a: PromoteAction)
    requires PromoteEnabled(s, a)
    ensures var t := PromoteNext(s, a); t.execs == s.execs && t.fencing == s.fencing && QuietDb(s.db, t.db)
  {}

  lemma ApiQuiet(s: State, a: ApiAction)
    requires ApiEnabled(s, a)
    ensures var t := ApiNext(s, a); t.execs == s.execs && t.fencing == s.fencing && QuietDb(s.db, t.db)
  {
    if a.SubmitInsert? { InsertQuiet(s.db, a.id, a.key, a.now); }
  }

  lemma OthersQuiet(s: State, a: Action)
    requires Enabled(s, a) && !a.Worker?
    ensures Quiet(s, Next(s, a)) && Next(s, a).execs == s.execs
  {
    match a
    case Recover(x) => RecoveryQuiet(s, x);
    case Reaper(x) => ReapQuiet(s, x);
    case Sweeper(x) => SweepQuiet(s, x);
    case Promoter(x) => PromoteQuiet(s, x);
    case Api(x) => ApiQuiet(s, x);
  }

  lemma QuietRank(d: Db, d': Db, id: JobId)
    requires QuietDb(d, d')
    ensures LeaseRank(d', id) == LeaseRank(d, id)
  {}

  lemma QuietKeepsFenced(s: State, t: State)
    requires Fenced(s) && Quiet(s, t)
    ensures Fenced(t)
  {
    forall id ensures LeaseRank(t.db, id) == LeaseRank(s.db, id) { QuietRank(s.db, t.db, id); }
    forall e | InFlight(t, e) && RowOwnedBy(t, t.execs[e])
      ensures t.db.rows[t.execs[e].entry.job].status != Succeeded
    {
      assert InFlight(s, e);
      assert s.execs[e].entry.job in s.db.rows;
    }
  }

  // The new execution's lease is above every lease and every effect so far.
  lemma ClaimKeepsFenced(s: State, e: ActorId)
    requires Fenced(s) && WorkerEnabled(s, WorkerAction.Claim(e))
    ensures Fenced(WorkerNext(s, WorkerAction.Claim(e)))
  {
    var t := WorkerNext(s, WorkerAction.Claim(e));
    var id := s.execs[e].entry.job;
    assert forall f :: InFlight(t, f) && f != e ==> InFlight(s, f) && t.execs[f] == s.execs[f];
    if !Claimable(s.db, id) {
      assert QuietExecs(s, t);
      QuietKeepsFenced(s, t);
    } else {
      ClaimedKeepsFenced(s, t, e, id);
    }
  }

  lemma ClaimedKeepsFenced(s: State, t: State, e: ActorId, id: JobId)
    requires Fenced(s) && Claimable(s.db, id) && t.db == ClaimRow(s.db, id).0 && t.fencing
    requires InFlight(t, e) && t.execs[e].entry == Id(id) && t.execs[e].pc.lease == s.db.nextLease
    requires forall f :: InFlight(t, f) && f != e ==> InFlight(s, f) && t.execs[f] == s.execs[f]
    ensures Fenced(t)
  {
    assert forall j :: j != id ==> LeaseRank(t.db, j) == LeaseRank(s.db, j);
    assert LeaseRank(t.db, id) == s.db.nextLease + 1 > LeaseRank(s.db, id);
  }

  lemma SettleKeepsFenced(s: State, e: ActorId)
    requires Fenced(s) && WorkerEnabled(s, Settle(e))
    ensures Fenced(WorkerNext(s, Settle(e)))
  {
    var t := WorkerNext(s, Settle(e));
    assert InFlight(s, e);
    forall f | InFlight(t, f) ensures f != e && InFlight(s, f) && t.execs[f] == s.execs[f] {}
    if LeaseHeld(s.db, s.fencing, s.execs[e].entry.job, s.execs[e].pc.lease) {
      RecordedKeepsFenced(s, t, e);
    } else {
      QuietKeepsFenced(s, t);
    }
  }

  lemma RecordedKeepsFenced(s: State, t: State, e: ActorId)
    requires Fenced(s) && InFlight(s, e) && RowOwnedBy(s, s.execs[e]) && t.fencing
    requires t.db == SettleRow(s.db, true, s.execs[e].entry.job, s.execs[e].pc.lease, s.execs[e].worker)
    requires forall f :: InFlight(t, f) ==> f != e && InFlight(s, f) && t.execs[f] == s.execs[f]
    ensures Fenced(t)
  {
    forall id ensures LeaseRank(t.db, id) == LeaseRank(s.db, id) {}
  }

  lemma StepKeepsFenced(s: State, a: Action)
    requires Fenced(s) && Enabled(s, a)
    ensures Fenced(Next(s, a))
  {
    match a
    case Worker(Claim(e)) => ClaimKeepsFenced(s, e);
    case Worker(Settle(e)) => SettleKeepsFenced(s, e);
    case Worker(w) =>
      WorkerQuiet(s, w);
      QuietKeepsFenced(s, Next(s, a));
    case _ =>
      OthersQuiet(s, a);
      QuietKeepsFenced(s, Next(s, a));
  }

  // Main result: the fencing invariant holds in every state of every run.
  lemma {:induction false} FencedAlways(s: State, r: Run<Action>)
    requires Initial(s) && s.fencing && Valid(s, r)
    ensures Fenced(After(s, r))
  {
    match r
    case Start =>
    case Then(r', a) =>
      FencedAlways(s, r');
      StepKeepsFenced(After(s, r'), a);
  }

  // ---- The row's lease is the latest claim's ----

  // The lease issued by the last successful claim of the job in the run.
  ghost function LatestClaim(s: State, r: Run<Action>, id: JobId): Option<Lease> {
    match r
    case Start => None
    case Then(r', a) =>
      var b := After(s, r');
      if && Enabled(b, a) && a.Worker? && a.worker.Claim?
         && b.execs[a.worker.e].entry.job == id && Claimable(b.db, id)
      then Some(b.db.nextLease)
      else LatestClaim(s, r', id)
  }

  // Later claims get later leases, so the row always names its latest claimant.
  lemma {:induction false} RowNamesLatestClaim(s: State, r: Run<Action>, id: JobId)
    requires Initial(s) && Valid(s, r)
    ensures id in After(s, r).db.rows ==> After(s, r).db.rows[id].lease == LatestClaim(s, r, id)
    ensures id !in After(s, r).db.rows ==> LatestClaim(s, r, id) == None
    ensures LatestClaim(s, r, id).Some? ==> LatestClaim(s, r, id).value < After(s, r).db.nextLease
  {
    match r
    case Start =>
    case Then(r', a) =>
      RowNamesLatestClaim(s, r', id);
      var b := After(s, r');
      if a.Worker? && a.worker.Claim? {
      } else if a.Worker? && a.worker.Settle? {
        SettleKeepsLeases(b, a.worker.e, id);
      } else {
        if a.Worker? { WorkerQuiet(b, a.worker); } else { OthersQuiet(b, a); }
        RankDecides(b, Next(b, a), id);
        hide Next, Quiet;
      }
  }

  lemma SettleKeepsLeases(s: State, e: ActorId, id: JobId)
    requires WorkerEnabled(s, Settle(e))
    ensures var t := WorkerNext(s, Settle(e)).db;
      && (id in t.rows <==> id in s.db.rows) && t.nextLease == s.db.nextLease
      && (id in t.rows ==> t.rows[id].lease == s.db.rows[id].lease)
  {}

  lemma RankDecides(s: State, t: State, id: JobId)
    requires Quiet(s, t)
    ensures t.db.nextLease == s.db.nextLease
    ensures id in s.db.rows ==> id in t.db.rows && t.db.rows[id].lease == s.db.rows[id].lease
    ensures id !in s.db.rows && id in t.db.rows ==> t.db.rows[id].lease == None
  {
    if id in t.db.rows {
      assert LeaseRank(t.db, id) == LeaseRank(s.db, id);
    }
  }

  // ---- A superseded execution never writes again ----

  lemma StepLeaseGrows(s: State, a: Action, id: JobId)
    requires Fenced(s) && Enabled(s, a)
    ensures LeaseRank(s.db, id) <= LeaseRank(Next(s, a).db, id)
  {
    match a
    case Worker(w) => if !w.Claim? && !w.Settle? { WorkerQuiet(s, w); }
    case _ => OthersQuiet(s, a);
  }

  lemma {:induction false} LeaseGrows(s: State, r: Run<Action>, t: Run<Action>, id: JobId)
    requires Initial(s) && s.fencing && Valid(s, Join(r, t))
    ensures Valid(s, r)
    ensures LeaseRank(After(s, r).db, id) <= LeaseRank(After(s, Join(r, t)).db, id)
  {
    match t
    case Start =>
    case Then(t', a) =>
      LeaseGrows(s, r, t', id);
      FencedAlways(s, Join(r, t'));
      StepLeaseGrows(After(s, Join(r, t')), a, id);
  }

  // Execution e holds `lease` on job `id`, and the row has since been claimed again.
  ghost predicate Superseded(s: State, e: ActorId, id: JobId, lease: Lease) {
    Carries(s, e, id, lease) && lease + 1 < LeaseRank(s.db, id)
  }

  predicate Carries(s: State, e: ActorId, id: JobId, lease: Lease) {
    InFlight(s, e) && s.execs[e].entry == Id(id) && s.execs[e].pc.lease == lease
  }

  // Whether it settles, buries or parks: neither table changes, and only its LREM is left.
  predicate FencedOut(s: State, e: ActorId) {
    && (WorkerEnabled(s, Settle(e)) ==> LeavesIt(s, WorkerNext(s, Settle(e)), e))
    && (WorkerEnabled(s, Resolve(e)) ==> LeavesIt(s, WorkerNext(s, Resolve(e)), e))
  }

  predicate LeavesIt(s: State, t: State, e: ActorId) {
    t.db == s.db && e in t.execs && t.execs[e].pc == Releasing
  }

  lemma SupersededIsFencedOut(s: State, e: ActorId, id: JobId, lease: Lease)
    requires s.fencing && Superseded(s, e, id, lease)
    ensures FencedOut(s, e)
  {
    assert !LeaseHeld(s.db, true, id, lease);
    if WorkerEnabled(s, Settle(e)) { SettleLeaves(s, e); }
    if WorkerEnabled(s, Resolve(e)) { ResolveLeaves(s, e); }
    hide WorkerNext, LeavesIt;
  }

  lemma SettleLeaves(s: State, e: ActorId)
    requires WorkerEnabled(s, Settle(e)) && !LeaseHeld(s.db, s.fencing, s.execs[e].entry.job, s.execs[e].pc.lease)
    ensures LeavesIt(s, WorkerNext(s, Settle(e)), e)
  {}

  lemma ResolveLeaves(s: State, e: ActorId)
    requires WorkerEnabled(s, Resolve(e)) && !LeaseHeld(s.db, s.fencing, s.execs[e].entry.job, s.execs[e].pc.lease)
    ensures LeavesIt(s, WorkerNext(s, Resolve(e)), e)
  {}

  // Main result: once a newer claim exists, whatever the older execution does later - settle, bury or park -
  // changes neither table, in any continuation of the run, and an attempt to park schedules no retry.
  lemma {:induction false} SupersededWritesNothing(
    s: State, r: Run<Action>, t: Run<Action>, e: ActorId, id: JobId, lease: Lease)
    requires Initial(s) && s.fencing && Valid(s, Join(r, t))
    requires Superseded(After(s, r), e, id, lease)
    ensures Carries(After(s, Join(r, t)), e, id, lease) ==> FencedOut(After(s, Join(r, t)), e)
  {
    LeaseGrows(s, r, t, id);
    FencedAlways(s, Join(r, t));
    hide WorkerNext, FencedOut;
    var u := After(s, Join(r, t));
    if Carries(u, e, id, lease) { SupersededIsFencedOut(u, e, id, lease); }
  }

  // ---- Exact effect accounting ----

  // A write by id alone - a promotion's or a reaper's - lands on a row that already succeeded.
  ghost predicate Overwrites(s: State, a: Action, id: JobId) {
    && Enabled(s, a)
    && id in s.db.rows && s.db.rows[id].status == Succeeded
    && match a
       case Promoter(PromoteUpdate(p)) => s.promotions[p].hand.job == id
       case Reaper(ReapUpdate(r)) => s.reaps[r].pc.job == id
       case _ => false
  }

  ghost function OverwriteCount(s: State, r: Run<Action>, id: JobId): nat {
    match r
    case Start => 0
    case Then(r', a) => OverwriteCount(s, r', id) + (if Overwrites(After(s, r'), a, id) then 1 else 0)
  }

  predicate Done(s: State, id: JobId) { id in s.db.rows && s.db.rows[id].status == Succeeded }

  function DoneCount(s: State, id: JobId): nat { if Done(s, id) then 1 else 0 }

  lemma WorkerAccounting(s: State, a: WorkerAction, id: JobId)
    requires Fenced(s) && WorkerEnabled(s, a) && !a.Settle?
    ensures var t := WorkerNext(s, a); t.db.effects == s.db.effects && Done(t, id) == Done(s, id)
  {
    match a
    case Resolve(e) => assert InFlight(s, e);
    case Claim(e) =>
    case _ =>
  }

  lemma SettleAccounting(s: State, e: ActorId, id: JobId)
    requires Fenced(s) && WorkerEnabled(s, Settle(e))
    ensures var t := WorkerNext(s, Settle(e));
      EffectCount(t.db.effects, id) + DoneCount(s, id) == EffectCount(s.db.effects, id) + DoneCount(t, id)
  {
    var x := s.execs[e];
    assert InFlight(s, e);
    EffectCountAppend(s.db.effects, Effect(x.entry.job, x.worker, x.pc.lease), id);
  }

  lemma RecoveryAccounting(s: State, a: RecoveryAction, id: JobId)
    requires RecoveryEnabled(s, a)
    ensures var t := RecoveryNext(s, a); t.db.effects == s.db.effects && Done(t, id) == Done(s, id)
  {}

  lemma ReapAccounting(s: State, a: ReapAction, id: JobId)
    requires ReapEnabled(s, a)
    ensures var t := ReapNext(s, a);
      t.db.effects == s.db.effects && Done(t, id) == (Done(s, id) && !Overwrites(s, Reaper(a), id))
  {}

  lemma PromoteAccounting(s: State, a: PromoteAction, id: JobId)
    requires PromoteEnabled(s, a)
    ensures var t := PromoteNext(s, a);
      t.db.effects == s.db.effects && Done(t, id) == (Done(s, id) && !Overwrites(s, Promoter(a), id))
  {}

  lemma ApiAccounting(s: State, a: ApiAction, id: JobId)
    requires ApiEnabled(s, a)
    ensures var t := ApiNext(s, a); t.db.effects == s.db.effects && Done(t, id) == Done(s, id)
  {}

  lemma StepAccounting(s: State, a: Action, id: JobId)
    requires Fenced(s) && Enabled(s, a)
    ensures var t := Next(s, a);
      EffectCount(t.db.effects, id) + DoneCount(s, id)
      == EffectCount(s.db.effects, id) + DoneCount(t, id) + (if Overwrites(s, a, id) then 1 else 0)
  {
    match a
    case Worker(x) => if x.Settle? { SettleAccounting(s, x.e, id); } else { WorkerAccounting(s, x, id); }
    case Recover(x) => RecoveryAccounting(s, x, id);
    case Reaper(x) => ReapAccounting(s, x, id);
    case Sweeper(x) => SweepQuiet(s, x);
    case Promoter(x) => PromoteAccounting(s, x, id);
    case Api(x) => ApiAccounting(s, x, id);
  }

  // Main result: in every run, a job's effects are exactly its success, if it has one,
  // plus one for every time a promotion or reaper UPDATE overwrote an earlier success.
  lemma {:induction false} EffectAccounting(s: State, r: Run<Action>, id: JobId)
    requires Initial(s) && s.fencing && Valid(s, r)
    ensures EffectCount(After(s, r).db.effects, id) == DoneCount(After(s, r), id) + OverwriteCount(s, r, id)
  {
    match r
    case Start =>
    case Then(r', a) =>
      EffectAccounting(s, r', id);
      FencedAlways(s, r');
      StepAccounting(After(s, r'), a, id);
  }

  // ---- At most one effect although live workers are suspected ----

  // No handler throws, and no reaper writes a row that changed since it read it.
  ghost predicate Steady(s: State, r: Run<Action>) {
    match r
    case Start => true
    case Then(r', a) => Steady(s, r') && SteadyStep(After(s, r'), a)
  }

  ghost predicate SteadyStep(s: State, a: Action) {
    && !(a.Worker? && a.worker.Throw?)
    && (Enabled(s, a) && a.Reaper? && a.reap.ReapUpdate? ==>
         Find(s.db, s.reaps[a.reap.r].pc.job) == Some(s.reaps[a.reap.r].pc.seen))
  }

  // Nothing is parked for a retry, and a reaper only ever decides to write rows it saw unfinished.
  ghost predicate NothingParked(s: State) {
    && s.delayed == map[]
    && (forall p :: p in s.promotions ==> s.promotions[p].hand == Empty)
    && (forall e :: e in s.execs ==> !s.execs[e].pc.Failing? && !s.execs[e].pc.Parking?)
    && (forall r :: r in s.reaps && (s.reaps[r].pc.Burying? || s.reaps[r].pc.Requeueing?) ==>
         s.reaps[r].pc.seen.status in {Queued, Running})
  }

  lemma WorkerNothingParked(s: State, a: WorkerAction)
    requires NothingParked(s) && WorkerEnabled(s, a) && !a.Throw?
    ensures NothingParked(WorkerNext(s, a))
  {}

  lemma ReapNothingParked(s: State, a: ReapAction)
    requires NothingParked(s) && ReapEnabled(s, a)
    ensures NothingParked(ReapNext(s, a))
  {}

  lemma PromoteNothingParked(s: State, a: PromoteAction)
    requires NothingParked(s) && PromoteEnabled(s, a)
    ensures NothingParked(PromoteNext(s, a))
  {
    if a.PromoteRead? { assert DueBy(s.delayed, a.now) == map[]; }
  }

  lemma StepNothingParked(s: State, a: Action)
    requires NothingParked(s) && Enabled(s, a) && SteadyStep(s, a)
    ensures NothingParked(Next(s, a))
  {
    match a
    case Worker(x) => WorkerNothingParked(s, x);
    case Recover(x) => RecoveryParking(s, x);
    case Reaper(x) => ReapNothingParked(s, x);
    case Sweeper(x) => SweepParking(s, x);
    case Promoter(x) => PromoteNothingParked(s, x);
    case Api(x) => ApiParking(s, x);
  }

  lemma RecoveryParking(s: State, a: RecoveryAction)
    requires RecoveryEnabled(s, a)
    ensures var t := RecoveryNext(s, a);
      t.delayed == s.delayed && t.promotions == s.promotions && t.execs == s.execs && t.reaps == s.reaps
  {}

  lemma SweepParking(s: State, a: SweepAction)
    requires SweepEnabled(s, a)
    ensures var t := SweepNext(s, a);
      t.delayed == s.delayed && t.promotions == s.promotions && t.execs == s.execs && t.reaps == s.reaps
  {}

  lemma ApiParking(s: State, a: ApiAction)
    requires ApiEnabled(s, a)
    ensures var t := ApiNext(s, a);
      t.delayed == s.delayed && t.promotions == s.promotions && t.execs == s.execs && t.reaps == s.reaps
  {}

  lemma SteadyStepKeepsSuccess(s: State, a: Action, id: JobId)
    requires Fenced(s) && NothingParked(s) && Enabled(s, a) && SteadyStep(s, a)
    ensures !Overwrites(s, a, id)
    ensures Done(s, id) ==> Done(Next(s, a), id)
  {
    match a
    case Worker(x) => if !x.Settle? { WorkerAccounting(s, x, id); }
    case Recover(x) => RecoveryAccounting(s, x, id);
    case Reaper(x) => ReapAccounting(s, x, id);
    case Sweeper(x) => SweepQuiet(s, x);
    case Promoter(x) => PromoteAccounting(s, x, id);
    case Api(x) => ApiAccounting(s, x, id);
  }

  lemma {:induction false} SteadyRun(s: State, r: Run<Action>, id: JobId)
    requires Initial(s) && s.fencing && s.delayed == map[] && Valid(s, r) && Steady(s, r)
    ensures NothingParked(After(s, r)) && OverwriteCount(s, r, id) == 0
  {
    match r
    case Start =>
    case Then(r', a) =>
      SteadyRun(s, r', id);
      FencedAlways(s, r');
      StepNothingParked(After(s, r'), a);
      SteadyStepKeepsSuccess(After(s, r'), a, id);
  }

  // Main result: such a run records each job at most once, exactly when the job stands at succeeded.
  lemma {:induction false} AtMostOneEffect(s: State, r: Run<Action>, id: JobId)
    requires Initial(s) && s.fencing && s.delayed == map[] && Valid(s, r) && Steady(s, r)
    ensures EffectCount(After(s, r).db.effects, id) == DoneCount(After(s, r), id)
  {
    SteadyRun(s, r, id);
    EffectAccounting(s, r, id);
  }

  // And a success is never taken back, in any steady continuation.
  lemma {:induction false} SuccessIsAbsorbing(s: State, r: Run<Action>, t: Run<Action>, id: JobId)
    requires Initial(s) && s.fencing && s.delayed == map[]
    requires Valid(s, Join(r, t)) && Steady(s, Join(r, t))
    requires Done(After(s, r), id)
    ensures Done(After(s, Join(r, t)), id)
  {
    match t
    case Start =>
    case Then(t', a) =>
      SuccessIsAbsorbing(s, r, t', id);
      SteadyRun(s, Join(r, t'), id);
      FencedAlways(s, Join(r, t'));
      SteadyStepKeepsSuccess(After(s, Join(r, t')), a, id);
  }
}
