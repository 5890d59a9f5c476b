// What the calm system does not promise: each way of cutting a retry short really loses jobs, and restarts really spend
// attempts without end. And what its rules buy: no execution ever finds that it lost its lease.
module CalmLimits {
  import opened Types
  import opened Lists
  import opened Database
  import opened System
  import opened Calm
  import opened CalmSafety
  import opened CalmStranded
  import opened CalmOutcome
  import opened CalmProgress

  // Main result: in a calm run the lease check of a settling, burying or parking execution always passes.
  lemma {:induction false} NeverFencedOut(c: CalmState, r: Run<CalmAction>, e: ActorId)
    requires CalmInitial(c) && CalmValid(c, r)
    requires e in CalmAfter(c, r).sys.execs
    ensures var s := CalmAfter(c, r).sys; var x := s.execs[e];
      x.pc.Handling? || x.pc.Failing? ==>
        x.entry.Id? && LeaseHeld(s.db, s.fencing, x.entry.job, x.pc.lease) && s.db.rows[x.entry.job].status == Running
  {
    CalmAlways(c, r);
    var s := CalmAfter(c, r).sys;
    assert s.execs[e].entry.Id?;
    assert JobFits(s, s.execs[e].entry.job);
  }

  // ---- Runs that cut retries short in one way only ----

  datatype Cut = WorkerStops | ZaddRejected | SchedulerStops

  predicate IsCut(a: CalmAction, k: Cut) {
    match k
    case WorkerStops => a.Stop?
    case ZaddRejected => a.Step? && a.a.Worker? && a.a.worker.Abandon?
    case SchedulerStops => a.Step? && a.a.Promoter? && a.a.promote.PromoteStop?
  }

  ghost predicate CutOnly(c: CalmState, r: Run<CalmAction>, id: JobId, k: Cut) {
    match r
    case Start => true
    case Then(r', a) => CutOnly(c, r', id, k) && (CutsRetry(CalmAfter(c, r').sys, a, id) ==> IsCut(a, k))
  }

  ghost predicate Reached(c: CalmState, d: CalmState, id: JobId, k: Cut) {
    CalmInv(d) && exists r :: CalmValid(c, r) && CalmAfter(c, r) == d && CutOnly(c, r, id, k)
  }

  lemma Do(c: CalmState, b: CalmState, a: CalmAction, id: JobId, k: Cut) returns (d: CalmState)
    requires Reached(c, b, id, k) && CalmEnabled(b, a) && (CutsRetry(b.sys, a, id) ==> IsCut(a, k))
    ensures d == CalmNext(b, a) && Reached(c, d, id, k)
  {
    hide CalmInv, CalmEnabled, CalmNext, CutsRetry;
    d := CalmNext(b, a);
    StepKeepsCalm(b, a);
    var r :| CalmValid(c, r) && CalmAfter(c, r) == b && CutOnly(c, r, id, k);
    var q := Then(r, a);
    assert CalmValid(c, q) && CalmAfter(c, q) == d && CutOnly(c, q, id, k);
  }

  // An orderly run cuts no retry short.
  lemma OrderlyCutsNothing(s: State, a: CalmAction, id: JobId, h: Handler)
    requires Orderly(s, a, h)
    ensures !CutsRetry(s, a, id)
  {}

  lemma {:induction false} Joined(c: CalmState, r: Run<CalmAction>, t: Run<CalmAction>, id: JobId, h: Handler, k: Cut)
    requires CalmValid(c, r) && CutOnly(c, r, id, k)
    requires CalmValid(CalmAfter(c, r), t) && OrderlyRun(CalmAfter(c, r), t, h)
    ensures CalmValid(c, Join(r, t)) && CutOnly(c, Join(r, t), id, k)
    ensures CalmAfter(c, Join(r, t)) == CalmAfter(CalmAfter(c, r), t)
  {
    match t
    case Start =>
    case Then(t', a) =>
      Joined(c, r, t', id, h, k);
      OrderlyCutsNothing(CalmAfter(CalmAfter(c, r), t').sys, a, id, h);
      hide CalmEnabled, CalmNext, CutsRetry, Orderly;
  }

  lemma Along(c: CalmState, b: CalmState, d: CalmState, id: JobId, h: Handler, k: Cut)
    requires Reached(c, b, id, k) && Live(b, d, id, h)
    ensures Reached(c, d, id, k)
  {
    hide CalmInv, WillSucceed, Stranded;
    var r :| CalmValid(c, r) && CalmAfter(c, r) == b && CutOnly(c, r, id, k);
    var t :| CalmValid(b, t) && CalmAfter(b, t) == d && OrderlyRun(b, t, h);
    Joined(c, r, t, id, h, k);
  }

  // ---- Bringing a new job into the handler of worker 0 ----

  // Nobody is at work, and the job is the only one pending.
  ghost predicate UpNext(c: CalmState, d: CalmState, id: JobId, k: Cut, row: Row) {
    && Reached(c, d, id, k) && Resting(d) && d.sys.pending == [Id(id)]
    && id in d.sys.db.rows && d.sys.db.rows[id] == row
  }

  const NewRow: Row := Row(Queued, 0, DEFAULT_MAX_ATTEMPTS, None, None, 0)

  lemma Submitted(c: CalmState, id: JobId, k: Cut) returns (d: CalmState)
    requires CalmInitial(c)
    ensures UpNext(c, d, id, k, NewRow) && d.sys.delayed == map[]
  {
    CalmAlways(c, Start);
    assert CalmValid(c, Start) && CalmAfter(c, Start) == c && CutOnly(c, Start, id, k);
    assert Reached(c, c, id, k);
    hide Reached, CalmInv;
    d := Do(c, c, Step(Api(SubmitInsert(0, id, None, 0))), id, k);
    assert d.sys.submits[0].pc == ToPush(id);
    d := Do(c, d, Step(Api(SubmitPush(0))), id, k);
  }

  // Worker 0 is the only one up and has nothing but this job.
  ghost predicate AtWork(c: CalmState, d: CalmState, id: JobId, k: Cut, row: Row, pc: Pc) {
    && Reached(c, d, id, k) && Solo(d, id, pc) && d.sys.pending == []
    && id in d.sys.db.rows && d.sys.db.rows[id] == row
  }

  function ClaimedRow(row: Row, lease: Lease): Row {
    row.(status := Running, attempts := row.attempts + 1, lease := Some(lease))
  }

  lemma Started(c: CalmState, b: CalmState, id: JobId, k: Cut, row: Row) returns (d: CalmState)
    requires UpNext(c, b, id, k, row) && row.status == Queued
    ensures AtWork(c, d, id, k, ClaimedRow(row, b.sys.db.nextLease),
                   Handling(b.sys.db.nextLease, row.attempts + 1, row.maxAttempts))
    ensures d.sys.delayed == b.sys.delayed
  {
    var h: Handler := (_, _) => false;
    assert Live(b, b, id, h) by { LiveStart(b, id, h); }
    hide Live, Reached, Resting, Solo;
    d := StartAlone(b, id, row, h);
    Along(c, b, d, id, h, k);
  }

  lemma StartAlone(b: CalmState, id: JobId, row: Row, h: Handler) returns (d: CalmState)
    requires Live(b, b, id, h) && Resting(b) && b.sys.pending == [Id(id)]
    requires id in b.sys.db.rows && b.sys.db.rows[id] == row && row.status == Queued
    ensures var lease := b.sys.db.nextLease;
      && Live(b, d, id, h) && Solo(d, id, Handling(lease, row.attempts + 1, row.maxAttempts)) && d.sys.pending == []
      && id in d.sys.db.rows && d.sys.db.rows[id] == ClaimedRow(row, lease) && d.sys.delayed == b.sys.delayed
  {
    hide Live, Resting, Solo;
    var j;
    d, j := TakeAlone(b, b, id, h);
    d := ClaimAlone(b, d, id, row.maxAttempts, id, h);
  }

  // ---- Attempts without end ----

  // The worker dies in the handler, restarts, and puts its job back.
  lemma Restarted(c: CalmState, b: CalmState, id: JobId, k: Cut, row: Row, lease: Lease, n: nat, limit: nat)
    returns (d: CalmState)
    requires AtWork(c, b, id, k, row, Handling(lease, n, limit)) && row.status == Running
    ensures UpNext(c, d, id, k, row.(status := Queued))
  {
    hide Reached;
    assert forall e :: !Parks(b.sys, e, id);
    d := Do(c, b, Stop(0), id, k);
    d := Do(c, d, Step(Worker(Expire(0))), id, k);
    hide Solo;
    d := PutBack(c, d, id, k, row);
  }

  lemma PutBack(c: CalmState, b: CalmState, id: JobId, k: Cut, row: Row) returns (d: CalmState)
    requires Reached(c, b, id, k) && b.up == {} && 0 !in b.sys.alive && NoPromotion(b.sys) && NoDoors(b.sys)
    requires OnlyListed(b.sys.processing, 0, [Id(id)]) && b.sys.pending == [] && forall e :: e !in b.sys.execs
    requires id in b.sys.db.rows && b.sys.db.rows[id] == row && row.status == Running
    ensures UpNext(c, d, id, k, row.(status := Queued))
  {
    hide Reached;
    RecoveredAlone(b.sys, id);
    d := Do(c, b, RecoverOwn(0), id, k);
    hide RecoveredBy;
  }

  lemma RecoveredAlone(s: State, id: JobId)
    requires OnlyListed(s.processing, 0, [Id(id)]) && s.pending == []
    requires id in s.db.rows && s.db.rows[id].status == Running
    ensures var t := RecoveredBy(s, 0);
      && t == s.(db := t.db, processing := s.processing[0 := []], pending := [Id(id)])
      && id in t.db.rows && t.db.rows[id] == s.db.rows[id].(status := Queued)
  {
    assert id in JobsIn([Id(id)]);
    assert Reverse([Id(id)]) == [Id(id)];
  }

  lemma {:induction false} Again(c: CalmState, b: CalmState, id: JobId, k: Cut, row: Row, n: nat) returns (d: CalmState)
    requires UpNext(c, b, id, k, row) && row.status == Queued
    ensures Reached(c, d, id, k) && id in d.sys.db.rows && d.sys.db.rows[id].attempts == row.attempts + n
    decreases n
  {
    hide Reached, Resting, Solo;
    d := b;
    if n > 0 {
      var lease := b.sys.db.nextLease;
      d := Started(c, b, id, k, row);
      d := Restarted(c, d, id, k, ClaimedRow(row, lease), lease, row.attempts + 1, row.maxAttempts);
      d := Again(c, d, id, k, ClaimedRow(row, lease).(status := Queued), n - 1);
    }
  }

  // Main result: recovering one's own list never looks at the attempts, so max_attempts bounds nothing for a job
  // that kills its worker and whose worker comes back in time: every number of attempts is reached.
  lemma {:induction false} AttemptsUnbounded(c: CalmState, id: JobId, n: nat) returns (r: Run<CalmAction>)
    requires CalmInitial(c)
    ensures CalmValid(c, r) && var s := CalmAfter(c, r).sys; id in s.db.rows && s.db.rows[id].attempts == n
  {
    var d := Submitted(c, id, WorkerStops);
    d := Again(c, d, id, WorkerStops, NewRow, n);
    r :| CalmValid(c, r) && CalmAfter(c, r) == d;
  }

  // ---- Each way of cutting a retry short loses jobs ----

  // The handler has thrown and the row says retrying; ZADD is still to come.
  lemma Thrown(c: CalmState, id: JobId, k: Cut) returns (d: CalmState, row: Row)
    requires CalmInitial(c)
    ensures AtWork(c, d, id, k, row, Parking) && row.status == Retrying && d.sys.delayed == map[]
  {
    hide Reached, Resting;
    var b := Submitted(c, id, k);
    d := Started(c, b, id, k, NewRow);
    row := ClaimedRow(NewRow, b.sys.db.nextLease).(status := Retrying);
    d := ThrownAlone(c, d, id, k, ClaimedRow(NewRow, b.sys.db.nextLease), b.sys.db.nextLease);
  }

  lemma ThrownAlone(c: CalmState, b: CalmState, id: JobId, k: Cut, row: Row, lease: Lease) returns (d: CalmState)
    requires AtWork(c, b, id, k, row, Handling(lease, 1, DEFAULT_MAX_ATTEMPTS)) && row.lease == Some(lease)
    ensures AtWork(c, d, id, k, row.(status := Retrying), Parking) && d.sys.delayed == b.sys.delayed
  {
    assert b.sys.fencing;
    hide Reached;
    d := Do(c, b, Step(Worker(Throw(0))), id, k);
    assert d.sys.execs == map[0 := Exec(0, Id(id), Failing(lease, 1, DEFAULT_MAX_ATTEMPTS))];
    d := ResolvedAlone(c, d, id, k, row, lease);
  }

  lemma ResolvedAlone(c: CalmState, b: CalmState, id: JobId, k: Cut, row: Row, lease: Lease) returns (d: CalmState)
    requires AtWork(c, b, id, k, row, Failing(lease, 1, DEFAULT_MAX_ATTEMPTS)) && row.lease == Some(lease) && b.sys.fencing
    ensures AtWork(c, d, id, k, row.(status := Retrying), Parking) && d.sys.delayed == b.sys.delayed
  {
    hide Reached;
    d := Do(c, b, Step(Worker(Resolve(0))), id, k);
    assert d.sys.execs == map[0 := Exec(0, Id(id), Parking)];
  }

  // The worker is gone and its list still holds the retrying job: the reaper drops it.
  lemma Dropped(c: CalmState, b: CalmState, id: JobId, k: Cut) returns (r: Run<CalmAction>)
    requires Reached(c, b, id, k) && 0 !in b.up && NoPromotion(b.sys) && Processing(b.sys, 0) == [Id(id)]
    requires id in b.sys.db.rows && b.sys.db.rows[id].status == Retrying
    ensures CalmValid(c, r) && CutOnly(c, r, id, k) && Stranded(CalmAfter(c, r).sys, id)
  {
    hide Reached;
    var d := Do(c, b, Step(Worker(Expire(0))), id, k);
    assert Tail(d.sys, 0) == Id(id);
    r := LastStep(c, d, ReapOne(0), id, k);
  }

  lemma LastStep(c: CalmState, b: CalmState, a: CalmAction, id: JobId, k: Cut) returns (r: Run<CalmAction>)
    requires Reached(c, b, id, k) && CalmEnabled(b, a) && Strands(b.sys, a, id) && (CutsRetry(b.sys, a, id) ==> IsCut(a, k))
    ensures CalmValid(c, r) && CutOnly(c, r, id, k) && Stranded(CalmAfter(c, r).sys, id)
  {
    var d := Do(c, b, a, id, k);
    hide CalmInv, Stranded, CalmNext, CalmEnabled, Strands, CutsRetry;
    if Stranded(b.sys, id) { StrandedStays(b, a, id); } else { OnlyTheseStrand(b, a, id); }
    r :| CalmValid(c, r) && CalmAfter(c, r) == d && CutOnly(c, r, id, k);
  }

  // Main result: a worker that stops between the retrying UPDATE and ZADD, and stays away, loses the job.
  lemma {:induction false} WorkerStopLosesJob(c: CalmState, id: JobId) returns (r: Run<CalmAction>)
    requires CalmInitial(c)
    ensures CalmValid(c, r) && CutOnly(c, r, id, WorkerStops) && Stranded(CalmAfter(c, r).sys, id)
  {
    hide Reached;
    var d, row := Thrown(c, id, WorkerStops);
    d := Do(c, d, Stop(0), id, WorkerStops);
    r := Dropped(c, d, id, WorkerStops);
  }

  // Main result: so does a rejected ZADD, although the worker stops only long after, with nothing in its hands.
  lemma {:induction false} RejectedZaddLosesJob(c: CalmState, id: JobId) returns (r: Run<CalmAction>)
    requires CalmInitial(c)
    ensures CalmValid(c, r) && CutOnly(c, r, id, ZaddRejected) && Stranded(CalmAfter(c, r).sys, id)
  {
    hide Reached;
    var d, row := Thrown(c, id, ZaddRejected);
    d := Do(c, d, Step(Worker(Abandon(0))), id, ZaddRejected);
    d := Do(c, d, Stop(0), id, ZaddRejected);
    r := Dropped(c, d, id, ZaddRejected);
  }

  // The parked retry is due, and the scheduler has just taken it out of the delayed set.
  lemma InHandOf(c: CalmState, b: CalmState, id: JobId, k: Cut) returns (d: CalmState)
    requires Reached(c, b, id, k) && Resting(b) && b.sys.delayed == map[id := 0]
    ensures Reached(c, d, id, k) && Promotes(d.sys, 0, id)
  {
    hide Reached;
    assert DueBy(b.sys.delayed, 0) == map[id := 0];
    assert IsLowest(map[id := 0], BATCH, [id]);
    d := Do(c, b, Step(Promoter(PromoteRead(0, 0, [id]))), id, k);
    d := Do(c, d, Step(Promoter(PromoteClaim(0))), id, k);
  }

  // Main result: and so does a scheduler that stops between ZREM and UPDATE.
  lemma {:induction false} SchedulerStopLosesJob(c: CalmState, id: JobId) returns (r: Run<CalmAction>)
    requires CalmInitial(c)
    ensures CalmValid(c, r) && CutOnly(c, r, id, SchedulerStops) && Stranded(CalmAfter(c, r).sys, id)
  {
    hide Resting;
    var d := ParkedFor(c, id, SchedulerStops);
    d := InHandOf(c, d, id, SchedulerStops);
    hide Reached;
    r := LastStep(c, d, Step(Promoter(PromoteStop(0))), id, SchedulerStops);
  }

  lemma ParkedFor(c: CalmState, id: JobId, k: Cut) returns (d: CalmState)
    requires CalmInitial(c)
    ensures Reached(c, d, id, k) && Resting(d) && d.sys.delayed == map[id := 0]
  {
    hide Reached;
    var row;
    d, row := Thrown(c, id, k);
    d := Do(c, d, ParkAndRelease(0, 0), id, k);
    assert RemoveFirst([Id(id)], Id(id)) == [];
    d := Do(c, d, Stop(0), id, k);
  }
}
