// The calm system: the same statements and commands, under the operating rules the code is written for.
// A missing heartbeat means the process has stopped; there is one scheduler, whose promotion pass is over before it
// reaps or sweeps; one reaper iteration, one recovery of a worker's own list, one sweep and one replay are each a
// single step; a failure's ZADD and the LREM behind it are one step; worker ids are not shared by live processes;
// a row whose submit has not pushed yet is too young for the sweep; and only a job held nowhere is replayed.
// Workers, the scheduler and the API may still stop between any two steps.
module Calm {
  import opened Types
  import opened Lists
  import opened Database
  import opened System

  // `up` are the workers whose process is running.
  datatype CalmState = CalmState(sys: State, up: set<WorkerId>)

  datatype CalmAction =
    | Step(a: Action)                            // one step of the free system
    | ParkAndRelease(e: ActorId, due: int)       // ZADD, then LREM
    | Stop(w: WorkerId)                          // the process dies, or exits; its heartbeat stays
    | StartBeating(w: WorkerId)                  // startHeartbeat: from here on the worker takes jobs
    | RecoverOwn(w: WorkerId)                    // recoverOwnProcessing, past its wait
    | ReapOne(w: WorkerId)                       // one iteration of reapWorker
    | SweepAll(cutoff: int, candidates: seq<JobId>)
    | ReplayNow(id: JobId)

  // ---- The places a job id can be ----

  datatype Place =
    | Pending
    | List(w: WorkerId)        // a processing list
    | Delayed
    | InHand(p: ActorId)       // between a promotion's ZREM and its LPUSH
    | AtDoor(k: ActorId)       // between a submit's INSERT and its LPUSH

  ghost predicate At(s: State, id: JobId, pl: Place) {
    match pl
    case Pending => Id(id) in s.pending
    case List(w) => w in s.processing && Id(id) in s.processing[w]
    case Delayed => id in s.delayed
    case InHand(p) => p in s.promotions && !s.promotions[p].hand.Empty? && s.promotions[p].hand.job == id
    case AtDoor(k) => k in s.submits && s.submits[k].pc == ToPush(id)
  }

  ghost predicate Nowhere(s: State, id: JobId) { forall pl :: !At(s, id, pl) }

  ghost predicate NoPromotion(s: State) { forall p :: p !in s.promotions }

  // ---- What the sweep does with its candidates ----

  ghost predicate HeldByRedis(s: State, id: JobId) {
    Id(id) in s.pending || exists w :: w in s.processing && Id(id) in s.processing[w]
  }

  // The candidates no list holds, in order.
  ghost function Orphans(s: State, candidates: seq<JobId>): seq<Entry> {
    if |candidates| == 0 then []
    else (if HeldByRedis(s, candidates[0]) then [] else [Id(candidates[0])]) + Orphans(s, candidates[1..])
  }

  // ---- Steps ----

  ghost predicate StepAllowed(c: CalmState, a: Action) {
    match a
    case Worker(x) =>
      (match x
       case Take(w, e) => w in c.up
       case TakeLost(w) => true
       case Expire(w) => w !in c.up
       case Zadd(e, due) => false
       case Kill(w) => false
       case Beat(w) => false
       case _ => true)
    case Promoter(PromoteRead(p, now, due)) => NoPromotion(c.sys)
    case Promoter(x) => true
    case Api(x) => x.SubmitInsert? || x.SubmitPush? || x.SubmitLookUp? || x.SubmitStop?
    case _ => false
  }

  ghost predicate CalmEnabled(c: CalmState, a: CalmAction) {
    var s := c.sys;
    match a
    case Step(x) => StepAllowed(c, x) && Enabled(s, x)
    case ParkAndRelease(e, due) => WorkerEnabled(s, Zadd(e, due))
    case Stop(w) => w in c.up
    case StartBeating(w) => w !in c.up
    case RecoverOwn(w) => w !in c.up && w !in s.alive
    case ReapOne(w) => w !in s.alive && |Processing(s, w)| > 0 && NoPromotion(s)
    case SweepAll(cutoff, cs) =>
      && IsLowest(QueuedBefore(s.db, cutoff), BATCH, cs) && NoPromotion(s)
      && (forall k, id :: At(s, id, AtDoor(k)) ==> id !in QueuedBefore(s.db, cutoff))
    case ReplayNow(id) => id in s.db.rows && s.db.rows[id].status == Dead && Nowhere(s, id)
  }

  function Tail(s: State, w: WorkerId): Entry
    requires |Processing(s, w)| > 0
  {
    Processing(s, w)[|Processing(s, w)| - 1]
  }

  function Verdict(s: State, w: WorkerId): ReapPc
    requires |Processing(s, w)| > 0
  {
    if Tail(s, w).Id? then ReapDecision(Tail(s, w).job, Find(s.db, Tail(s, w).job)) else Removing(Tail(s, w))
  }

  function ReapedBy(s: State, w: WorkerId): State
    requires |Processing(s, w)| > 0
  {
    var l, v := Processing(s, w), Verdict(s, w);
    s.(db := if v.Burying? then SetStatus(s.db, v.job, Dead)
             else if v.Requeueing? then SetStatus(s.db, v.job, Queued) else s.db,
       processing := s.processing[w := l[..|l| - 1]],
       pending := if v.Requeueing? then s.pending + [Tail(s, w)] else s.pending)
  }

  function RecoveredBy(s: State, w: WorkerId): State {
    var l := Processing(s, w);
    var ids := JobsIn(l);
    s.(db := if |ids| == 0 then s.db else RestoreRunning(s.db, ids),
       processing := if |ids| == 0 then s.processing else s.processing[w := []],
       pending := if |ids| == 0 then s.pending else s.pending + Reverse(l))
  }

  function StoppedAll(s: State, w: WorkerId): State {
    WorkerNext(s, Kill(w))
  }

  function ParkedAndReleased(s: State, e: ActorId, due: int): State
    requires WorkerEnabled(s, Zadd(e, due))
  {
    var x := s.execs[e];
    s.(delayed := s.delayed[x.entry.job := due],
       processing := s.processing[x.worker := RemoveFirst(Processing(s, x.worker), x.entry)],
       execs := s.execs - {e})
  }

  ghost function CalmNext(c: CalmState, a: CalmAction): CalmState
    requires CalmEnabled(c, a)
  {
    var s := c.sys;
    match a
    case Step(x) => CalmState(Next(s, x), c.up)
    case ParkAndRelease(e, due) => CalmState(ParkedAndReleased(s, e, due), c.up)
    case Stop(w) => CalmState(StoppedAll(s, w), c.up - {w})
    case StartBeating(w) => CalmState(s.(alive := s.alive + {w}), c.up + {w})
    case RecoverOwn(w) => CalmState(RecoveredBy(s, w), c.up)
    case ReapOne(w) => CalmState(ReapedBy(s, w), c.up)
    case SweepAll(cutoff, cs) => CalmState(s.(pending := s.pending + Orphans(s, cs)), c.up)
    case ReplayNow(id) => CalmState(s.(db := ReplayRow(s.db, id).0, pending := [Id(id)] + s.pending), c.up)
  }

  ghost predicate CalmValid(c: CalmState, r: Run<CalmAction>) {
    match r
    case Start => true
    case Then(r', a) => CalmValid(c, r') && CalmEnabled(CalmAfter(c, r'), a)
  }

  ghost function CalmAfter(c: CalmState, r: Run<CalmAction>): CalmState {
    match r
    case Start => c
    case Then(r', a) => if CalmEnabled(CalmAfter(c, r'), a) then CalmNext(CalmAfter(c, r'), a) else CalmAfter(c, r')
  }

  // Nothing stored, nobody at work.
  ghost predicate CalmInitial(c: CalmState) {
    && Initial(c.sys) && c.sys.fencing && c.up == {}
    && c.sys.pending == [] && c.sys.processing == map[] && c.sys.delayed == map[]
  }

  // ---- The invariant, job by job ----

  // At most one place, and at most once there.
  ghost predicate SinglePlace(s: State, id: JobId) {
    && (forall p, q :: At(s, id, p) && At(s, id, q) ==> p == q)
    && Once(s.pending, Id(id))
    && (forall w :: w in s.processing ==> Once(s.processing[w], Id(id)))
  }

  // The statuses a row can have while its id is at a place.
  ghost predicate Fits(s: State, id: JobId, pl: Place)
    requires At(s, id, pl) && id in s.db.rows
  {
    var st := s.db.rows[id].status;
    match pl
    case Pending => st != Running
    case List(w) => true
    case Delayed => st == Retrying
    case InHand(p) => if s.promotions[p].hand.Claimed? then st == Retrying else st == Queued
    case AtDoor(k) => st == Queued
  }

  ghost predicate PlacesFit(s: State, id: JobId) {
    && (forall pl :: At(s, id, pl) ==> id in s.db.rows && Fits(s, id, pl))
    && (id in s.db.rows && s.db.rows[id].status == Running ==> exists w :: At(s, id, List(w)))
  }

  // What an execution knows about its row.
  predicate Informed(s: State, x: Exec)
    requires x.entry.Id? && x.entry.job in s.db.rows
  {
    var row := s.db.rows[x.entry.job];
    match x.pc
    case Selecting => row.status != Running
    case Claiming(limit) => row.status != Running && limit == row.maxAttempts
    case Handling(lease, attempts, limit) =>
      row.status == Running && row.lease == Some(lease) && attempts == row.attempts && limit == row.maxAttempts
    case Failing(lease, attempts, limit) =>
      row.status == Running && row.lease == Some(lease) && attempts == row.attempts && limit == row.maxAttempts
    case Parking => row.status == Retrying
    case Releasing => Terminal(row.status)
  }

  // The job's only execution, if any, runs where its id is listed.
  ghost predicate ExecFits(s: State, id: JobId) {
    && (forall e :: e in s.execs && s.execs[e].entry == Id(id) ==>
         At(s, id, List(s.execs[e].worker)) && id in s.db.rows && Informed(s, s.execs[e]))
    && (forall e, f :: e in s.execs && f in s.execs && s.execs[e].entry == Id(id) && s.execs[f].entry == Id(id) ==> e == f)
  }

  ghost predicate RecordedOnce(s: State, id: JobId) {
    && EffectCount(s.db.effects, id) == (if id in s.db.rows && s.db.rows[id].status == Succeeded then 1 else 0)
    && (id in s.db.rows ==> s.db.rows[id].maxAttempts >= 1 && s.db.rows[id].status != Status.Failed)
  }

  ghost predicate JobFits(s: State, id: JobId) {
    SinglePlace(s, id) && PlacesFit(s, id) && ExecFits(s, id) && RecordedOnce(s, id)
  }

  // ---- The invariant of the processes ----

  ghost predicate WellKept(c: CalmState) {
    var s := c.sys;
    && s.fencing && c.up <= s.alive
    && (forall p, q :: p in s.promotions && q in s.promotions ==> p == q)
    && (forall r :: r !in s.recoveries) && (forall r :: r !in s.reaps)
    && (forall k :: k !in s.sweeps) && (forall k :: k !in s.replays)
    && (forall e :: e in s.execs ==> s.execs[e].worker in c.up && s.execs[e].entry.Id?)
    && (forall x :: x in s.pending ==> x.Id?)
    && (forall id :: id in s.delayed ==> 0 <= s.delayed[id])
    && (forall w, x :: w in s.processing && x in s.processing[w] ==> x.Id?)
  }

  ghost predicate CalmInv(c: CalmState) {
    WellKept(c) && forall id :: JobFits(c.sys, id)
  }
}
