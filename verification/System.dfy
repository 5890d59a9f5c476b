// The free system: API, workers, schedulers and reapers over one Postgres and one Redis.
// Every awaited SQL statement or Redis command is one step, any number of processes may take part,
// a process may stop between any two steps, and a live worker's heartbeat may lapse at any time.
module System {
  import opened Types
  import opened Lists
  import opened Database

  const BATCH: nat := 100

  // ---- Where each actor stands between two awaited commands ----

  // processOne and the LREM chained behind it
  datatype Pc =
    | Selecting                                              // before SELECT ... FROM jobs
    | Claiming(limit: nat)                                   // before the claim; limit is job.maxAttempts
    | Handling(lease: Lease, attempts: nat, limit: nat)      // inside the handler
    | Failing(lease: Lease, attempts: nat, limit: nat)       // in the catch block
    | Parking                                                // row says retrying, ZADD still to come
    | Releasing                                              // only the LREM is left

  datatype Exec = Exec(worker: WorkerId, entry: Entry, pc: Pc)

  // recoverOwnProcessing
  datatype RecoveryPc = Reading | Restoring(stranded: set<JobId>) | MovingBack
  datatype Recovery = Recovery(worker: WorkerId, pc: RecoveryPc)

  // reapWorker; a decision carries the row its SELECT returned
  datatype ReapPc =
    | Indexing
    | Looking(job: JobId)
    | Burying(job: JobId, seen: Row)
    | Requeueing(job: JobId, seen: Row)
    | Removing(entry: Entry)
    | MovingOne
  datatype Reap = Reap(worker: WorkerId, pc: ReapPc)

  // sweepOrphans
  datatype SweepPc = ReadingPending | ReadingLists | Pushing
  datatype Sweep = Sweep(candidates: seq<JobId>, held: set<Entry>, pc: SweepPc)

  // promoteDue; the hand holds the id between its ZREM and its LPUSH
  datatype Hand = Empty | Claimed(job: JobId) | Requeued(job: JobId)
  datatype Promotion = Promotion(due: seq<JobId>, hand: Hand)

  // POST /jobs; Returned and Rejected are responses already sent
  datatype SubmitPc = ToPush(job: JobId) | LookingUp | Returned(job: JobId) | Rejected
  datatype Submit = Submit(key: Option<string>, pc: SubmitPc)

  datatype State = State(
    db: Db,
    pending: seq<Entry>,
    processing: map<WorkerId, seq<Entry>>,
    delayed: map<JobId, int>,
    alive: set<WorkerId>,
    execs: map<ActorId, Exec>,
    recoveries: map<ActorId, Recovery>,
    reaps: map<ActorId, Reap>,
    sweeps: map<ActorId, Sweep>,
    promotions: map<ActorId, Promotion>,
    submits: map<ActorId, Submit>,
    replays: map<ActorId, JobId>,
    fencing: bool
  )

  // A Redis list that does not exist reads as empty.
  function Processing(s: State, w: WorkerId): seq<Entry> {
    if w in s.processing then s.processing[w] else []
  }

  function WithProcessing(s: State, w: WorkerId, l: seq<Entry>): State {
    s.(processing := s.processing[w := l])
  }

  // LMOVE processing pending RIGHT RIGHT; an empty list stays as it is
  function MoveBack(s: State, w: WorkerId): State {
    var l := Processing(s, w);
    s.(processing := s.processing[w := if |l| == 0 then l else l[..|l| - 1]],
       pending := if |l| == 0 then s.pending else s.pending + [l[|l| - 1]])
  }

  // ---- Workers ----

  datatype WorkerAction =
    | Take(w: WorkerId, e: ActorId)      // BLMOVE pending processing RIGHT LEFT
    | TakeLost(w: WorkerId)              // the same, but the reply never arrives
    | SelectRow(e: ActorId)
    | Claim(e: ActorId)
    | Settle(e: ActorId)                 // the handler returned; the success transaction
    | Throw(e: ActorId)                  // the handler, or the transaction, threw
    | Resolve(e: ActorId)                // the catch block's UPDATE: dead, or retrying
    | Zadd(e: ActorId, due: int)
    | Release(e: ActorId)                // LREM processing 1 id
    | Abandon(e: ActorId)                // processOne rejected: no LREM, the id stays listed
    | Kill(w: WorkerId)                  // SIGKILL: every execution of w is gone
    | Beat(w: WorkerId)                  // SET worker:w:alive ... EX
    | Expire(w: WorkerId)                // the TTL ran out, or the drain deleted the key

  predicate ExecAt(s: State, e: ActorId) { e in s.execs && s.execs[e].entry.Id? }

  predicate WorkerEnabled(s: State, a: WorkerAction) {
    match a
    case Take(w, e) => |s.pending| > 0 && e !in s.execs
    case TakeLost(w) => |s.pending| > 0
    case SelectRow(e) => ExecAt(s, e) && s.execs[e].pc.Selecting?
    case Claim(e) => ExecAt(s, e) && s.execs[e].pc.Claiming?
    case Settle(e) => ExecAt(s, e) && s.execs[e].pc.Handling?
    case Throw(e) => ExecAt(s, e) && s.execs[e].pc.Handling?
    case Resolve(e) => ExecAt(s, e) && s.execs[e].pc.Failing?
    case Zadd(e, due) => ExecAt(s, e) && s.execs[e].pc.Parking? && 0 <= due
    case Release(e) => e in s.execs && s.execs[e].pc.Releasing?
    case Abandon(e) => e in s.execs
    case Kill(w) => true
    case Beat(w) => true
    case Expire(w) => true
  }

  // The id BLMOVE would hand over: pending's tail.
  function Oldest(s: State): Entry
    requires |s.pending| > 0
  {
    s.pending[|s.pending| - 1]
  }

  function TakeTail(s: State, w: WorkerId): State
    requires |s.pending| > 0
  {
    WithProcessing(s, w, [Oldest(s)] + Processing(s, w)).(pending := s.pending[..|s.pending| - 1])
  }

  function Goto(s: State, e: ActorId, pc: Pc): State
    requires e in s.execs
  {
    s.(execs := s.execs[e := s.execs[e].(pc := pc)])
  }

  function WorkerNext(s: State, a: WorkerAction): State
    requires WorkerEnabled(s, a)
  {
    match a
    case Take(w, e) =>
      // A malformed entry is not processed, only removed again.
      var pc := if Oldest(s).Id? then Selecting else Releasing;
      TakeTail(s, w).(execs := s.execs[e := Exec(w, Oldest(s), pc)])
    case TakeLost(w) => TakeTail(s, w)
    case SelectRow(e) =>
      var id := s.execs[e].entry.job;
      Goto(s, e, if id in s.db.rows then Claiming(s.db.rows[id].maxAttempts) else Releasing)
    case Claim(e) =>
      var id := s.execs[e].entry.job;
      var (db, ok) := ClaimRow(s.db, id);
      Goto(s, e, if ok then Handling(s.db.nextLease, db.rows[id].attempts, s.execs[e].pc.limit) else Releasing)
        .(db := db)
    case Settle(e) =>
      var x := s.execs[e];
      Goto(s, e, Releasing).(db := SettleRow(s.db, s.fencing, x.entry.job, x.pc.lease, x.worker))
    case Throw(e) =>
      var pc := s.execs[e].pc;
      Goto(s, e, Failing(pc.lease, pc.attempts, pc.limit))
    case Resolve(e) =>
      var x := s.execs[e];
      var outOfAttempts := x.pc.attempts >= x.pc.limit;
      var (db, ok) :=
        FencedStatus(s.db, s.fencing, x.entry.job, x.pc.lease, if outOfAttempts then Dead else Retrying);
      Goto(s, e, if ok && !outOfAttempts then Parking else Releasing).(db := db)
    case Zadd(e, due) =>
      Goto(s, e, Releasing).(delayed := s.delayed[s.execs[e].entry.job := due])
    case Release(e) =>
      var x := s.execs[e];
      WithProcessing(s, x.worker, RemoveFirst(Processing(s, x.worker), x.entry)).(execs := s.execs - {e})
    case Abandon(e) => s.(execs := s.execs - {e})
    case Kill(w) => s.(execs := map e | e in s.execs && s.execs[e].worker != w :: s.execs[e])
    case Beat(w) => s.(alive := s.alive + {w})
    case Expire(w) => s.(alive := s.alive - {w})
  }

  // ---- A restarted worker putting back its own list ----

  datatype RecoveryAction =
    | RecoverStart(r: ActorId, w: WorkerId)   // EXISTS worker:w:alive says no
    | RecoverRead(r: ActorId)                 // LRANGE, malformed entries filtered out
    | RecoverRestore(r: ActorId)              // UPDATE running rows to queued
    | RecoverMove(r: ActorId)                 // LMOVE, until it answers null
    | RecoverStop(r: ActorId)                 // the process dies

  predicate RecoveryEnabled(s: State, a: RecoveryAction) {
    match a
    case RecoverStart(r, w) => r !in s.recoveries && w !in s.alive
    case RecoverRead(r) => r in s.recoveries && s.recoveries[r].pc.Reading?
    case RecoverRestore(r) => r in s.recoveries && s.recoveries[r].pc.Restoring?
    case RecoverMove(r) => r in s.recoveries && s.recoveries[r].pc.MovingBack?
    case RecoverStop(r) => r in s.recoveries
  }

  function JobsIn(l: seq<Entry>): set<JobId> {
    set e | e in l && e.Id? :: e.job
  }

  function RecoveryNext(s: State, a: RecoveryAction): State
    requires RecoveryEnabled(s, a)
  {
    match a
    case RecoverStart(r, w) => s.(recoveries := s.recoveries[r := Recovery(w, Reading)])
    case RecoverRead(r) =>
      var w := s.recoveries[r].worker;
      var ids := JobsIn(Processing(s, w));
      s.(recoveries := if |ids| == 0 then s.recoveries - {r} else s.recoveries[r := Recovery(w, Restoring(ids))])
    case RecoverRestore(r) =>
      var x := s.recoveries[r];
      s.(db := RestoreRunning(s.db, x.pc.stranded), recoveries := s.recoveries[r := Recovery(x.worker, MovingBack)])
    case RecoverMove(r) =>
      var w := s.recoveries[r].worker;
      MoveBack(s, w).(recoveries := if |Processing(s, w)| == 0 then s.recoveries - {r} else s.recoveries)
    case RecoverStop(r) => s.(recoveries := s.recoveries - {r})
  }

  // ---- The reaper emptying a dead worker's list ----

  datatype ReapAction =
    | ReapStart(r: ActorId, w: WorkerId)   // EXISTS worker:w:alive says no
    | ReapIndex(r: ActorId)                // LINDEX key -1
    | ReapSelect(r: ActorId)               // SELECT attempts, max_attempts, status
    | ReapUpdate(r: ActorId)               // UPDATE to dead or queued, by id alone
    | ReapRemove(r: ActorId)               // LREM key -1 id
    | ReapMove(r: ActorId)                 // LMOVE key pending RIGHT RIGHT
    | ReapStop(r: ActorId)

  predicate ReapEnabled(s: State, a: ReapAction) {
    match a
    case ReapStart(r, w) => r !in s.reaps && w !in s.alive
    case ReapIndex(r) => r in s.reaps && s.reaps[r].pc.Indexing?
    case ReapSelect(r) => r in s.reaps && s.reaps[r].pc.Looking?
    case ReapUpdate(r) => r in s.reaps && (s.reaps[r].pc.Burying? || s.reaps[r].pc.Requeueing?)
    case ReapRemove(r) => r in s.reaps && s.reaps[r].pc.Removing?
    case ReapMove(r) => r in s.reaps && s.reaps[r].pc.MovingOne?
    case ReapStop(r) => r in s.reaps
  }

  // What the reaper does about a listed id, given the row it read.
  function ReapDecision(id: JobId, found: Option<Row>): ReapPc {
    match found
    case None => Removing(Id(id))
    case Some(row) =>
      if Terminal(row.status) || row.status == Retrying then Removing(Id(id))
      else if row.attempts >= row.maxAttempts then Burying(id, row)
      else Requeueing(id, row)
  }

  function Find(db: Db, id: JobId): Option<Row> {
    if id in db.rows then Some(db.rows[id]) else None
  }

  function ReapNext(s: State, a: ReapAction): State
    requires ReapEnabled(s, a)
  {
    match a
    case ReapStart(r, w) => s.(reaps := s.reaps[r := Reap(w, Indexing)])
    case ReapIndex(r) =>
      var w := s.reaps[r].worker;
      var l := Processing(s, w);
      s.(reaps := if |l| == 0 then s.reaps - {r}
                  else s.reaps[r := Reap(w, if l[|l| - 1].Id? then Looking(l[|l| - 1].job) else Removing(l[|l| - 1]))])
    case ReapSelect(r) =>
      var x := s.reaps[r];
      s.(reaps := s.reaps[r := Reap(x.worker, ReapDecision(x.pc.job, Find(s.db, x.pc.job)))])
    case ReapUpdate(r) =>
      var x := s.reaps[r];
      s.(db := SetStatus(s.db, x.pc.job, if x.pc.Burying? then Dead else Queued),
         reaps := s.reaps[r := Reap(x.worker, if x.pc.Burying? then Removing(Id(x.pc.job)) else MovingOne)])
    case ReapRemove(r) =>
      var x := s.reaps[r];
      WithProcessing(s, x.worker, RemoveLast(Processing(s, x.worker), x.pc.entry))
        .(reaps := s.reaps[r := Reap(x.worker, Indexing)])
    case ReapMove(r) =>
      // LMOVE takes whatever is at the tail by now.
      var w := s.reaps[r].worker;
      MoveBack(s, w).(reaps := s.reaps[r := Reap(w, Indexing)])
    case ReapStop(r) => s.(reaps := s.reaps - {r})
  }

  // ---- The orphan sweep ----

  datatype SweepAction =
    | SweepSelect(k: ActorId, cutoff: int, candidates: seq<JobId>)   // SELECT id ... ORDER BY created_at LIMIT 100
    | SweepReadPending(k: ActorId)                                   // LRANGE pending
    | SweepReadList(k: ActorId, w: WorkerId)                         // LRANGE of one scanned key
    | SweepScanned(k: ActorId)                                       // the scan is over
    | SweepPush(k: ActorId)                                          // next candidate: skip if held, else RPUSH
    | SweepStop(k: ActorId)

  // created_at of the queued rows older than the cutoff
  function QueuedBefore(db: Db, cutoff: int): map<JobId, int> {
    map id | id in db.rows && db.rows[id].status == Queued && db.rows[id].createdAt < cutoff :: db.rows[id].createdAt
  }

  ghost predicate SweepEnabled(s: State, a: SweepAction) {
    match a
    case SweepSelect(k, cutoff, c) => k !in s.sweeps && IsLowest(QueuedBefore(s.db, cutoff), BATCH, c)
    case SweepReadPending(k) => k in s.sweeps && s.sweeps[k].pc.ReadingPending?
    case SweepReadList(k, w) => k in s.sweeps && s.sweeps[k].pc.ReadingLists?
    case SweepScanned(k) => k in s.sweeps && s.sweeps[k].pc.ReadingLists?
    case SweepPush(k) => k in s.sweeps && s.sweeps[k].pc.Pushing? && |s.sweeps[k].candidates| > 0
    case SweepStop(k) => k in s.sweeps
  }

  function Members(l: seq<Entry>): set<Entry> { set e | e in l }

  ghost function SweepNext(s: State, a: SweepAction): State
    requires SweepEnabled(s, a)
  {
    match a
    case SweepSelect(k, cutoff, c) => s.(sweeps := s.sweeps[k := Sweep(c, {}, ReadingPending)])
    case SweepReadPending(k) =>
      s.(sweeps := s.sweeps[k := s.sweeps[k].(held := Members(s.pending), pc := ReadingLists)])
    case SweepReadList(k, w) =>
      s.(sweeps := s.sweeps[k := s.sweeps[k].(held := s.sweeps[k].held + Members(Processing(s, w)))])
    case SweepScanned(k) => s.(sweeps := s.sweeps[k := s.sweeps[k].(pc := Pushing)])
    case SweepPush(k) =>
      var x := s.sweeps[k];
      s.(pending := if Id(x.candidates[0]) in x.held then s.pending else s.pending + [Id(x.candidates[0])],
         sweeps := s.sweeps[k := x.(candidates := x.candidates[1..])])
    case SweepStop(k) => s.(sweeps := s.sweeps - {k})
  }

  // ---- Promotion of due retries ----

  datatype PromoteAction =
    | PromoteRead(p: ActorId, now: int, due: seq<JobId>)   // ZRANGEBYSCORE delayed 0 now LIMIT 0 100
    | PromoteClaim(p: ActorId)                             // ZREM the next due id
    | PromoteUpdate(p: ActorId)                            // UPDATE to queued, by id alone
    | PromotePush(p: ActorId)                              // LPUSH pending
    | PromoteStop(p: ActorId)                              // the pass ends, or its process dies

  function DueBy(delayed: map<JobId, int>, now: int): map<JobId, int> {
    map id | id in delayed && 0 <= delayed[id] <= now :: delayed[id]
  }

  ghost predicate PromoteEnabled(s: State, a: PromoteAction) {
    match a
    case PromoteRead(p, now, due) => p !in s.promotions && IsLowest(DueBy(s.delayed, now), BATCH, due)
    case PromoteClaim(p) => p in s.promotions && s.promotions[p].hand.Empty? && |s.promotions[p].due| > 0
    case PromoteUpdate(p) => p in s.promotions && s.promotions[p].hand.Claimed?
    case PromotePush(p) => p in s.promotions && s.promotions[p].hand.Requeued?
    case PromoteStop(p) => p in s.promotions
  }

  ghost function PromoteNext(s: State, a: PromoteAction): State
    requires PromoteEnabled(s, a)
  {
    match a
    case PromoteRead(p, now, due) => s.(promotions := s.promotions[p := Promotion(due, Empty)])
    case PromoteClaim(p) =>
      var id, rest := s.promotions[p].due[0], s.promotions[p].due[1..];
      // ZREM answers 1 for exactly one caller; everybody else moves on.
      s.(delayed := s.delayed - {id},
         promotions := s.promotions[p := Promotion(rest, if id in s.delayed then Claimed(id) else Empty)])
    case PromoteUpdate(p) =>
      var x := s.promotions[p];
      s.(db := SetStatus(s.db, x.hand.job, Queued),
         promotions := s.promotions[p := x.(hand := Requeued(x.hand.job))])
    case PromotePush(p) =>
      var x := s.promotions[p];
      s.(pending := [Id(x.hand.job)] + s.pending, promotions := s.promotions[p := x.(hand := Empty)])
    case PromoteStop(p) => s.(promotions := s.promotions - {p})
  }

  // ---- The API ----

  datatype ApiAction =
    | SubmitInsert(k: ActorId, id: JobId, key: Option<string>, now: int)   // INSERT ... ON CONFLICT DO NOTHING
    | SubmitPush(k: ActorId)                                               // LPUSH pending
    | SubmitLookUp(k: ActorId, found: Option<JobId>)                       // SELECT ... WHERE idempotency_key = $1
    | SubmitStop(k: ActorId)                                               // the API process dies
    | ReplayUpdate(k: ActorId, id: JobId)
    | ReplayPush(k: ActorId)
    | ReplayStop(k: ActorId)

  ghost predicate ApiEnabled(s: State, a: ApiAction) {
    match a
    case SubmitInsert(k, id, key, now) => k !in s.submits && id !in s.db.rows   // randomUUID() is new
    case SubmitPush(k) => k in s.submits && s.submits[k].pc.ToPush?
    case SubmitLookUp(k, found) =>
      && k in s.submits && s.submits[k].pc.LookingUp?
      && (match found
          case Some(id) => Holder(s.db, s.submits[k].key, id)
          case None => !KeyTaken(s.db, s.submits[k].key))
    case SubmitStop(k) => k in s.submits && (s.submits[k].pc.ToPush? || s.submits[k].pc.LookingUp?)
    case ReplayUpdate(k, id) => k !in s.replays
    case ReplayPush(k) => k in s.replays
    case ReplayStop(k) => k in s.replays
  }

  ghost function ApiNext(s: State, a: ApiAction): State
    requires ApiEnabled(s, a)
  {
    match a
    case SubmitInsert(k, id, key, now) =>
      var (db, inserted) := InsertRow(s.db, id, key, now);
      s.(db := db, submits := s.submits[k := Submit(key, if inserted then ToPush(id) else LookingUp)])
    case SubmitPush(k) =>
      var x := s.submits[k];
      s.(pending := [Id(x.pc.job)] + s.pending, submits := s.submits[k := x.(pc := Returned(x.pc.job))])
    case SubmitLookUp(k, found) =>
      s.(submits := s.submits[k := s.submits[k].(pc := if found.Some? then Returned(found.value) else Rejected)])
    case SubmitStop(k) => s.(submits := s.submits - {k})
    case ReplayUpdate(k, id) =>
      // Without a dead row the answer is 404 or 409 and nothing is pushed.
      var (db, ok) := ReplayRow(s.db, id);
      s.(db := db, replays := if ok then s.replays[k := id] else s.replays)
    case ReplayPush(k) => s.(pending := [Id(s.replays[k])] + s.pending, replays := s.replays - {k})
    case ReplayStop(k) => s.(replays := s.replays - {k})
  }

  // ---- Steps and runs ----

  datatype Action =
    | Worker(worker: WorkerAction)
    | Recover(recovery: RecoveryAction)
    | Reaper(reap: ReapAction)
    | Sweeper(sweep: SweepAction)
    | Promoter(promote: PromoteAction)
    | Api(api: ApiAction)

  ghost predicate Enabled(s: State, a: Action) {
    match a
    case Worker(x) => WorkerEnabled(s, x)
    case Recover(x) => RecoveryEnabled(s, x)
    case Reaper(x) => ReapEnabled(s, x)
    case Sweeper(x) => SweepEnabled(s, x)
    case Promoter(x) => PromoteEnabled(s, x)
    case Api(x) => ApiEnabled(s, x)
  }

  ghost function Next(s: State, a: Action): State
    requires Enabled(s, a)
  {
    match a
    case Worker(x) => WorkerNext(s, x)
    case Recover(x) => RecoveryNext(s, x)
    case Reaper(x) => ReapNext(s, x)
    case Sweeper(x) => SweepNext(s, x)
    case Promoter(x) => PromoteNext(s, x)
    case Api(x) => ApiNext(s, x)
  }

  // Every step of the run is enabled where it is taken.
  ghost predicate Valid(s: State, r: Run<Action>) {
    match r
    case Start => true
    case Then(r', a) => Valid(s, r') && Enabled(After(s, r'), a)
  }

  // The state a valid run ends in (a step that is not enabled changes nothing).
  ghost function After(s: State, r: Run<Action>): State {
    match r
    case Start => s
    case Then(r', a) => if Enabled(After(s, r'), a) then Next(After(s, r'), a) else After(s, r')
  }

  // One more step of a run known to lead from s to u.
  lemma Extend(s: State, r: Run<Action>, u: State, a: Action) returns (q: Run<Action>, v: State)
    requires Leads(s, r, u) && Enabled(u, a)
    ensures v == Next(u, a) && Leads(s, q, v)
  {
    q, v := Then(r, a), Next(u, a);
  }

  ghost predicate Leads(s: State, r: Run<Action>, u: State) {
    Valid(s, r) && After(s, r) == u
  }

  lemma ExtendWorker(s: State, r: Run<Action>, u: State, a: WorkerAction) returns (q: Run<Action>, v: State)
    requires Leads(s, r, u) && WorkerEnabled(u, a)
    ensures v == WorkerNext(u, a) && Leads(s, q, v)
  {
    q, v := Extend(s, r, u, Worker(a));
  }

  lemma ExtendRecovery(s: State, r: Run<Action>, u: State, a: RecoveryAction) returns (q: Run<Action>, v: State)
    requires Leads(s, r, u) && RecoveryEnabled(u, a)
    ensures v == RecoveryNext(u, a) && Leads(s, q, v)
  {
    q, v := Extend(s, r, u, Recover(a));
  }

  lemma ExtendReap(s: State, r: Run<Action>, u: State, a: ReapAction) returns (q: Run<Action>, v: State)
    requires Leads(s, r, u) && ReapEnabled(u, a)
    ensures v == ReapNext(u, a) && Leads(s, q, v)
  {
    q, v := Extend(s, r, u, Reaper(a));
  }

  lemma ExtendSweep(s: State, r: Run<Action>, u: State, a: SweepAction) returns (q: Run<Action>, v: State)
    requires Leads(s, r, u) && SweepEnabled(u, a)
    ensures v == SweepNext(u, a) && Leads(s, q, v)
  {
    q, v := Extend(s, r, u, Sweeper(a));
  }

  lemma ExtendPromote(s: State, r: Run<Action>, u: State, a: PromoteAction) returns (q: Run<Action>, v: State)
    requires Leads(s, r, u) && PromoteEnabled(u, a)
    ensures v == PromoteNext(u, a) && Leads(s, q, v)
  {
    q, v := Extend(s, r, u, Promoter(a));
  }

  lemma ExtendApi(s: State, r: Run<Action>, u: State, a: ApiAction) returns (q: Run<Action>, v: State)
    requires Leads(s, r, u) && ApiEnabled(u, a)
    ensures v == ApiNext(u, a) && Leads(s, q, v)
  {
    q, v := Extend(s, r, u, Api(a));
  }

  // Runs compose: the second part starts where the first one ends.
  lemma {:induction false} JoinRuns(s: State, r: Run<Action>, t: Run<Action>)
    ensures Valid(s, Join(r, t)) <==> Valid(s, r) && Valid(After(s, r), t)
    ensures After(s, Join(r, t)) == After(After(s, r), t)
  {
    match t
    case Start =>
    case Then(t', a) => JoinRuns(s, r, t');
  }

  // A database with no history and nobody at work. Redis may hold anything, duplicates and junk included.
  ghost predicate Initial(s: State) {
    && s.db.rows == map[] && s.db.effects == []
    && s.execs == map[] && s.recoveries == map[] && s.reaps == map[] && s.sweeps == map[]
    && s.promotions == map[] && s.submits == map[] && s.replays == map[]
  }
}
