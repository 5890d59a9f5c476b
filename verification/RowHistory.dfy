// Where rows come from, who may run them and whose lists are recovered, in every run of the free system.
module RowHistory {
  import opened Types
  import opened Database
  import opened System

  // ---- Births ----

  // A submit inserted a row with this id, key and time.
  predicate SubmittedAs(r: Run<Action>, id: JobId, key: Option<string>, now: int) {
    match r
    case Start => false
    case Then(r', a) =>
      || SubmittedAs(r', id, key, now)
      || (a.Api? && a.api.SubmitInsert? && a.api.id == id && a.api.key == key && a.api.now == now)
  }

  // The columns no statement writes again.
  ghost predicate BirthKept(d: Db, d': Db) {
    forall id :: id in d.rows ==> id in d'.rows && SameBirth(d.rows[id], d'.rows[id])
  }

  predicate SameBirth(x: Row, y: Row) { y.key == x.key && y.createdAt == x.createdAt && y.maxAttempts == x.maxAttempts }

  // No row appears or disappears.
  ghost predicate NoBirth(d: Db, d': Db) { BirthKept(d, d') && forall id :: id in d'.rows ==> id in d.rows }

  lemma WorkerBears(s: State, a: WorkerAction)
    requires WorkerEnabled(s, a)
    ensures NoBirth(s.db, WorkerNext(s, a).db)
  {}

  lemma RecoveryBears(s: State, a: RecoveryAction)
    requires RecoveryEnabled(s, a)
    ensures NoBirth(s.db, RecoveryNext(s, a).db)
  {}

  lemma ReapBears(s: State, a: ReapAction)
    requires ReapEnabled(s, a)
    ensures NoBirth(s.db, ReapNext(s, a).db)
  {}

  lemma PromoteBears(s: State, a: PromoteAction)
    requires PromoteEnabled(s, a)
    ensures NoBirth(s.db, PromoteNext(s, a).db)
  {}

  lemma SweepBears(s: State, a: SweepAction)
    requires SweepEnabled(s, a)
    ensures NoBirth(s.db, SweepNext(s, a).db)
  {}

  lemma ApiBears(s: State, a: ApiAction)
    requires ApiEnabled(s, a)
    ensures BirthKept(s.db, ApiNext(s, a).db)
    ensures NewRows(s.db, ApiNext(s, a).db, Api(a))
  {}

  // A row that was not there before is a submit's.
  ghost predicate NewRows(d: Db, d': Db, a: Action) {
    forall id :: id in d'.rows && id !in d.rows ==>
      a.Api? && a.api.SubmitInsert? && a.api.id == id && d'.rows[id] == Row(Queued, 0, 5, None, a.api.key, a.api.now)
  }

  lemma StepBears(s: State, a: Action)
    requires Enabled(s, a)
    ensures BirthKept(s.db, Next(s, a).db) && NewRows(s.db, Next(s, a).db, a)
  {
    hide WorkerNext, RecoveryNext, ReapNext, SweepNext, PromoteNext, ApiNext, BirthKept;
    match a
    case Worker(x) => WorkerBears(s, x);
    case Recover(x) => RecoveryBears(s, x);
    case Reaper(x) => ReapBears(s, x);
    case Sweeper(x) => SweepBears(s, x);
    case Promoter(x) => PromoteBears(s, x);
    case Api(x) => ApiBears(s, x);
  }

  // Main result: every row was inserted by a submit, and still has that submit's key and time and a budget of five.
  lemma {:induction false} RowsComeFromSubmits(s: State, r: Run<Action>, id: JobId)
    requires Initial(s) && Valid(s, r) && id in After(s, r).db.rows
    ensures var row := After(s, r).db.rows[id]; SubmittedAs(r, id, row.key, row.createdAt) && row.maxAttempts == 5
  {
    match r
    case Start =>
    case Then(r', a) =>
      if id in After(s, r').db.rows { RowsComeFromSubmits(s, r', id); }
      StepBears(After(s, r'), a);
  }

  // ---- One claim at a time ----

  predicate Waiting(s: State, id: JobId) {
    id in s.db.rows && (s.db.rows[id].status == Queued || s.db.rows[id].status == Retrying)
  }

  // The step starts a handler for the job.
  ghost predicate Starts(s: State, a: Action, id: JobId) {
    && Enabled(s, a) && a.Worker? && a.worker.Claim? && s.execs[a.worker.e].entry == Id(id)
    && a.worker.e in Next(s, a).execs && Next(s, a).execs[a.worker.e].pc.Handling?
  }

  // The step puts the job's row in waiting.
  ghost predicate MakesWaiting(s: State, a: Action, id: JobId) {
    Enabled(s, a) && !Waiting(s, id) && Waiting(Next(s, a), id)
  }

  ghost function StartCount(s: State, r: Run<Action>, id: JobId): nat {
    match r
    case Start => 0
    case Then(r', a) => StartCount(s, r', id) + if Starts(After(s, r'), a, id) then 1 else 0
  }

  ghost function WaitCount(s: State, r: Run<Action>, id: JobId): nat {
    match r
    case Start => 0
    case Then(r', a) => WaitCount(s, r', id) + if MakesWaiting(After(s, r'), a, id) then 1 else 0
  }

  lemma ClaimTakesWaiting(s: State, e: ActorId, id: JobId)
    requires WorkerEnabled(s, WorkerAction.Claim(e)) && s.execs[e].entry == Id(id)
    ensures var t := WorkerNext(s, WorkerAction.Claim(e));
      e in t.execs && (if Waiting(s, id) then t.execs[e].pc.Handling? && !Waiting(t, id)
                       else t.execs[e].pc == Releasing && t.db == s.db)
  {}

  // Main result: a job is started only from waiting, and that takes it out of waiting: so it is never started more often
  // than a step put its row in waiting, however often its id is listed.
  lemma {:induction false} OneStartPerWait(s: State, r: Run<Action>, id: JobId)
    requires Initial(s) && Valid(s, r)
    ensures StartCount(s, r, id) + (if Waiting(After(s, r), id) then 1 else 0) <= WaitCount(s, r, id)
  {
    match r
    case Start =>
    case Then(r', a) =>
      OneStartPerWait(s, r', id);
      var b := After(s, r');
      if Starts(b, a, id) { ClaimTakesWaiting(b, a.worker.e, id); }
      hide Enabled, Next;
  }

  // ---- Who puts a row in waiting, and who gives attempts back ----

  // The row is in waiting after the step, and it was not, or otherwise.
  predicate Turns(s: State, t: State, id: JobId) {
    Waiting(t, id) && (id in s.db.rows ==> t.db.rows[id].status != s.db.rows[id].status)
  }

  // The steps that put a row in waiting: its insertion, the parking of a failed attempt, the reaper's and a promotion's
  // UPDATE, the recovery of a running row, and the replay of a dead one.
  ghost predicate Returns(s: State, a: Action, id: JobId) {
    match a
    case Worker(Resolve(e)) => e in s.execs && s.execs[e].entry == Id(id) && s.execs[e].pc.Failing?
    case Recover(RecoverRestore(r)) => id in s.db.rows && s.db.rows[id].status == Running
    case Reaper(ReapUpdate(r)) => r in s.reaps && s.reaps[r].pc.Requeueing? && s.reaps[r].pc.job == id
    case Promoter(PromoteUpdate(p)) => p in s.promotions && s.promotions[p].hand == Claimed(id)
    case Api(SubmitInsert(k, j, key, now)) => j == id
    case Api(ReplayUpdate(k, j)) => j == id && id in s.db.rows && s.db.rows[id].status == Dead
    case _ => false
  }

  lemma WorkerReturns(s: State, a: WorkerAction, id: JobId)
    requires WorkerEnabled(s, a) && Turns(s, WorkerNext(s, a), id)
    ensures Returns(s, Worker(a), id)
  {}

  lemma RecoveryReturns(s: State, a: RecoveryAction, id: JobId)
    requires RecoveryEnabled(s, a) && Turns(s, RecoveryNext(s, a), id)
    ensures Returns(s, Recover(a), id)
  {}

  lemma ReapReturns(s: State, a: ReapAction, id: JobId)
    requires ReapEnabled(s, a) && Turns(s, ReapNext(s, a), id)
    ensures Returns(s, Reaper(a), id)
  {}

  lemma SweepReturns(s: State, a: SweepAction, id: JobId)
    requires SweepEnabled(s, a)
    ensures !Turns(s, SweepNext(s, a), id)
  {}

  lemma PromoteReturns(s: State, a: PromoteAction, id: JobId)
    requires PromoteEnabled(s, a) && Turns(s, PromoteNext(s, a), id)
    ensures Returns(s, Promoter(a), id)
  {}

  lemma ApiReturns(s: State, a: ApiAction, id: JobId)
    requires ApiEnabled(s, a) && Turns(s, ApiNext(s, a), id)
    ensures Returns(s, Api(a), id)
  {}

  // Main result: nothing else does.
  lemma OnlyTheseReturn(s: State, a: Action, id: JobId)
    requires Enabled(s, a) && Turns(s, Next(s, a), id)
    ensures Returns(s, a, id)
  {
    hide WorkerNext, RecoveryNext, ReapNext, SweepNext, PromoteNext, ApiNext, Returns, Turns;
    match a
    case Worker(x) => WorkerReturns(s, x, id);
    case Recover(x) => RecoveryReturns(s, x, id);
    case Reaper(x) => ReapReturns(s, x, id);
    case Sweeper(x) => SweepReturns(s, x, id);
    case Promoter(x) => PromoteReturns(s, x, id);
    case Api(x) => ApiReturns(s, x, id);
  }

  // A dead job is replayed.
  predicate Replays(s: State, a: Action, id: JobId) {
    a.Api? && a.api.ReplayUpdate? && a.api.id == id && id in s.db.rows && s.db.rows[id].status == Dead
  }

  ghost function StartsSinceReplay(s: State, r: Run<Action>, id: JobId): nat {
    match r
    case Start => 0
    case Then(r', a) =>
      if Replays(After(s, r'), a, id) then 0
      else StartsSinceReplay(s, r', id) + if Starts(After(s, r'), a, id) then 1 else 0
  }

  function Attempts(s: State, id: JobId): nat { if id in s.db.rows then s.db.rows[id].attempts else 0 }

  lemma WorkerAttempts(s: State, a: WorkerAction, id: JobId)
    requires WorkerEnabled(s, a)
    ensures Attempts(WorkerNext(s, a), id) == Attempts(s, id) + if Starts(s, Worker(a), id) then 1 else 0
  {
    if a.Claim? && s.execs[a.e].entry == Id(id) { ClaimTakesWaiting(s, a.e, id); }
  }

  lemma RecoveryAttempts(s: State, a: RecoveryAction, id: JobId)
    requires RecoveryEnabled(s, a)
    ensures Attempts(RecoveryNext(s, a), id) == Attempts(s, id)
  {}

  lemma ReapAttempts(s: State, a: ReapAction, id: JobId)
    requires ReapEnabled(s, a)
    ensures Attempts(ReapNext(s, a), id) == Attempts(s, id)
  {}

  lemma SweepAttempts(s: State, a: SweepAction, id: JobId)
    requires SweepEnabled(s, a)
    ensures Attempts(SweepNext(s, a), id) == Attempts(s, id)
  {}

  lemma PromoteAttempts(s: State, a: PromoteAction, id: JobId)
    requires PromoteEnabled(s, a)
    ensures Attempts(PromoteNext(s, a), id) == Attempts(s, id)
  {}

  lemma ApiAttempts(s: State, a: ApiAction, id: JobId)
    requires ApiEnabled(s, a)
    ensures Attempts(ApiNext(s, a), id) == if Replays(s, Api(a), id) then 0 else Attempts(s, id)
  {}

  lemma StepAttempts(s: State, a: Action, id: JobId)
    requires Enabled(s, a)
    ensures Attempts(Next(s, a), id) ==
      if Replays(s, a, id) then 0 else Attempts(s, id) + if Starts(s, a, id) then 1 else 0
  {
    hide WorkerNext, RecoveryNext, ReapNext, SweepNext, PromoteNext, ApiNext, Attempts;
    match a
    case Worker(x) => WorkerAttempts(s, x, id);
    case Recover(x) => RecoveryAttempts(s, x, id);
    case Reaper(x) => ReapAttempts(s, x, id);
    case Sweeper(x) => SweepAttempts(s, x, id);
    case Promoter(x) => PromoteAttempts(s, x, id);
    case Api(x) => ApiAttempts(s, x, id);
  }

  // Main result: whatever crashes, is suspected or runs twice, a row counts exactly the starts of its job since a replay
  // last found it dead; nothing else takes an attempt or gives one back.
  lemma {:induction false} AttemptsAreStarts(s: State, r: Run<Action>, id: JobId)
    requires Initial(s) && Valid(s, r)
    ensures Attempts(After(s, r), id) == StartsSinceReplay(s, r, id)
  {
    match r
    case Start =>
    case Then(r', a) =>
      AttemptsAreStarts(s, r', id);
      StepAttempts(After(s, r'), a, id);
      hide Next, Enabled, Attempts, Starts;
  }

  // ---- Heartbeats ----

  // The last thing that happened to the worker's heartbeat: it was written, or it lapsed.
  ghost function LastBeat(r: Run<Action>, w: WorkerId): Option<bool> {
    match r
    case Start => None
    case Then(r', a) =>
      if a == Worker(Beat(w)) then Some(true) else if a == Worker(Expire(w)) then Some(false) else LastBeat(r', w)
  }

  lemma WorkerBeats(s: State, a: WorkerAction, w: WorkerId)
    requires WorkerEnabled(s, a)
    ensures w in WorkerNext(s, a).alive <==> a == Beat(w) || (w in s.alive && a != Expire(w))
  {}

  lemma ReaperKeepsAlive(s: State, a: ReapAction)
    requires ReapEnabled(s, a)
    ensures ReapNext(s, a).alive == s.alive
  {}

  lemma OthersKeepAlive(s: State, a: Action)
    requires Enabled(s, a) && !a.Worker? && !a.Reaper?
    ensures Next(s, a).alive == s.alive
  {
    hide RecoveryNext, SweepNext, PromoteNext, ApiNext;
    match a
    case Recover(x) => RecoveryKeepsAlive(s, x);
    case Sweeper(x) => SweepKeepsAlive(s, x);
    case Promoter(x) => PromoteKeepsAlive(s, x);
    case Api(x) => ApiKeepsAlive(s, x);
  }

  lemma RecoveryKeepsAlive(s: State, a: RecoveryAction)
    requires RecoveryEnabled(s, a)
    ensures RecoveryNext(s, a).alive == s.alive
  {}

  lemma SweepKeepsAlive(s: State, a: SweepAction)
    requires SweepEnabled(s, a)
    ensures SweepNext(s, a).alive == s.alive
  {}

  lemma PromoteKeepsAlive(s: State, a: PromoteAction)
    requires PromoteEnabled(s, a)
    ensures PromoteNext(s, a).alive == s.alive
  {}

  lemma ApiKeepsAlive(s: State, a: ApiAction)
    requires ApiEnabled(s, a)
    ensures ApiNext(s, a).alive == s.alive
  {}

  lemma StepBeats(s: State, a: Action, w: WorkerId)
    requires Enabled(s, a)
    ensures w in Next(s, a).alive <==> a == Worker(Beat(w)) || (w in s.alive && a != Worker(Expire(w)))
  {
    hide WorkerNext, ReapNext;
    if a.Worker? {
      WorkerBeats(s, a.worker, w);
    } else if a.Reaper? {
      ReaperKeepsAlive(s, a.reap);
    } else {
      OthersKeepAlive(s, a);
      hide Next;
    }
  }

  lemma {:induction false} AliveByBeats(s: State, r: Run<Action>, w: WorkerId)
    requires Valid(s, r) && s.alive == {}
    ensures w in After(s, r).alive <==> LastBeat(r, w) == Some(true)
  {
    match r
    case Start =>
    case Then(r', a) =>
      AliveByBeats(s, r', w);
      StepBeats(After(s, r'), a, w);
      hide Enabled, Next;
  }

  // Main result: a list is reaped, or recovered under its own name, only after its worker's last beat has lapsed.
  lemma OnlyTheSilentAreRecovered(s: State, r: Run<Action>, x: ActorId, w: WorkerId)
    requires Valid(s, r) && s.alive == {}
    ensures ReapEnabled(After(s, r), ReapStart(x, w)) ==> LastBeat(r, w) != Some(true)
    ensures RecoveryEnabled(After(s, r), RecoverStart(x, w)) ==> LastBeat(r, w) != Some(true)
  {
    AliveByBeats(s, r, w);
  }
}
