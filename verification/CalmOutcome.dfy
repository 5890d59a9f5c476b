// How a job ends is up to its handler: in a calm run that cuts nothing short, the attempts still open to a job and what
// the handler does on them decide between succeeded and dead.
module CalmOutcome {
  import opened Types
  import opened Database
  import opened System
  import opened Calm
  import opened CalmSafety
  import opened CalmResults
  import Handoffs

  // Does attempt n of a job return, or throw?
  type Handler = (JobId, nat) -> bool

  // ---- Orderly steps ----

  ghost predicate Returns(s: State, e: ActorId, h: Handler) {
    e in s.execs && s.execs[e].entry.Id? && s.execs[e].pc.Handling? && h(s.execs[e].entry.job, s.execs[e].pc.attempts)
  }

  // Handlers do what they do, nothing is cut short - no execution, no promotion in hand, no submit - and nobody
  // replays a dead job.
  ghost predicate Orderly(s: State, a: CalmAction, h: Handler) {
    match a
    case Step(Worker(Settle(e))) => Returns(s, e, h)
    case Step(Worker(Throw(e))) => !Returns(s, e, h)
    case Step(Worker(Abandon(e))) => false
    case Step(Worker(TakeLost(w))) => false
    case Step(Promoter(PromoteStop(p))) => p in s.promotions ==> s.promotions[p].hand.Empty?
    case Step(Api(SubmitStop(k))) => false
    case Stop(w) => forall e :: e in s.execs ==> s.execs[e].worker != w
    case ReplayNow(j) => false
    case _ => true
  }

  ghost predicate OrderlyRun(c: CalmState, r: Run<CalmAction>, h: Handler) {
    match r
    case Start => true
    case Then(r', a) => OrderlyRun(c, r', h) && Orderly(CalmAfter(c, r').sys, a, h)
  }

  // ---- The attempts still open ----

  predicate Runs(s: State, e: ActorId, id: JobId) {
    e in s.execs && s.execs[e].entry == Id(id) && s.execs[e].pc.Handling?
  }

  ghost predicate InHandler(s: State, id: JobId) { exists e :: Runs(s, e, id) }

  // Attempt n may still end in success: it is under way, or within the budget, or next - a claim asks for no budget.
  predicate Open(row: Row, busy: bool, n: nat) {
    || (busy && n == row.attempts)
    || row.attempts < n <= row.maxAttempts
    || ((row.status == Queued || row.status == Retrying) && n == row.attempts + 1)
  }

  ghost predicate Promising(row: Row, busy: bool, id: JobId, h: Handler) {
    row.status == Succeeded || (!Terminal(row.status) && exists n :: Open(row, busy, n) && h(id, n))
  }

  // The job has succeeded, or its handler returns on an attempt still open.
  ghost predicate WillSucceed(s: State, id: JobId, h: Handler) {
    id in s.db.rows && Promising(s.db.rows[id], InHandler(s, id), id, h)
  }

  // The one free choice left: who finds an abandoned job first. A restarted worker gives one that is out of attempts
  // another try; the reaper denies one that such a worker put back its try.
  ghost predicate Deviates(s: State, a: CalmAction, id: JobId) {
    match a
    case RecoverOwn(w) => Overruns(s, a, id)
    case ReapOne(w) =>
      |Processing(s, w)| > 0 && Tail(s, w) == Id(id) && id in s.db.rows && s.db.rows[id].status == Queued
      && s.db.rows[id].attempts >= s.db.rows[id].maxAttempts
    case _ => false
  }

  // ---- Steps of the job's own execution ----

  // Two rows with the same open attempts, as far as the handler returns on them.
  lemma SamePromise(x: Row, busy: bool, y: Row, busy': bool, id: JobId, h: Handler)
    requires !Terminal(x.status) && !Terminal(y.status)
    requires forall n: nat :: h(id, n) ==> (Open(x, busy, n) <==> Open(y, busy', n))
    ensures Promising(x, busy, id, h) == Promising(y, busy', id, h)
  {
    if n: nat :| Open(x, busy, n) && h(id, n) { assert Open(y, busy', n); }
    if n: nat :| Open(y, busy', n) && h(id, n) { assert Open(x, busy, n); }
  }

  lemma OnlyExec(s: State, e: ActorId, id: JobId)
    requires JobFits(s, id) && e in s.execs && s.execs[e].entry == Id(id)
    ensures InHandler(s, id) <==> s.execs[e].pc.Handling?
  {
    assert Runs(s, e, id) <==> s.execs[e].pc.Handling?;
  }

  lemma OwnStepKeepsPromise(c: CalmState, a: WorkerAction, id: JobId, h: Handler)
    requires CalmInv(c) && WorkerEnabled(c.sys, a) && LocalStep(a) && Orderly(c.sys, Step(Worker(a)), h)
    requires c.sys.execs[a.e].entry == Id(id)
    ensures WillSucceed(WorkerNext(c.sys, a), id, h) == WillSucceed(c.sys, id, h)
  {
    var s, t := c.sys, WorkerNext(c.sys, a);
    assert JobFits(s, id);
    OwnBusy(c, a, id);
    OwnRows(s, a, id, h);
    hide JobFits, CalmInv, WorkerNext, WorkerEnabled, InHandler, Orderly;
    OwnPromise(a, s.db.rows[id], InHandler(s, id), t.db.rows[id], InHandler(t, id), id, h);
  }

  lemma OwnBusy(c: CalmState, a: WorkerAction, id: JobId)
    requires CalmInv(c) && WorkerEnabled(c.sys, a) && LocalStep(a) && c.sys.execs[a.e].entry == Id(id)
    ensures var t := WorkerNext(c.sys, a);
      && a.e in t.execs && id in c.sys.db.rows && id in t.db.rows
      && InHandler(c.sys, id) == c.sys.execs[a.e].pc.Handling? && InHandler(t, id) == t.execs[a.e].pc.Handling?
  {
    var s, t := c.sys, WorkerNext(c.sys, a);
    assert JobFits(s, id);
    LocalKeeps(c, a, id);
    LocalFrame(s, a);
    OnlyExec(s, a.e, id);
    OnlyExec(t, a.e, id);
  }

  // What the step of an execution makes of its row `x`.
  predicate OwnRow(a: WorkerAction, x: Row, busy: bool, y: Row, busy': bool, id: JobId, h: Handler) {
    && x.maxAttempts == y.maxAttempts && (busy <==> a.Settle? || a.Throw?)
    && match a
       case Settle(_) => y.status == Succeeded && x.status == Running && h(id, x.attempts)
       case Throw(_) => y == x && x.status == Running && !h(id, x.attempts) && !busy'
       case Resolve(_) =>
         x.status == Running && y.attempts == x.attempts && !busy'
         && y.status == if x.attempts >= x.maxAttempts then Dead else Retrying
       case SelectRow(_) => y == x && !busy'
       case Claim(_) =>
         if x.status == Queued || x.status == Retrying
         then y.status == Running && y.attempts == x.attempts + 1 && busy'
         else y == x && !busy'
       case _ => false
  }

  lemma OwnPromise(a: WorkerAction, x: Row, busy: bool, y: Row, busy': bool, id: JobId, h: Handler)
    requires OwnRow(a, x, busy, y, busy', id, h)
    ensures Promising(x, busy, id, h) == Promising(y, busy', id, h)
  {
    if a.Settle? {
      assert Open(x, busy, x.attempts);
    } else if !Terminal(x.status) && !Terminal(y.status) {
      SamePromise(x, busy, y, busy', id, h);
    }
  }

  lemma OwnRows(s: State, a: WorkerAction, id: JobId, h: Handler)
    requires s.fencing && JobFits(s, id) && WorkerEnabled(s, a) && LocalStep(a) && Orderly(s, Step(Worker(a)), h)
    requires s.execs[a.e].entry == Id(id)
    ensures var t := WorkerNext(s, a);
      OwnRow(a, s.db.rows[id], s.execs[a.e].pc.Handling?, t.db.rows[id], t.execs[a.e].pc.Handling?, id, h)
  {}

  // ---- All other steps ----

  lemma SameExecsSameBusy(s: State, t: State, id: JobId)
    requires forall e :: Runs(s, e, id) <==> Runs(t, e, id)
    ensures InHandler(s, id) == InHandler(t, id)
  {}

  // Taking, releasing and heartbeats.
  lemma WorkerKeepsPromise(c: CalmState, a: WorkerAction, id: JobId, h: Handler)
    requires CalmInv(c) && CalmEnabled(c, Step(Worker(a))) && Orderly(c.sys, Step(Worker(a)), h)
    ensures WillSucceed(WorkerNext(c.sys, a), id, h) == WillSucceed(c.sys, id, h)
  {
    var s, t := c.sys, WorkerNext(c.sys, a);
    if LocalStep(a) {
      if s.execs[a.e].entry == Id(id) {
        OwnStepKeepsPromise(c, a, id, h);
      } else {
        LocalFrame(s, a);
        LocalOther(s, a, id);
        hide WorkerNext, CalmInv;
        SameExecsSameBusy(s, t, id);
      }
    } else {
      assert t.db == s.db;
      SameExecsSameBusy(s, t, id);
    }
  }

  lemma PromoteKeepsPromise(c: CalmState, a: PromoteAction, id: JobId, h: Handler)
    requires CalmInv(c) && PromoteEnabled(c.sys, a)
    ensures WillSucceed(PromoteNext(c.sys, a), id, h) == WillSucceed(c.sys, id, h)
  {
    var s, t := c.sys, PromoteNext(c.sys, a);
    assert JobFits(s, id);
    SameExecsSameBusy(s, t, id);
    if a.PromoteUpdate? && s.promotions[a.p].hand.job == id {
      assert At(s, id, InHand(a.p));
      SamePromise(s.db.rows[id], InHandler(s, id), t.db.rows[id], InHandler(t, id), id, h);
    }
  }

  lemma ApiKeepsPromise(c: CalmState, a: ApiAction, id: JobId, h: Handler)
    requires CalmEnabled(c, Step(Api(a))) && id in c.sys.db.rows
    ensures WillSucceed(ApiNext(c.sys, a), id, h) == WillSucceed(c.sys, id, h)
  {
    SameExecsSameBusy(c.sys, ApiNext(c.sys, a), id);
  }

  // A job found in a dead worker's list has no execution.
  lemma AbandonedIsIdle(c: CalmState, w: WorkerId, id: JobId)
    requires CalmInv(c) && Id(id) in Processing(c.sys, w) && w !in c.up
    ensures id in c.sys.db.rows && !InHandler(c.sys, id)
  {
    assert JobFits(c.sys, id);
    assert At(c.sys, id, List(w));
    NoExecOnDown(c, id, w);
    assert forall e :: !Runs(c.sys, e, id);
  }

  lemma RecoverKeepsPromise(c: CalmState, w: WorkerId, id: JobId, h: Handler)
    requires CalmInv(c) && CalmEnabled(c, RecoverOwn(w)) && !Deviates(c.sys, RecoverOwn(w), id)
    ensures WillSucceed(RecoveredBy(c.sys, w), id, h) == WillSucceed(c.sys, id, h)
  {
    var s, t := c.sys, RecoveredBy(c.sys, w);
    assert id in JobsIn(Processing(s, w)) <==> Id(id) in Processing(s, w);
    SameExecsSameBusy(s, t, id);
    if Id(id) in Processing(s, w) {
      AbandonedIsIdle(c, w, id);
      if s.db.rows[id].status == Running {
        SamePromise(s.db.rows[id], InHandler(s, id), t.db.rows[id], InHandler(t, id), id, h);
      }
    }
  }

  lemma ReapKeepsPromise(c: CalmState, w: WorkerId, id: JobId, h: Handler)
    requires CalmInv(c) && CalmEnabled(c, ReapOne(w)) && !Deviates(c.sys, ReapOne(w), id)
    ensures WillSucceed(ReapedBy(c.sys, w), id, h) == WillSucceed(c.sys, id, h)
  {
    var s, t := c.sys, ReapedBy(c.sys, w);
    SameExecsSameBusy(s, t, id);
    if Tail(s, w) == Id(id) {
      assert Id(id) in Processing(s, w);
      AbandonedIsIdle(c, w, id);
      if s.db.rows[id].status == Running && s.db.rows[id].attempts < s.db.rows[id].maxAttempts {
        SamePromise(s.db.rows[id], InHandler(s, id), t.db.rows[id], InHandler(t, id), id, h);
      }
    }
  }

  // Parking, stopping an idle worker, sweeping, replaying another job.
  lemma RestKeepsPromise(c: CalmState, a: CalmAction, id: JobId, h: Handler)
    requires CalmEnabled(c, a) && Orderly(c.sys, a, h) && !Deviates(c.sys, a, id) && id in c.sys.db.rows
    requires !a.Step? && !a.RecoverOwn? && !a.ReapOne?
    ensures WillSucceed(CalmNext(c, a).sys, id, h) == WillSucceed(c.sys, id, h)
  {
    SameExecsSameBusy(c.sys, CalmNext(c, a).sys, id);
  }

  lemma StepKeepsPromise(c: CalmState, a: CalmAction, id: JobId, h: Handler)
    requires CalmInv(c) && CalmEnabled(c, a) && Orderly(c.sys, a, h) && !Deviates(c.sys, a, id) && id in c.sys.db.rows
    ensures WillSucceed(CalmNext(c, a).sys, id, h) == WillSucceed(c.sys, id, h)
  {
    hide CalmInv, WillSucceed, Deviates, Orderly;
    if a.Step? {
      match a.a
      case Worker(x) => WorkerKeepsPromise(c, x, id, h);
      case Promoter(x) => PromoteKeepsPromise(c, x, id, h);
      case Api(x) => ApiKeepsPromise(c, x, id, h);
    } else if a.RecoverOwn? {
      RecoverKeepsPromise(c, a.w, id, h);
    } else if a.ReapOne? {
      ReapKeepsPromise(c, a.w, id, h);
    } else {
      RestKeepsPromise(c, a, id, h);
    }
  }

  lemma StepKeepsRow(c: CalmState, a: CalmAction, id: JobId)
    requires CalmEnabled(c, a) && id in c.sys.db.rows
    ensures id in CalmNext(c, a).sys.db.rows
  {
    if a.Step? {
      match a.a
      case Worker(x) => Handoffs.WorkerKeys(c.sys, x);
      case Promoter(x) => Handoffs.PromoteKeys(c.sys, x);
      case Api(x) => ApiKeepsRow(c.sys, x, id);
    }
  }

  lemma ApiKeepsRow(s: State, a: ApiAction, id: JobId)
    requires ApiEnabled(s, a) && id in s.db.rows
    ensures id in ApiNext(s, a).db.rows
  {}

  // No step of the run deviates.
  ghost predicate Undeviating(c: CalmState, r: Run<CalmAction>, id: JobId) {
    match r
    case Start => true
    case Then(r', a) => Undeviating(c, r', id) && !Deviates(CalmAfter(c, r').sys, a, id)
  }

  // Main result: the handler decides. However an orderly run goes on, if no step deviates and the job ends, it ends at
  // succeeded exactly when the handler returned on an attempt that was open at the start.
  lemma {:induction false} HandlerDecides(c: CalmState, t: Run<CalmAction>, id: JobId, h: Handler)
    requires CalmInv(c) && CalmValid(c, t) && OrderlyRun(c, t, h) && Undeviating(c, t, id) && id in c.sys.db.rows
    ensures CalmInv(CalmAfter(c, t)) && id in CalmAfter(c, t).sys.db.rows
    ensures WillSucceed(CalmAfter(c, t).sys, id, h) == WillSucceed(c.sys, id, h)
    ensures Terminal(CalmAfter(c, t).sys.db.rows[id].status) ==>
      CalmAfter(c, t).sys.db.rows[id].status == if WillSucceed(c.sys, id, h) then Succeeded else Dead
  {
    match t {
      case Start =>
      case Then(t', a) =>
        HandlerDecides(c, t', id, h);
        StepKeepsPromise(CalmAfter(c, t'), a, id, h);
        StepKeepsRow(CalmAfter(c, t'), a, id);
        StepKeepsCalm(CalmAfter(c, t'), a);
    }
    assert JobFits(CalmAfter(c, t).sys, id);
  }
}
