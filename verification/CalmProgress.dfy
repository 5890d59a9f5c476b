// No job is lost: whatever state a calm run is in, every unfinished job that is not stranded can still be brought to
// the end its handler decides on, by an orderly run that cuts no execution short.
module CalmProgress {
  import opened Types
  import opened Lists
  import opened Database
  import opened System
  import opened Calm
  import opened CalmSafety
  import opened CalmResults
  import opened CalmStranded
  import opened CalmOutcome

  // Some orderly calm run leads from c to d.
  ghost predicate Gets(c: CalmState, d: CalmState, h: Handler) {
    exists r :: CalmValid(c, r) && CalmAfter(c, r) == d && OrderlyRun(c, r, h)
  }

  lemma GetsStart(c: CalmState, h: Handler)
    ensures Gets(c, c, h)
  {
    assert CalmValid(c, Start) && CalmAfter(c, Start) == c && OrderlyRun(c, Start, h);
  }

  lemma GetsStep(c: CalmState, b: CalmState, a: CalmAction, h: Handler)
    requires Gets(c, b, h) && CalmEnabled(b, a) && Orderly(b.sys, a, h)
    ensures Gets(c, CalmNext(b, a), h)
  {
    var r :| CalmValid(c, r) && CalmAfter(c, r) == b && OrderlyRun(c, r, h);
    var q := Then(r, a);
    assert CalmValid(c, q) && CalmAfter(c, q) == CalmNext(b, a) && OrderlyRun(c, q, h);
  }

  // The state can be reached, the job is in it and not stranded, and its prospects are what they were.
  ghost predicate Live(c: CalmState, d: CalmState, id: JobId, h: Handler) {
    && CalmInv(d) && Gets(c, d, h) && id in d.sys.db.rows && !Stranded(d.sys, id)
    && WillSucceed(d.sys, id, h) == WillSucceed(c.sys, id, h)
  }

  ghost predicate SameBudget(s: State, t: State, id: JobId) {
    && id in s.db.rows && id in t.db.rows
    && t.db.rows[id].attempts == s.db.rows[id].attempts && t.db.rows[id].maxAttempts == s.db.rows[id].maxAttempts
  }

  lemma WorkerSameBudget(s: State, a: WorkerAction, id: JobId)
    requires WorkerEnabled(s, a) && id in s.db.rows && !Claims(s, Step(Worker(a)), id)
    ensures SameBudget(s, WorkerNext(s, a), id)
  {}

  lemma StepSameBudget(c: CalmState, a: CalmAction, id: JobId)
    requires CalmEnabled(c, a) && id in c.sys.db.rows && !Claims(c.sys, a, id) && a != ReplayNow(id)
    ensures SameBudget(c.sys, CalmNext(c, a).sys, id)
  {
    match a
    case Step(Worker(x)) => WorkerSameBudget(c.sys, x, id);
    case Step(Promoter(x)) => PromoteSameBudget(c.sys, x, id);
    case Step(Api(x)) => ApiSameBudget(c, x, id);
    case _ =>
  }

  lemma PromoteSameBudget(s: State, a: PromoteAction, id: JobId)
    requires PromoteEnabled(s, a) && id in s.db.rows
    ensures SameBudget(s, PromoteNext(s, a), id)
  {}

  lemma ApiSameBudget(c: CalmState, a: ApiAction, id: JobId)
    requires CalmEnabled(c, Step(Api(a))) && id in c.sys.db.rows
    ensures SameBudget(c.sys, ApiNext(c.sys, a), id)
  {}

  // One more step.
  lemma Go(c: CalmState, b: CalmState, a: CalmAction, id: JobId, h: Handler) returns (d: CalmState)
    requires Live(c, b, id, h) && CalmEnabled(b, a) && Orderly(b.sys, a, h)
    requires !Strands(b.sys, a, id) && !Deviates(b.sys, a, id)
    ensures d == CalmNext(b, a) && Live(c, d, id, h)
    ensures !Claims(b.sys, a, id) ==> SameBudget(b.sys, d.sys, id)
  {
    assert a != ReplayNow(id);
    hide CalmInv, Gets, Stranded, CalmNext, CalmEnabled, Orderly, Strands, WillSucceed, Deviates;
    d := CalmNext(b, a);
    GetsStep(c, b, a, h);
    StepKeepsCalm(b, a);
    OnlyTheseStrand(b, a, id);
    StepKeepsPromise(b, a, id, h);
    StepKeepsRow(b, a, id);
    if !Claims(b.sys, a, id) { StepSameBudget(b, a, id); }
  }

  // ---- Coming to rest: nothing in hand, nobody at work, every processing list empty ----

  ghost predicate NoDoors(s: State) { forall k :: k in s.submits ==> !s.submits[k].pc.ToPush? }

  function Doors(s: State): set<ActorId> { set k | k in s.submits && s.submits[k].pc.ToPush? }

  // What coming to rest leaves as it was.
  ghost predicate Kept(b: CalmState, d: CalmState) {
    d.up == b.up && d.sys.submits == b.sys.submits && d.sys.promotions == b.sys.promotions && d.sys.execs == b.sys.execs
  }

  // Commands the scheduler still has to send before its pass can end.
  ghost function Outstanding(s: State): nat {
    if exists p :: p in s.promotions then
      var p :| p in s.promotions;
      match s.promotions[p].hand
      case Empty => 1
      case Requeued(_) => 2
      case Claimed(_) => 3
    else 0
  }

  // The scheduler completes the hand-over it is in, and its pass ends.
  lemma {:induction false} FinishPromotion(c: CalmState, b: CalmState, id: JobId, h: Handler) returns (d: CalmState)
    requires Live(c, b, id, h)
    ensures Live(c, d, id, h) && NoPromotion(d.sys)
    decreases Outstanding(b.sys)
  {
    hide Live;
    LiveWell(c, b, id, h);
    d := b;
    if p :| p in b.sys.promotions {
      match b.sys.promotions[p].hand {
        case Claimed(j) =>
          d := Go(c, b, Step(Promoter(PromoteUpdate(p))), id, h);
          assert d.sys.promotions[p].hand == Requeued(j);
          LiveWell(c, d, id, h);
          d := FinishPromotion(c, d, id, h);
        case Requeued(j) =>
          d := Go(c, b, Step(Promoter(PromotePush(p))), id, h);
          assert d.sys.promotions[p].hand == Hand.Empty;
          LiveWell(c, d, id, h);
          d := FinishPromotion(c, d, id, h);
        case Empty =>
          d := Go(c, b, Step(Promoter(PromoteStop(p))), id, h);
      }
    }
  }

  lemma LiveWell(c: CalmState, b: CalmState, id: JobId, h: Handler)
    requires Live(c, b, id, h)
    ensures WellKept(b) && id in b.sys.db.rows
  {}

  // Every submit completes its push.
  lemma {:induction false} OpenDoors(c: CalmState, b: CalmState, id: JobId, h: Handler) returns (d: CalmState)
    requires Live(c, b, id, h) && NoPromotion(b.sys)
    ensures Live(c, d, id, h) && NoPromotion(d.sys) && NoDoors(d.sys)
    decreases |Doors(b.sys)|
  {
    hide Live;
    LiveWell(c, b, id, h);
    d := b;
    if k :| k in Doors(b.sys) {
      d := Go(c, b, Step(Api(SubmitPush(k))), id, h);
      assert Doors(d.sys) == Doors(b.sys) - {k};
      d := OpenDoors(c, d, id, h);
    } else {
      forall k | k in b.sys.submits ensures !b.sys.submits[k].pc.ToPush? { assert k !in Doors(b.sys); }
    }
  }

  // Steps an execution still has to take.
  function Rank(pc: Pc): nat {
    match pc
    case Selecting => 5
    case Claiming(_) => 4
    case Handling(_, _, _) => 3
    case Failing(_, _, _) => 2
    case Parking => 1
    case Releasing => 1
  }

  // The next step of an execution; its handler does what it does.
  function NextStep(s: State, e: ActorId, h: Handler): CalmAction
    requires e in s.execs && s.execs[e].entry.Id?
  {
    match s.execs[e].pc
    case Selecting => Step(Worker(SelectRow(e)))
    case Claiming(_) => Step(Worker(WorkerAction.Claim(e)))
    case Handling(_, n, _) => Step(Worker(if h(s.execs[e].entry.job, n) then Settle(e) else Throw(e)))
    case Failing(_, _, _) => Step(Worker(Resolve(e)))
    case Parking => ParkAndRelease(e, 0)
    case Releasing => Step(Worker(Release(e)))
  }

  // What the step leaves as it was, and that the execution comes nearer its end.
  ghost predicate Advanced(s: State, t: State, e: ActorId)
    requires e in s.execs
  {
    && t.execs - {e} == s.execs - {e} && t.promotions == s.promotions && t.submits == s.submits
    && (e in t.execs ==> t.execs[e].entry == s.execs[e].entry && Rank(t.execs[e].pc) < Rank(s.execs[e].pc))
  }

  lemma NextStepEnabled(b: CalmState, e: ActorId, id: JobId, h: Handler)
    requires e in b.sys.execs && b.sys.execs[e].entry.Id?
    ensures var a := NextStep(b.sys, e, h);
      CalmEnabled(b, a) && Orderly(b.sys, a, h) && !Strands(b.sys, a, id) && !Deviates(b.sys, a, id)
  {}

  lemma LocalAdvances(s: State, a: WorkerAction)
    requires WorkerEnabled(s, a) && LocalStep(a)
    ensures Advanced(s, WorkerNext(s, a), a.e)
  {
    LocalFrame(s, a);
    assert WorkerNext(s, a).execs - {a.e} == s.execs - {a.e};
  }

  lemma NextStepAdvances(b: CalmState, e: ActorId, h: Handler)
    requires e in b.sys.execs && b.sys.execs[e].entry.Id? && CalmEnabled(b, NextStep(b.sys, e, h))
    ensures Advanced(b.sys, CalmNext(b, NextStep(b.sys, e, h)).sys, e)
  {
    var a := NextStep(b.sys, e, h);
    hide WorkerNext, Advanced, ParkedAndReleased;
    if a.ParkAndRelease? {
      ParkAdvances(b.sys, e);
    } else if a.a.worker.Release? {
      ReleaseAdvances(b.sys, e);
    } else {
      LocalAdvances(b.sys, a.a.worker);
    }
  }

  lemma ParkAdvances(s: State, e: ActorId)
    requires WorkerEnabled(s, Zadd(e, 0))
    ensures Advanced(s, ParkedAndReleased(s, e, 0), e)
  {}

  lemma ReleaseAdvances(s: State, e: ActorId)
    requires WorkerEnabled(s, Release(e))
    ensures Advanced(s, WorkerNext(s, Release(e)), e)
  {}

  // An execution runs to its end.
  lemma {:induction false} FinishOne(c: CalmState, b: CalmState, e: ActorId, id: JobId, h: Handler) returns (d: CalmState)
    requires Live(c, b, id, h) && NoPromotion(b.sys) && NoDoors(b.sys) && e in b.sys.execs && b.sys.execs[e].entry.Id?
    ensures Live(c, d, id, h) && NoPromotion(d.sys) && NoDoors(d.sys) && d.sys.execs == b.sys.execs - {e}
    decreases Rank(b.sys.execs[e].pc)
  {
    var a := NextStep(b.sys, e, h);
    NextStepEnabled(b, e, id, h);
    NextStepAdvances(b, e, h);
    hide Live, CalmNext, CalmEnabled, Orderly, Strands, Deviates, NextStep;
    d := Go(c, b, a, id, h);
    if e in d.sys.execs {
      d := FinishOne(c, d, e, id, h);
    } else {
      assert d.sys.execs - {e} == d.sys.execs;
    }
  }

  lemma {:induction false} FinishAll(c: CalmState, b: CalmState, id: JobId, h: Handler) returns (d: CalmState)
    requires Live(c, b, id, h) && NoPromotion(b.sys) && NoDoors(b.sys)
    ensures Live(c, d, id, h) && NoPromotion(d.sys) && NoDoors(d.sys) && forall e :: e !in d.sys.execs
    decreases |b.sys.execs|
  {
    hide Live, NoPromotion, NoDoors;
    LiveWell(c, b, id, h);
    d := b;
    if e :| e in b.sys.execs {
      d := FinishOne(c, b, e, id, h);
      d := FinishAll(c, d, id, h);
    }
  }

  // Every worker process stops, now that none has an execution.
  lemma {:induction false} StopAll(c: CalmState, b: CalmState, id: JobId, h: Handler) returns (d: CalmState)
    requires Live(c, b, id, h) && NoPromotion(b.sys) && NoDoors(b.sys) && forall e :: e !in b.sys.execs
    ensures Live(c, d, id, h) && NoPromotion(d.sys) && NoDoors(d.sys) && (forall e :: e !in d.sys.execs) && d.up == {}
    decreases |b.up|
  {
    hide Live;
    d := b;
    if w :| w in b.up {
      d := Go(c, b, Stop(w), id, h);
      d := StopAll(c, d, id, h);
    }
  }

  // The reaper takes a dead worker's abandoned entries one by one. An id it would drop or deny its next attempt is left
  // to the worker itself, which puts everything back when it restarts - unless that would give the job an extra attempt.
  ghost predicate ForReaper(b: CalmState, w: WorkerId, id: JobId)
    requires |Processing(b.sys, w)| > 0
  {
    || Overruns(b.sys, RecoverOwn(w), id)
    || match Find(b.sys.db, if Tail(b.sys, w).Id? then Tail(b.sys, w).job else id)
       case None => true
       case Some(row) => row.status != Retrying && (row.status == Queued ==> row.attempts < row.maxAttempts)
  }

  lemma {:induction false} EmptyList(c: CalmState, b: CalmState, w: WorkerId, id: JobId, h: Handler) returns (d: CalmState)
    requires Live(c, b, id, h) && NoPromotion(b.sys) && w !in b.up && w !in b.sys.alive
    ensures Live(c, d, id, h) && Kept(b, d)
    ensures |Processing(d.sys, w)| == 0 && OtherLists(b.sys, d.sys, w)
    decreases |Processing(b.sys, w)|
  {
    hide Live, NoPromotion, Kept, OtherLists, ForReaper;
    LiveWell(c, b, id, h);
    d := b;
    if |Processing(b.sys, w)| > 0 {
      TailChoice(b, w, id);
      if ForReaper(b, w, id) {
        d := Go(c, b, ReapOne(w), id, h);
        ReapShortens(b, w);
        hide CalmNext, CalmEnabled, Strands, Verdict, Deviates;
        var f := d;
        d := EmptyList(c, f, w, id, h);
        KeptTwice(b, f, d, w);
      } else {
        d := Go(c, b, RecoverOwn(w), id, h);
        RecoverEmpties(b, w);
      }
    } else {
      KeptSelf(b, w);
    }
  }

  lemma TailChoice(b: CalmState, w: WorkerId, id: JobId)
    requires WellKept(b) && id in b.sys.db.rows && |Processing(b.sys, w)| > 0
    ensures |JobsIn(Processing(b.sys, w))| > 0
    ensures ForReaper(b, w, id) ==> !Strands(b.sys, ReapOne(w), id) && !Deviates(b.sys, ReapOne(w), id)
    ensures !ForReaper(b, w, id) ==> !Deviates(b.sys, RecoverOwn(w), id)
  {
    var e := Tail(b.sys, w);
    assert e in Processing(b.sys, w) && e.Id?;
    assert e.job in JobsIn(Processing(b.sys, w));
  }

  ghost predicate OtherLists(s: State, t: State, w: WorkerId) {
    forall v :: v != w ==> Processing(t, v) == Processing(s, v)
  }

  lemma RecoverEmpties(b: CalmState, w: WorkerId)
    requires CalmEnabled(b, RecoverOwn(w)) && |JobsIn(Processing(b.sys, w))| > 0
    ensures var d := CalmNext(b, RecoverOwn(w));
      Kept(b, d) && OtherLists(b.sys, d.sys, w) && |Processing(d.sys, w)| == 0
  {}

  lemma ReapShortens(b: CalmState, w: WorkerId)
    requires CalmEnabled(b, ReapOne(w))
    ensures var d := CalmNext(b, ReapOne(w));
      && Kept(b, d) && OtherLists(b.sys, d.sys, w) && |Processing(d.sys, w)| == |Processing(b.sys, w)| - 1
      && NoPromotion(d.sys) && d.sys.alive == b.sys.alive && d.up == b.up
  {}

  lemma KeptSelf(b: CalmState, w: WorkerId)
    ensures Kept(b, b) && OtherLists(b.sys, b.sys, w)
  {}

  lemma KeptTwice(b: CalmState, f: CalmState, d: CalmState, w: WorkerId)
    requires Kept(b, f) && OtherLists(b.sys, f.sys, w) && Kept(f, d) && OtherLists(f.sys, d.sys, w)
    ensures Kept(b, d) && OtherLists(b.sys, d.sys, w)
  {}

  function Filled(s: State): set<WorkerId> { set w | w in s.processing && |s.processing[w]| > 0 }

  lemma {:induction false} EmptyLists(c: CalmState, b: CalmState, id: JobId, h: Handler) returns (d: CalmState)
    requires Live(c, b, id, h) && NoPromotion(b.sys) && NoDoors(b.sys) && b.up == {} && forall e :: e !in b.sys.execs
    ensures Live(c, d, id, h) && Resting(d)
    decreases |Filled(b.sys)|
  {
    hide Live;
    LiveWell(c, b, id, h);
    d := b;
    if w :| w in Filled(b.sys) {
      d := Go(c, b, Step(Worker(Expire(w))), id, h);
      var was := d.sys;
      d := EmptyList(c, d, w, id, h);
      forall v ensures v in Filled(d.sys) <==> v in Filled(b.sys) && v != w {
        assert v != w ==> Processing(d.sys, v) == Processing(was, v);
        assert v in Filled(d.sys) <==> |Processing(d.sys, v)| > 0;
        assert v in Filled(b.sys) <==> |Processing(was, v)| > 0;
      }
      assert Filled(d.sys) == Filled(b.sys) - {w};
      d := EmptyLists(c, d, id, h);
    } else {
      forall v | v in b.sys.processing ensures |b.sys.processing[v]| == 0 { assert v !in Filled(b.sys); }
    }
  }

  ghost predicate ListsEmpty(m: map<WorkerId, seq<Entry>>) { forall w :: w in m ==> |m[w]| == 0 }

  ghost predicate OnlyListed(m: map<WorkerId, seq<Entry>>, v: WorkerId, l: seq<Entry>) {
    v in m && m[v] == l && forall w :: w in m && w != v ==> |m[w]| == 0
  }

  ghost predicate Resting(c: CalmState) {
    && c.up == {} && NoPromotion(c.sys) && NoDoors(c.sys)
    && ListsEmpty(c.sys.processing) && (forall e :: e !in c.sys.execs)
  }

  lemma ComeToRest(c: CalmState, b: CalmState, id: JobId, h: Handler) returns (d: CalmState)
    requires Live(c, b, id, h)
    ensures Live(c, d, id, h) && Resting(d)
  {
    hide Live, NoPromotion, NoDoors, Resting;
    d := FinishPromotion(c, b, id, h);
    d := OpenDoors(c, d, id, h);
    d := FinishAll(c, d, id, h);
    d := StopAll(c, d, id, h);
    d := EmptyLists(c, d, id, h);
  }

  // ---- Running the job at pending's tail, alone ----

  // Worker 0 is the only one up and holds nothing but job j, at the given point of processOne.
  ghost predicate Solo(c: CalmState, j: JobId, pc: Pc) {
    && c.up == {0} && NoPromotion(c.sys) && NoDoors(c.sys)
    && c.sys.execs == map[0 := Exec(0, Id(j), pc)]
    && OnlyListed(c.sys.processing, 0, [Id(j)])
  }

  ghost predicate SameQueues(b: CalmState, d: CalmState) {
    d.sys.pending == b.sys.pending && d.sys.delayed == b.sys.delayed
  }

  lemma TakeAlone(c: CalmState, b: CalmState, id: JobId, h: Handler) returns (d: CalmState, j: JobId)
    requires Live(c, b, id, h) && Resting(b) && |b.sys.pending| > 0
    ensures Live(c, d, id, h) && Id(j) == Oldest(b.sys) && j in b.sys.db.rows
    ensures Solo(d, j, Claiming(b.sys.db.rows[j].maxAttempts))
    ensures d.sys.db == b.sys.db && d.sys.delayed == b.sys.delayed
    ensures d.sys.pending == b.sys.pending[..|b.sys.pending| - 1]
  {
    hide Live;
    LiveRow(c, b, Oldest(b.sys), id, h);
    j := Oldest(b.sys).job;
    d := Go(c, b, StartBeating(0), id, h);
    d := TakeStep(c, d, j, id, h);
    d := Go(c, d, Step(Worker(SelectRow(0))), id, h);
  }

  lemma LiveRow(c: CalmState, b: CalmState, x: Entry, id: JobId, h: Handler)
    requires Live(c, b, id, h) && x in b.sys.pending
    ensures x.Id? && x.job in b.sys.db.rows && b.sys.db.rows[x.job].status != Running
    ensures Once(b.sys.pending, x)
  {
    assert JobFits(b.sys, x.job);
    assert At(b.sys, x.job, Pending);
  }

  lemma TakeStep(c: CalmState, b: CalmState, j: JobId, id: JobId, h: Handler) returns (d: CalmState)
    requires Live(c, b, id, h) && |b.sys.pending| > 0 && Oldest(b.sys) == Id(j)
    requires b.up == {0} && NoPromotion(b.sys) && NoDoors(b.sys)
    requires ListsEmpty(b.sys.processing) && (forall e :: e !in b.sys.execs)
    ensures Live(c, d, id, h) && Solo(d, j, Selecting)
    ensures d.sys.db == b.sys.db && d.sys.delayed == b.sys.delayed
    ensures d.sys.pending == b.sys.pending[..|b.sys.pending| - 1]
  {
    hide Live;
    d := Go(c, b, Step(Worker(Take(0, 0))), id, h);
    assert d.sys.execs == map[0 := Exec(0, Id(j), Selecting)];
    assert [Id(j)] + Processing(b.sys, 0) == [Id(j)];
  }

  // The LREM, and the worker stops: back to rest.
  lemma FinishAlone(c: CalmState, b: CalmState, j: JobId, id: JobId, h: Handler) returns (d: CalmState)
    requires Live(c, b, id, h) && Solo(b, j, Releasing)
    ensures Live(c, d, id, h) && Resting(d) && d.sys.db == b.sys.db && SameQueues(b, d)
  {
    hide Live;
    d := Go(c, b, Step(Worker(Release(0))), id, h);
    assert RemoveFirst([Id(j)], Id(j)) == [];
    d := Go(c, d, Stop(0), id, h);
  }

  // Only job j's row may have changed.
  ghost predicate OnlyRow(s: State, t: State, j: JobId) {
    t.db.rows.Keys == s.db.rows.Keys && forall i :: i in s.db.rows && i != j ==> t.db.rows[i] == s.db.rows[i]
  }

  lemma ClaimAlone(c: CalmState, b: CalmState, j: JobId, limit: nat, id: JobId, h: Handler) returns (d: CalmState)
    requires Live(c, b, id, h) && Solo(b, j, Claiming(limit)) && j in b.sys.db.rows
    ensures Live(c, d, id, h) && SameQueues(b, d) && OnlyRow(b.sys, d.sys, j)
    ensures if Claimable(b.sys.db, j)
            then Solo(d, j, Handling(b.sys.db.nextLease, b.sys.db.rows[j].attempts + 1, limit))
                 && d.sys.db.rows[j] == b.sys.db.rows[j].(status := Running, attempts := b.sys.db.rows[j].attempts + 1,
                                                          lease := Some(b.sys.db.nextLease))
            else Solo(d, j, Releasing) && d.sys.db == b.sys.db
  {
    hide Live;
    d := Go(c, b, Step(Worker(Claim(0))), id, h);
  }

  // The handler returns.
  lemma SettleAlone(c: CalmState, b: CalmState, j: JobId, lease: Lease, n: nat, limit: nat, id: JobId, h: Handler)
    returns (d: CalmState)
    requires Live(c, b, id, h) && Solo(b, j, Handling(lease, n, limit)) && j in b.sys.db.rows
    requires b.sys.db.rows[j].lease == Some(lease) && h(j, n)
    ensures Live(c, d, id, h) && d.sys.pending == b.sys.pending && OnlyRow(b.sys, d.sys, j) && Resting(d)
    ensures d.sys.db.rows[j] == b.sys.db.rows[j].(status := Succeeded)
  {
    hide Live, Resting;
    d := Go(c, b, Step(Worker(Settle(0))), id, h);
    d := FinishAlone(c, d, j, id, h);
  }

  // The handler throws: buried, or parked.
  lemma ThrowAlone(c: CalmState, b: CalmState, j: JobId, lease: Lease, n: nat, limit: nat, id: JobId, h: Handler)
    returns (d: CalmState)
    requires Live(c, b, id, h) && Solo(b, j, Handling(lease, n, limit)) && j in b.sys.db.rows
    requires b.sys.db.rows[j].lease == Some(lease) && !h(j, n)
    ensures Live(c, d, id, h) && d.sys.pending == b.sys.pending && OnlyRow(b.sys, d.sys, j) && Resting(d)
    ensures d.sys.db.rows[j] == b.sys.db.rows[j].(status := if n >= limit then Dead else Retrying)
  {
    hide Live, Resting;
    LiveWell(c, b, id, h);
    d := Go(c, b, Step(Worker(Throw(0))), id, h);
    assert Solo(d, j, Failing(lease, n, limit));
    d := ResolveAlone(c, d, j, lease, n, limit, id, h);
    if n < limit { d := ParkAlone(c, d, j, id, h); } else { d := FinishAlone(c, d, j, id, h); }
  }

  lemma ResolveAlone(c: CalmState, b: CalmState, j: JobId, lease: Lease, n: nat, limit: nat, id: JobId, h: Handler)
    returns (d: CalmState)
    requires Live(c, b, id, h) && Solo(b, j, Failing(lease, n, limit)) && j in b.sys.db.rows
    requires b.sys.fencing && b.sys.db.rows[j].lease == Some(lease)
    ensures Live(c, d, id, h) && SameQueues(b, d) && OnlyRow(b.sys, d.sys, j)
    ensures Solo(d, j, if n >= limit then Releasing else Parking)
    ensures d.sys.db.rows[j] == b.sys.db.rows[j].(status := if n >= limit then Dead else Retrying)
  {
    hide Live;
    d := Go(c, b, Step(Worker(Resolve(0))), id, h);
  }

  lemma ParkAlone(c: CalmState, b: CalmState, j: JobId, id: JobId, h: Handler) returns (d: CalmState)
    requires Live(c, b, id, h) && Solo(b, j, Parking)
    ensures Live(c, d, id, h) && d.sys.db == b.sys.db && d.sys.pending == b.sys.pending && Resting(d)
    ensures d.sys.delayed == b.sys.delayed[j := 0]
  {
    hide Live;
    d := Go(c, b, ParkAndRelease(0, 0), id, h);
    assert RemoveFirst([Id(j)], Id(j)) == [];
    d := Go(c, d, Stop(0), id, h);
  }

  // A row after its job's turn at pending's tail.
  function Ran(row: Row, lease: Lease, success: bool): Row {
    if row.status == Queued || row.status == Retrying then
      row.(status := if success then Succeeded else if row.attempts + 1 >= row.maxAttempts then Dead else Retrying,
           attempts := row.attempts + 1, lease := Some(lease))
    else row
  }

  // The turn of the job at pending's tail: one attempt, as its handler has it, or none if it is not claimable.
  lemma RunTail(c: CalmState, b: CalmState, id: JobId, h: Handler) returns (d: CalmState, j: JobId)
    requires Live(c, b, id, h) && Resting(b) && |b.sys.pending| > 0
    ensures Live(c, d, id, h) && Resting(d) && Id(j) == Oldest(b.sys)
    ensures d.sys.pending == b.sys.pending[..|b.sys.pending| - 1]
    ensures OnlyRow(b.sys, d.sys, j) && j in b.sys.db.rows
    ensures d.sys.db.rows[j] == Ran(b.sys.db.rows[j], b.sys.db.nextLease, h(j, b.sys.db.rows[j].attempts + 1))
  {
    hide Live, Resting, Solo;
    d, j := TakeAlone(c, b, id, h);
    var n, limit, lease := b.sys.db.rows[j].attempts + 1, b.sys.db.rows[j].maxAttempts, b.sys.db.nextLease;
    d := ClaimAlone(c, d, j, limit, id, h);
    if !Claimable(b.sys.db, j) {
      d := FinishAlone(c, d, j, id, h);
    } else if h(j, n) {
      d := SettleAlone(c, d, j, lease, n, limit, id, h);
    } else {
      d := ThrowAlone(c, d, j, lease, n, limit, id, h);
    }
  }

  function QueuedJobs(s: State): set<JobId> { set i | i in s.db.rows && s.db.rows[i].status == Queued }

  // Some other job goes first, and leaves the queue.
  lemma RunOther(c: CalmState, b: CalmState, id: JobId, h: Handler) returns (d: CalmState)
    requires Live(c, b, id, h) && Resting(b) && |b.sys.pending| > 0 && Oldest(b.sys) != Id(id)
    ensures Live(c, d, id, h) && Resting(d)
    ensures d.sys.pending == b.sys.pending[..|b.sys.pending| - 1]
    ensures id in b.sys.db.rows && id in d.sys.db.rows && d.sys.db.rows[id] == b.sys.db.rows[id]
    ensures Oldest(b.sys).Id? && QueuedJobs(d.sys) == QueuedJobs(b.sys) - {Oldest(b.sys).job}
  {
    hide Live, Resting;
    LiveWell(c, b, id, h);
    var j;
    d, j := RunTail(c, b, id, h);
  }

  // ---- Coming out of the delayed set ----

  // Only the scheduler's pass is under way.
  ghost predicate Passing(c: CalmState, due: seq<JobId>) {
    && c.up == {} && NoDoors(c.sys)
    && ListsEmpty(c.sys.processing) && (forall e :: e !in c.sys.execs)
    && c.sys.promotions == map[0 := Promotion(due, Hand.Empty)]
  }

  lemma PromoteOne(c: CalmState, b: CalmState, due: seq<JobId>, id: JobId, h: Handler) returns (d: CalmState)
    requires Live(c, b, id, h) && Passing(b, due) && |due| > 0
    ensures Live(c, d, id, h) && Passing(d, due[1..]) && SameBudget(b.sys, d.sys, id)
    ensures d.sys.delayed == b.sys.delayed - {due[0]}
  {
    hide Live;
    LiveWell(c, b, id, h);
    var i, rest := due[0], due[1..];
    d := Go(c, b, Step(Promoter(PromoteClaim(0))), id, h);
    if i in b.sys.delayed {
      assert d.sys.promotions == map[0 := Promotion(rest, Claimed(i))];
      d := HandOver(c, d, rest, i, id, h);
    } else {
      assert d.sys.promotions == map[0 := Promotion(rest, Hand.Empty)];
    }
  }

  lemma HandOver(c: CalmState, b: CalmState, rest: seq<JobId>, i: JobId, id: JobId, h: Handler) returns (d: CalmState)
    requires Live(c, b, id, h) && b.up == {} && NoDoors(b.sys)
    requires ListsEmpty(b.sys.processing) && (forall e :: e !in b.sys.execs)
    requires b.sys.promotions == map[0 := Promotion(rest, Claimed(i))]
    ensures Live(c, d, id, h) && Passing(d, rest) && SameBudget(b.sys, d.sys, id) && d.sys.delayed == b.sys.delayed
  {
    hide Live;
    d := Go(c, b, Step(Promoter(PromoteUpdate(0))), id, h);
    assert d.sys.promotions == map[0 := Promotion(rest, Requeued(i))];
    d := Go(c, d, Step(Promoter(PromotePush(0))), id, h);
    assert d.sys.promotions == map[0 := Promotion(rest, Hand.Empty)];
  }

  lemma {:induction false} FinishPass(c: CalmState, b: CalmState, due: seq<JobId>, id: JobId, h: Handler)
    returns (d: CalmState)
    requires Live(c, b, id, h) && Passing(b, due)
    ensures Live(c, d, id, h) && Resting(d) && SameBudget(b.sys, d.sys, id)
    ensures d.sys.delayed.Keys == b.sys.delayed.Keys - (set i | i in due)
    decreases |due|
  {
    hide Live;
    LiveWell(c, b, id, h);
    if |due| == 0 {
      d := Go(c, b, Step(Promoter(PromoteStop(0))), id, h);
    } else {
      d := PromoteOne(c, b, due, id, h);
      d := FinishPass(c, d, due[1..], id, h);
      assert forall i :: i in due <==> i == due[0] || i in due[1..];
    }
  }

  // Passes of the scheduler, each taking the lowest-scored batch, until the job has been taken.
  lemma {:induction false} Undelay(c: CalmState, b: CalmState, id: JobId, h: Handler) returns (d: CalmState)
    requires Live(c, b, id, h) && Resting(b)
    ensures Live(c, d, id, h) && Resting(d) && SameBudget(b.sys, d.sys, id) && id !in d.sys.delayed
    decreases |b.sys.delayed|
  {
    hide Live;
    LiveWell(c, b, id, h);
    d := b;
    if id in b.sys.delayed {
      var now := b.sys.delayed[id];
      var scores := DueBy(b.sys.delayed, now);
      assert id in scores;
      var due := LowestExists(scores, BATCH);
      d := Go(c, b, Step(Promoter(PromoteRead(0, now, due))), id, h);
      assert d.sys.promotions == map[0 := Promotion(due, Hand.Empty)];
      d := FinishPass(c, d, due, id, h);
      assert due[0] in due && due[0] in scores && due[0] in b.sys.delayed;
      KeysShrink(b.sys.delayed, d.sys.delayed, due[0]);
      d := Undelay(c, d, id, h);
    }
  }

  lemma KeysShrink<V>(m: map<JobId, V>, m': map<JobId, V>, x: JobId)
    requires m'.Keys <= m.Keys && x in m && x !in m'
    ensures |m'| < |m|
  {
    SubsetSize(m'.Keys, m.Keys - {x});
    assert |m'| == |m'.Keys| && |m| == |m.Keys|;
  }

  // ---- Being found by the sweep ----

  lemma {:induction false} OrphansAll(s: State, cs: seq<JobId>)
    requires |s.pending| == 0 && ListsEmpty(s.processing)
    ensures |Orphans(s, cs)| == |cs| && forall i :: 0 <= i < |cs| ==> Orphans(s, cs)[i] == Id(cs[i])
  {
    if |cs| > 0 {
      assert !HeldByRedis(s, cs[0]) by {
        assert forall w :: w in s.processing ==> |s.processing[w]| == 0;
      }
      OrphansAll(s, cs[1..]);
    }
  }

  lemma SweepBatch(s: State, id: JobId) returns (cutoff: int, cs: seq<JobId>)
    requires id in s.db.rows && s.db.rows[id].status == Queued
    requires |s.pending| == 0 && ListsEmpty(s.processing)
    ensures IsLowest(QueuedBefore(s.db, cutoff), BATCH, cs)
    ensures |Orphans(s, cs)| > 0 && forall x :: x in Orphans(s, cs) ==> x.Id? && x.job in QueuedJobs(s)
  {
    cutoff := s.db.rows[id].createdAt + 1;
    assert id in QueuedBefore(s.db, cutoff);
    cs := LowestExists(QueuedBefore(s.db, cutoff), BATCH);
    OrphansAll(s, cs);
    forall x | x in Orphans(s, cs) ensures x.Id? && x.job in QueuedJobs(s) {
      var i :| 0 <= i < |cs| && Orphans(s, cs)[i] == x;
      assert cs[i] in cs && cs[i] in QueuedBefore(s.db, cutoff);
    }
  }

  // The queue has run empty: a sweep pushes the oldest queued rows, all of them orphans by now.
  lemma SweepOnce(c: CalmState, b: CalmState, id: JobId, h: Handler) returns (d: CalmState)
    requires Live(c, b, id, h) && Resting(b) && |b.sys.pending| == 0
    requires id in b.sys.db.rows && b.sys.db.rows[id].status == Queued
    ensures Live(c, d, id, h) && Resting(d) && d.sys.db == b.sys.db && d.sys.delayed == b.sys.delayed
    ensures |d.sys.pending| > 0 && forall x :: x in d.sys.pending ==> x.Id? && x.job in QueuedJobs(d.sys)
  {
    hide Live, IsLowest, QueuedBefore, Orphans, ListsEmpty;
    var cutoff, cs := SweepBatch(b.sys, id);
    assert forall k, i :: !At(b.sys, i, AtDoor(k));
    d := Go(c, b, SweepAll(cutoff, cs), id, h);
    assert d.sys.pending == Orphans(b.sys, cs);
  }

  // Sweeps and runs of older jobs, until the job itself is pushed.
  lemma {:induction false} SweptIn(c: CalmState, b: CalmState, id: JobId, h: Handler) returns (d: CalmState)
    requires Live(c, b, id, h) && Resting(b) && id in b.sys.db.rows && b.sys.db.rows[id].status == Queued
    ensures Live(c, d, id, h) && Resting(d) && SameBudget(b.sys, d.sys, id)
    ensures d.sys.db.rows[id].status == Queued && Id(id) in d.sys.pending
    decreases |QueuedJobs(b.sys)|, |b.sys.pending|
  {
    hide Live, Resting;
    d := b;
    if Id(id) !in b.sys.pending {
      if |b.sys.pending| == 0 { d := SweepOnce(c, b, id, h); }
      if Id(id) !in d.sys.pending {
        var queued, tail := QueuedJobs(d.sys), Oldest(d.sys);
        assert tail in d.sys.pending;
        d := RunOther(c, d, id, h);
        assert tail.job in queued ==> |QueuedJobs(d.sys)| < |queued|;
        SubsetSize(QueuedJobs(d.sys), queued);
        d := SweptIn(c, d, id, h);
      }
    }
  }

  // ---- Reaching pending's tail, and running ----

  lemma {:induction false} ReachTail(c: CalmState, b: CalmState, id: JobId, h: Handler) returns (d: CalmState)
    requires Live(c, b, id, h) && Resting(b) && Id(id) in b.sys.pending
    ensures Live(c, d, id, h) && Resting(d) && |d.sys.pending| > 0 && Oldest(d.sys) == Id(id)
    ensures id in b.sys.db.rows && id in d.sys.db.rows && d.sys.db.rows[id] == b.sys.db.rows[id]
    decreases |b.sys.pending|
  {
    hide Live, Resting;
    LiveWell(c, b, id, h);
    LiveRow(c, b, Id(id), id, h);
    d := b;
    if Oldest(b.sys) != Id(id) {
      DropTail(b.sys.pending, Id(id));
      d := RunOther(c, b, id, h);
      d := ReachTail(c, d, id, h);
    }
  }

  function StatusOf(c: CalmState, id: JobId): Status
    requires id in c.sys.db.rows
  {
    c.sys.db.rows[id].status
  }

  // At rest, an unfinished job that is neither parked nor stranded is pending, or queued and nowhere.
  lemma RestingPlaces(c: CalmState, b: CalmState, id: JobId, h: Handler)
    requires Live(c, b, id, h) && Resting(b) && id in b.sys.db.rows && id !in b.sys.delayed
    ensures Terminal(StatusOf(b, id)) || Id(id) in b.sys.pending || StatusOf(b, id) == Queued
  {
    assert JobFits(b.sys, id);
    assert forall w :: !At(b.sys, id, List(w));
    if Id(id) !in b.sys.pending {
      forall pl ensures !At(b.sys, id, pl) {}
    }
  }

  function Remaining(c: CalmState, id: JobId): nat
    requires id in c.sys.db.rows
  {
    var row := c.sys.db.rows[id];
    if row.attempts < row.maxAttempts then row.maxAttempts - row.attempts else 0
  }

  // Attempt after attempt, until the job has succeeded or is out of attempts.
  lemma {:induction false} ToTheEnd(c: CalmState, b: CalmState, id: JobId, h: Handler) returns (d: CalmState)
    requires Live(c, b, id, h) && Resting(b) && id in b.sys.db.rows
    ensures Live(c, d, id, h) && id in d.sys.db.rows && Terminal(StatusOf(d, id))
    decreases Remaining(b, id)
  {
    hide Live, Resting;
    d := Undelay(c, b, id, h);
    RestingPlaces(c, d, id, h);
    if Terminal(StatusOf(d, id)) { return; }
    if Id(id) !in d.sys.pending { d := SweptIn(c, d, id, h); }
    d := ReachTail(c, d, id, h);
    LiveRow(c, d, Id(id), id, h);
    var j;
    d, j := RunTail(c, d, id, h);
    if !Terminal(StatusOf(d, id)) { d := ToTheEnd(c, d, id, h); }
  }

  // The status a job is bound for.
  ghost function Outcome(c: CalmState, id: JobId, h: Handler): Status {
    if WillSucceed(c.sys, id, h) then Succeeded else Dead
  }

  // Some orderly continuation - no execution is cut short, all handlers do what they do - ends the job, and as its
  // handler decides: at succeeded if it returns on an attempt still open to the job, otherwise at dead.
  ghost predicate CanFinish(c: CalmState, id: JobId, h: Handler) {
    exists d :: Gets(c, d, h) && id in d.sys.db.rows && StatusOf(d, id) == Outcome(c, id, h)
  }

  // Main result: from every state of every calm run, whatever the handlers do on each attempt, an orderly continuation
  // brings a job to the end its handler decides on if and only if the job is not stranded.
  lemma {:induction false} RecoverableUnlessStranded(c0: CalmState, r: Run<CalmAction>, id: JobId, h: Handler)
    requires CalmInitial(c0) && CalmValid(c0, r)
    requires id in CalmAfter(c0, r).sys.db.rows
    ensures CanFinish(CalmAfter(c0, r), id, h) <==> !Stranded(CalmAfter(c0, r).sys, id)
  {
    var c := CalmAfter(c0, r);
    CalmAlways(c0, r);
    if Stranded(c.sys, id) {
      StrandedNeverFinishes(c, id, h);
    } else {
      LiveStart(c, id, h);
      hide CalmInv, Live, Stranded;
      var d := ComeToRest(c, c, id, h);
      d := ToTheEnd(c, d, id, h);
      LiveEnds(c, d, id, h);
    }
  }

  lemma LiveStart(c: CalmState, id: JobId, h: Handler)
    requires CalmInv(c) && id in c.sys.db.rows && !Stranded(c.sys, id)
    ensures Live(c, c, id, h)
  {
    GetsStart(c, h);
  }

  lemma LiveEnds(c: CalmState, d: CalmState, id: JobId, h: Handler)
    requires Live(c, d, id, h) && id in d.sys.db.rows && Terminal(StatusOf(d, id))
    ensures CanFinish(c, id, h)
  {
    assert JobFits(d.sys, id);
    assert StatusOf(d, id) == Outcome(c, id, h);
  }

  lemma StrandedNeverFinishes(c: CalmState, id: JobId, h: Handler)
    requires CalmInv(c) && Stranded(c.sys, id)
    ensures !CanFinish(c, id, h)
  {
    forall d | Gets(c, d, h) ensures Stranded(d.sys, id) {
      var t :| CalmValid(c, t) && CalmAfter(c, t) == d && OrderlyRun(c, t, h);
      StrandedForever(c, t, id);
    }
  }

  // Main result: nothing is lost. After a run in which no retry of the job was cut short between its two writes, the
  // job can still be brought to the end its handler decides on.
  lemma {:induction false} NothingIsLost(c: CalmState, r: Run<CalmAction>, id: JobId, h: Handler)
    requires CalmInitial(c) && CalmValid(c, r) && NoRetryCut(c, r, id)
    requires id in CalmAfter(c, r).sys.db.rows
    ensures CanFinish(CalmAfter(c, r), id, h)
  {
    NeverStranded(c, r, id);
    RecoverableUnlessStranded(c, r, id, h);
  }
}
