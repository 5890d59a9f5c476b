// The one way the calm system can lose a job: a row that says retrying while its id is held nowhere. Which steps do
// it, that nothing undoes it, and that it always goes back to a retry cut short between its two writes.
module CalmStranded {
  import opened Types
  import opened System
  import opened Calm
  import opened CalmSafety

  ghost predicate Stranded(s: State, id: JobId) {
    id in s.db.rows && s.db.rows[id].status == Retrying && Nowhere(s, id)
  }

  // The two steps that lose a job: the scheduler stopping between ZREM and UPDATE, and the reaper dropping a listed
  // id whose row says retrying.
  ghost predicate Strands(s: State, a: CalmAction, id: JobId) {
    match a
    case Step(Promoter(PromoteStop(p))) => p in s.promotions && s.promotions[p].hand == Claimed(id)
    case ReapOne(w) =>
      |Processing(s, w)| > 0 && Tail(s, w) == Id(id) && id in s.db.rows && s.db.rows[id].status == Retrying
    case _ => false
  }

  // ---- Nothing rescues a stranded job ----

  lemma WorkerLeavesStranded(c: CalmState, a: WorkerAction, id: JobId)
    requires CalmInv(c) && Stranded(c.sys, id) && CalmEnabled(c, Step(Worker(a)))
    ensures Stranded(CalmNext(c, Step(Worker(a))).sys, id)
  {
    var s, t := c.sys, CalmNext(c, Step(Worker(a))).sys;
    assert JobFits(s, id);
    NoExecNowhere(s, id);
    assert t.db.rows[id] == s.db.rows[id];
    forall pl ensures !At(t, id, pl) {
      assert !At(s, id, pl) && !At(s, id, Pending);
      if a.Take? || a.TakeLost? { TakeTailPlaces(s, a.w, id); }
      if a.Release? { ReleasePlaces(s, t, a.e, id); }
    }
  }

  lemma PromoteLeavesStranded(c: CalmState, a: PromoteAction, id: JobId)
    requires CalmInv(c) && Stranded(c.sys, id) && CalmEnabled(c, Step(Promoter(a)))
    ensures Stranded(CalmNext(c, Step(Promoter(a))).sys, id)
  {
    var s, t := c.sys, CalmNext(c, Step(Promoter(a))).sys;
    assert !At(s, id, InHand(a.p)) && !At(s, id, Delayed);
    assert t.db.rows[id] == s.db.rows[id];
    forall pl ensures !At(t, id, pl) { assert !At(s, id, pl); }
  }

  lemma ApiLeavesStranded(c: CalmState, a: ApiAction, id: JobId)
    requires CalmInv(c) && Stranded(c.sys, id) && CalmEnabled(c, Step(Api(a)))
    ensures Stranded(CalmNext(c, Step(Api(a))).sys, id)
  {
    var s, t := c.sys, CalmNext(c, Step(Api(a))).sys;
    if a.SubmitPush? { assert !At(s, id, AtDoor(a.k)); }
    assert t.db.rows[id] == s.db.rows[id];
    forall pl ensures !At(t, id, pl) { assert !At(s, id, pl); }
  }

  lemma ListLeavesStranded(c: CalmState, a: CalmAction, id: JobId)
    requires CalmInv(c) && Stranded(c.sys, id) && CalmEnabled(c, a) && (a.ReapOne? || a.RecoverOwn?)
    ensures Stranded(CalmNext(c, a).sys, id)
  {
    var s, t := c.sys, CalmNext(c, a).sys;
    assert JobFits(s, id);
    assert !At(s, id, List(a.w)) && !At(s, id, Pending);
    if a.ReapOne? { ReapPlaces(s, a.w, id); } else { ReverseOnce(Processing(s, a.w), Id(id)); }
    forall pl ensures !At(t, id, pl) { assert !At(s, id, pl); }
  }

  lemma ParkLeavesStranded(c: CalmState, e: ActorId, due: int, id: JobId)
    requires CalmInv(c) && Stranded(c.sys, id) && CalmEnabled(c, ParkAndRelease(e, due))
    ensures Stranded(CalmNext(c, ParkAndRelease(e, due)).sys, id)
  {
    var s, t := c.sys, CalmNext(c, ParkAndRelease(e, due)).sys;
    assert JobFits(s, id);
    NoExecNowhere(s, id);
    assert s.execs[e].entry != Id(id);
    ReleasePlaces(s, t, e, id);
    forall pl ensures !At(t, id, pl) { assert !At(s, id, pl); }
  }

  lemma OtherLeavesStranded(c: CalmState, a: CalmAction, id: JobId)
    requires CalmInv(c) && Stranded(c.sys, id) && CalmEnabled(c, a) && !a.Step?
    ensures Stranded(CalmNext(c, a).sys, id)
  {
    if a.ParkAndRelease? {
      ParkLeavesStranded(c, a.e, a.due, id);
    } else if a.ReapOne? || a.RecoverOwn? {
      ListLeavesStranded(c, a, id);
    } else {
      var s, t := c.sys, CalmNext(c, a).sys;
      if a.SweepAll? { OrphansOnce(s, a.candidates, id); }
      hide CalmInv;
      forall pl ensures !At(t, id, pl) { assert !At(s, id, pl) && !At(s, id, Pending); }
    }
  }

  lemma StrandedStays(c: CalmState, a: CalmAction, id: JobId)
    requires CalmInv(c) && Stranded(c.sys, id) && CalmEnabled(c, a)
    ensures Stranded(CalmNext(c, a).sys, id)
  {
    hide CalmInv, Stranded;
    match a
    case Step(Worker(x)) => WorkerLeavesStranded(c, x, id);
    case Step(Promoter(x)) => PromoteLeavesStranded(c, x, id);
    case Step(Api(x)) => ApiLeavesStranded(c, x, id);
    case _ => OtherLeavesStranded(c, a, id);
  }

  // Main result: once stranded, a job stays stranded in every continuation.
  lemma {:induction false} StrandedForever(c: CalmState, t: Run<CalmAction>, id: JobId)
    requires CalmInv(c) && Stranded(c.sys, id) && CalmValid(c, t)
    ensures CalmInv(CalmAfter(c, t)) && Stranded(CalmAfter(c, t).sys, id)
  {
    match t
    case Start =>
    case Then(t', a) =>
      StrandedForever(c, t', id);
      StrandedStays(CalmAfter(c, t'), a, id);
      StepKeepsCalm(CalmAfter(c, t'), a);
  }

  // ---- Only these two steps strand a job ----

  // Main result: a step makes a job stranded if and only if it is one of the two.
  lemma OnlyTheseStrand(c: CalmState, a: CalmAction, id: JobId)
    requires CalmInv(c) && CalmEnabled(c, a) && !Stranded(c.sys, id)
    ensures Stranded(CalmNext(c, a).sys, id) <==> Strands(c.sys, a, id)
  {
    hide CalmInv, Stranded;
    match a
    case Step(Worker(x)) => WorkerStrandsNothing(c, x, id);
    case Step(Promoter(x)) => PromoteStrands(c, x, id); if Strands(c.sys, a, id) { StopStrands(c, x, id); }
    case Step(Api(x)) => ApiStrandsNothing(c, x, id);
    case _ => OtherStrands(c, a, id); if Strands(c.sys, a, id) { DropStrands(c, a, id); }
  }

  lemma StopStrands(c: CalmState, a: PromoteAction, id: JobId)
    requires CalmInv(c) && CalmEnabled(c, Step(Promoter(a))) && Strands(c.sys, Step(Promoter(a)), id)
    ensures Stranded(CalmNext(c, Step(Promoter(a))).sys, id)
  {
    var s, t := c.sys, CalmNext(c, Step(Promoter(a))).sys;
    assert JobFits(s, id);
    assert At(s, id, InHand(a.p)) && Fits(s, id, InHand(a.p));
    forall pl ensures !At(t, id, pl) {
      assert At(t, id, pl) ==> At(s, id, pl) && pl != InHand(a.p);
    }
  }

  lemma DropStrands(c: CalmState, a: CalmAction, id: JobId)
    requires CalmInv(c) && CalmEnabled(c, a) && Strands(c.sys, a, id) && a.ReapOne?
    ensures Stranded(CalmNext(c, a).sys, id)
  {
    assert JobFits(c.sys, id);
    ReapPlaces(c.sys, a.w, id);
  }

  // A job that had a place keeps one, so a row that newly says retrying is the only other way.
  lemma StillPlaced(s: State, t: State, id: JobId)
    requires !Stranded(s, id) && SameStatus(s, t, id)
    requires (exists p :: At(s, id, p)) ==> exists q :: At(t, id, q)
    ensures !Stranded(t, id)
  {}

  ghost predicate SameStatus(s: State, t: State, id: JobId) {
    id in t.db.rows ==> id in s.db.rows && s.db.rows[id].status == t.db.rows[id].status
  }

  lemma TakeStrandsNothing(c: CalmState, a: WorkerAction, id: JobId)
    requires CalmInv(c) && CalmEnabled(c, Step(Worker(a))) && !Stranded(c.sys, id) && (a.Take? || a.TakeLost?)
    ensures !Stranded(CalmNext(c, Step(Worker(a))).sys, id)
  {
    var s, t := c.sys, CalmNext(c, Step(Worker(a))).sys;
    assert JobFits(s, id);
    TakeTailPlaces(s, a.w, id);
    var u := TakeTail(s, a.w);
    assert forall pl :: At(u, id, pl) <==> At(t, id, pl);
    assert Oldest(s) == Id(id) ==> At(t, id, List(a.w));
    assert Oldest(s) != Id(id) ==> forall pl :: At(s, id, pl) ==> At(t, id, pl);
    StillPlaced(s, t, id);
  }

  lemma ReleaseStrandsNothing(c: CalmState, e: ActorId, id: JobId)
    requires CalmInv(c) && WorkerEnabled(c.sys, Release(e)) && !Stranded(c.sys, id)
    ensures !Stranded(WorkerNext(c.sys, Release(e)), id)
  {
    var s, t := c.sys, WorkerNext(c.sys, Release(e));
    assert JobFits(s, id);
    ReleasePlaces(s, t, e, id);
    assert s.execs[e].entry != Id(id) ==> forall pl :: At(s, id, pl) ==> At(t, id, pl);
  }

  lemma LocalStrandsNothing(c: CalmState, a: WorkerAction, id: JobId)
    requires CalmInv(c) && WorkerEnabled(c.sys, a) && LocalStep(a) && !Stranded(c.sys, id)
    ensures !Stranded(WorkerNext(c.sys, a), id)
  {
    hide WorkerNext;
    var s, t := c.sys, WorkerNext(c.sys, a);
    assert JobFits(s, id);
    LocalFrame(s, a);
    LocalPlaces(s, t, id);
    if s.execs[a.e].entry == Id(id) {
      assert At(t, id, List(s.execs[a.e].worker));
    } else {
      LocalOther(s, a, id);
      StillPlaced(s, t, id);
    }
  }

  lemma WorkerStrandsNothing(c: CalmState, a: WorkerAction, id: JobId)
    requires CalmInv(c) && CalmEnabled(c, Step(Worker(a))) && !Stranded(c.sys, id)
    ensures !Stranded(CalmNext(c, Step(Worker(a))).sys, id)
  {
    hide CalmInv;
    var s, t := c.sys, CalmNext(c, Step(Worker(a))).sys;
    if a.Take? || a.TakeLost? {
      TakeStrandsNothing(c, a, id);
    } else if a.Release? {
      ReleaseStrandsNothing(c, a.e, id);
    } else if LocalStep(a) {
      LocalStrandsNothing(c, a, id);
    } else {
      assert forall pl :: At(s, id, pl) ==> At(t, id, pl);
      StillPlaced(s, t, id);
    }
  }

  lemma PromoteStrands(c: CalmState, a: PromoteAction, id: JobId)
    requires CalmInv(c) && CalmEnabled(c, Step(Promoter(a))) && !Stranded(c.sys, id)
    ensures Stranded(CalmNext(c, Step(Promoter(a))).sys, id) ==> Strands(c.sys, Step(Promoter(a)), id)
  {
    var s, t := c.sys, CalmNext(c, Step(Promoter(a))).sys;
    assert JobFits(s, id);
    var p := a.p;
    if a.PromoteStop? && At(s, id, InHand(p)) {
      assert Fits(s, id, InHand(p));
    } else {
      assert a.PromoteClaim? && s.promotions[p].due[0] == id && id in s.delayed ==> At(t, id, InHand(p));
      assert a.PromotePush? && s.promotions[p].hand.job == id ==> At(t, id, Pending);
      assert forall pl :: At(s, id, pl) ==> At(t, id, pl) || At(t, id, InHand(p)) || At(t, id, Pending);
    }
  }

  lemma ApiStrandsNothing(c: CalmState, a: ApiAction, id: JobId)
    requires CalmInv(c) && CalmEnabled(c, Step(Api(a))) && !Stranded(c.sys, id)
    ensures !Stranded(CalmNext(c, Step(Api(a))).sys, id)
  {
    var s, t := c.sys, CalmNext(c, Step(Api(a))).sys;
    assert JobFits(s, id);
    if At(s, id, AtDoor(a.k)) {
      assert Fits(s, id, AtDoor(a.k));
    } else {
      assert forall pl :: At(s, id, pl) ==> At(t, id, pl) || At(t, id, Pending);
    }
  }

  lemma OtherStrands(c: CalmState, a: CalmAction, id: JobId)
    requires CalmInv(c) && CalmEnabled(c, a) && !Stranded(c.sys, id) && !a.Step?
    ensures Stranded(CalmNext(c, a).sys, id) ==> Strands(c.sys, a, id)
  {
    if a.ParkAndRelease? {
      ParkStrandsNothing(c, a.e, a.due, id);
    } else if a.ReapOne? {
      ReapStrands(c, a.w, id);
    } else if a.RecoverOwn? {
      RecoverStrandsNothing(c, a.w, id);
    } else {
      var s, t := c.sys, CalmNext(c, a).sys;
      hide CalmInv;
      assert forall pl :: At(s, id, pl) ==> At(t, id, pl);
    }
  }

  lemma ParkStrandsNothing(c: CalmState, e: ActorId, due: int, id: JobId)
    requires CalmInv(c) && CalmEnabled(c, ParkAndRelease(e, due)) && !Stranded(c.sys, id)
    ensures !Stranded(CalmNext(c, ParkAndRelease(e, due)).sys, id)
  {
    var s, t := c.sys, CalmNext(c, ParkAndRelease(e, due)).sys;
    assert JobFits(s, id);
    ReleasePlaces(s, t, e, id);
    assert s.execs[e].entry == Id(id) ==> At(t, id, Delayed);
    assert s.execs[e].entry != Id(id) ==> forall pl :: At(s, id, pl) ==> At(t, id, pl);
  }

  lemma RecoverStrandsNothing(c: CalmState, w: WorkerId, id: JobId)
    requires CalmInv(c) && CalmEnabled(c, RecoverOwn(w)) && !Stranded(c.sys, id)
    ensures !Stranded(CalmNext(c, RecoverOwn(w)).sys, id)
  {
    var s, t := c.sys, CalmNext(c, RecoverOwn(w)).sys;
    assert JobFits(s, id);
    ReverseOnce(Processing(s, w), Id(id));
    assert At(s, id, List(w)) <==> Id(id) in Processing(s, w);
    assert id in JobsIn(Processing(s, w)) <==> Id(id) in Processing(s, w);
    assert forall pl :: At(s, id, pl) ==> At(t, id, pl) || At(t, id, Pending);
  }

  lemma ReapStrands(c: CalmState, w: WorkerId, id: JobId)
    requires CalmInv(c) && CalmEnabled(c, ReapOne(w)) && !Stranded(c.sys, id)
    ensures Stranded(CalmNext(c, ReapOne(w)).sys, id) ==> Strands(c.sys, ReapOne(w), id)
  {
    var s, t := c.sys, CalmNext(c, ReapOne(w)).sys;
    assert JobFits(s, id);
    ReapPlaces(s, w, id);
    assert Tail(s, w) == Id(id) ==> At(s, id, List(w));
  }

  // Some step of the run is a loss.
  ghost predicate Lossy(c: CalmState, r: Run<CalmAction>, id: JobId) {
    match r
    case Start => false
    case Then(r', a) => Lossy(c, r', id) || Strands(CalmAfter(c, r').sys, a, id)
  }

  // Main result: a job is stranded after a run if and only if some step of the run was a loss; no loss is made good.
  lemma {:induction false} StrandedExactly(c: CalmState, r: Run<CalmAction>, id: JobId)
    requires CalmInitial(c) && CalmValid(c, r)
    ensures Stranded(CalmAfter(c, r).sys, id) <==> Lossy(c, r, id)
  {
    match r
    case Start =>
    case Then(r', a) =>
      StrandedExactly(c, r', id);
      CalmAlways(c, r');
      var b := CalmAfter(c, r');
      hide CalmInv, CalmNext, CalmEnabled, Strands;
      if Stranded(b.sys, id) { StrandedStays(b, a, id); } else { OnlyTheseStrand(b, a, id); }
  }

  // ---- Where losses come from: a retry cut short ----

  // The row says retrying, ZADD is still to come; and: ZREM has answered, UPDATE is still to come.
  predicate Parks(s: State, e: ActorId, id: JobId) {
    e in s.execs && s.execs[e].entry == Id(id) && s.execs[e].pc.Parking?
  }

  predicate Promotes(s: State, p: ActorId, id: JobId) {
    p in s.promotions && s.promotions[p].hand == Claimed(id)
  }

  // The process stops between the two writes, or the second of them is rejected.
  ghost predicate CutsRetry(s: State, a: CalmAction, id: JobId) {
    match a
    case Stop(w) => exists e :: Parks(s, e, id) && s.execs[e].worker == w
    case Step(Worker(Abandon(e))) => Parks(s, e, id)
    case Step(Promoter(PromoteStop(p))) => Promotes(s, p, id)
    case _ => false
  }

  ghost predicate NoRetryCut(c: CalmState, r: Run<CalmAction>, id: JobId) {
    match r
    case Start => true
    case Then(r', a) => NoRetryCut(c, r', id) && !CutsRetry(CalmAfter(c, r').sys, a, id)
  }

  // Somebody is going to bring a retrying job back.
  ghost predicate Awaited(s: State, id: JobId) {
    id in s.db.rows && s.db.rows[id].status == Retrying ==>
      (exists e :: Parks(s, e, id)) || id in s.delayed || (exists p :: Promotes(s, p, id))
  }

  lemma WorkerKeepsAwaited(c: CalmState, a: WorkerAction, id: JobId)
    requires CalmEnabled(c, Step(Worker(a))) && Awaited(c.sys, id) && !CutsRetry(c.sys, Step(Worker(a)), id)
    ensures Awaited(WorkerNext(c.sys, a), id)
  {
    var s, t := c.sys, WorkerNext(c.sys, a);
    assert t.delayed == s.delayed && t.promotions == s.promotions;
    assert forall p :: Promotes(s, p, id) <==> Promotes(t, p, id);
    assert forall e :: Parks(s, e, id) ==> Parks(t, e, id);
    if a.Resolve? && s.execs[a.e].entry == Id(id) {
      assert t.execs[a.e].pc.Parking? ==> Parks(t, a.e, id);
    } else {
      assert id in t.db.rows && t.db.rows[id].status == Retrying ==> t.db.rows[id] == s.db.rows[id];
    }
  }

  lemma PromoteKeepsAwaited(s: State, a: PromoteAction, id: JobId)
    requires PromoteEnabled(s, a) && Awaited(s, id) && !CutsRetry(s, Step(Promoter(a)), id)
    ensures Awaited(PromoteNext(s, a), id)
  {
    var t := PromoteNext(s, a);
    assert forall e :: Parks(s, e, id) ==> Parks(t, e, id);
    assert forall p :: Promotes(s, p, id) && p != a.p ==> Promotes(t, p, id);
    if a.PromoteClaim? && s.promotions[a.p].due[0] == id && id in s.delayed {
      assert Promotes(t, a.p, id);
    }
  }

  lemma ApiKeepsAwaited(s: State, a: ApiAction, id: JobId)
    requires ApiEnabled(s, a) && Awaited(s, id)
    ensures Awaited(ApiNext(s, a), id)
  {
    var t := ApiNext(s, a);
    assert forall e :: Parks(s, e, id) ==> Parks(t, e, id);
    assert forall p :: Promotes(s, p, id) ==> Promotes(t, p, id);
  }

  lemma OtherKeepsAwaited(c: CalmState, a: CalmAction, id: JobId)
    requires CalmEnabled(c, a) && !a.Step? && Awaited(c.sys, id) && !CutsRetry(c.sys, a, id)
    ensures Awaited(CalmNext(c, a).sys, id)
  {
    var s, t := c.sys, CalmNext(c, a).sys;
    assert forall e :: Parks(s, e, id) ==> Parks(t, e, id) || id in t.delayed;
    assert forall p :: Promotes(s, p, id) ==> Promotes(t, p, id);
    assert id in t.db.rows && t.db.rows[id].status == Retrying ==> t.db.rows[id] == s.db.rows[id];
  }

  lemma StepKeepsAwaited(c: CalmState, a: CalmAction, id: JobId)
    requires CalmEnabled(c, a) && Awaited(c.sys, id) && !CutsRetry(c.sys, a, id)
    ensures Awaited(CalmNext(c, a).sys, id)
  {
    hide Awaited, CutsRetry;
    if a.Step? {
      match a.a
      case Worker(x) => WorkerKeepsAwaited(c, x, id);
      case Promoter(x) => PromoteKeepsAwaited(c.sys, x, id);
      case Api(x) => ApiKeepsAwaited(c.sys, x, id);
    } else {
      OtherKeepsAwaited(c, a, id);
    }
  }

  lemma AwaitedIsPlaced(s: State, id: JobId)
    requires JobFits(s, id) && Awaited(s, id)
    ensures !Stranded(s, id)
  {
    assert id in s.delayed <==> At(s, id, Delayed);
    assert forall p :: Promotes(s, p, id) ==> At(s, id, InHand(p));
    assert forall e :: Parks(s, e, id) ==> At(s, id, List(s.execs[e].worker));
  }

  // Main result: as long as no retry of the job is cut short, the job is never stranded.
  lemma {:induction false} NeverStranded(c: CalmState, r: Run<CalmAction>, id: JobId)
    requires CalmInitial(c) && CalmValid(c, r) && NoRetryCut(c, r, id)
    ensures Awaited(CalmAfter(c, r).sys, id) && !Stranded(CalmAfter(c, r).sys, id)
  {
    match r {
      case Start =>
      case Then(r', a) =>
        NeverStranded(c, r', id);
        hide CalmNext, CalmEnabled, CutsRetry, Awaited;
        StepKeepsAwaited(CalmAfter(c, r'), a, id);
    }
    CalmAlways(c, r);
    AwaitedIsPlaced(CalmAfter(c, r).sys, id);
  }
}
