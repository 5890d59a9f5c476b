// Every step of the calm system keeps the invariant of every job.
module CalmSafety {
  import opened Types
  import opened Lists
  import opened Database
  import opened System
  import opened Calm

  ghost predicate ListsOnce(s: State, id: JobId) {
    && Once(s.pending, Id(id))
    && (forall w :: w in s.processing ==> Once(s.processing[w], Id(id)))
  }

  ghost predicate SameRow(d: Db, d': Db, id: JobId) {
    && (id in d'.rows <==> id in d.rows)
    && (id in d.rows ==> d'.rows[id] == d.rows[id])
    && EffectCount(d'.effects, id) == EffectCount(d.effects, id)
  }

  ghost predicate SameExecs(s: State, t: State, id: JobId) {
    && (forall e :: e in t.execs && t.execs[e].entry == Id(id) ==> e in s.execs && s.execs[e] == t.execs[e])
  }

  ghost predicate SamePlaces(s: State, t: State, id: JobId) {
    && (forall pl :: At(t, id, pl) <==> At(s, id, pl))
    && (forall p :: At(s, id, InHand(p)) ==> t.promotions[p].hand == s.promotions[p].hand)
  }

  // A step that does not touch the job keeps its invariant; executions may end.
  lemma Untouched(s: State, t: State, id: JobId)
    requires JobFits(s, id) && ListsOnce(t, id) && SameRow(s.db, t.db, id) && SameExecs(s, t, id) && SamePlaces(s, t, id)
    ensures JobFits(t, id)
  {
    forall pl | At(t, id, pl) ensures id in t.db.rows && Fits(t, id, pl) {
      assert At(s, id, pl);
    }
    if id in t.db.rows && t.db.rows[id].status == Running {
      var w :| At(s, id, List(w));
      assert At(t, id, List(w));
    }
  }

  // A job at exactly one place, listed once, with a fitting row and no execution of its own.
  ghost predicate Rests(s: State, id: JobId, pl: Place) {
    && id in s.db.rows && At(s, id, pl) && Fits(s, id, pl)
    && (forall q :: At(s, id, q) ==> q == pl)
    && (forall e :: e in s.execs ==> s.execs[e].entry != Id(id))
  }

  lemma RestsFits(s: State, id: JobId, pl: Place)
    requires Rests(s, id, pl) && ListsOnce(s, id) && RecordedOnce(s, id)
    requires s.db.rows[id].status == Running ==> pl.List?
    ensures JobFits(s, id)
  {
    if s.db.rows[id].status == Running { assert At(s, id, List(pl.w)); }
  }

  // A job held nowhere, with no execution, whose row is not running.
  lemma AbsentFits(s: State, id: JobId)
    requires Nowhere(s, id) && ListsOnce(s, id) && RecordedOnce(s, id)
    requires forall e :: e in s.execs ==> s.execs[e].entry != Id(id)
    requires id in s.db.rows ==> s.db.rows[id].status != Running
    ensures JobFits(s, id)
  {}

  // ---- Workers ----

  lemma NoExecOffList(s: State, id: JobId, pl: Place)
    requires JobFits(s, id) && At(s, id, pl) && !pl.List?
    ensures forall e :: e in s.execs ==> s.execs[e].entry != Id(id)
  {
    forall e | e in s.execs ensures s.execs[e].entry != Id(id) {
      var w := s.execs[e].worker;
      assert !At(s, id, List(w));
    }
  }

  lemma NoExecNowhere(s: State, id: JobId)
    requires JobFits(s, id) && Nowhere(s, id)
    ensures forall e :: e in s.execs ==> s.execs[e].entry != Id(id)
  {
    forall e | e in s.execs ensures s.execs[e].entry != Id(id) {
      var w := s.execs[e].worker;
      assert !At(s, id, List(w));
    }
  }

  lemma NoExecOnDown(c: CalmState, id: JobId, w: WorkerId)
    requires WellKept(c) && JobFits(c.sys, id) && At(c.sys, id, List(w)) && w !in c.up
    ensures forall e :: e in c.sys.execs ==> c.sys.execs[e].entry != Id(id)
  {
    var s := c.sys;
    forall e | e in s.execs ensures s.execs[e].entry != Id(id) {
      var v := s.execs[e].worker;
      assert v != w;
      assert !At(s, id, List(v));
    }
  }

  lemma TakeTailPlaces(s: State, w: WorkerId, id: JobId)
    requires |s.pending| > 0 && JobFits(s, id)
    ensures var t := TakeTail(s, w);
      && ListsOnce(t, id)
      && (Oldest(s) != Id(id) ==> forall pl :: At(t, id, pl) <==> At(s, id, pl))
      && (Oldest(s) == Id(id) ==> forall pl :: At(t, id, pl) <==> pl == List(w))
  {
    var t := TakeTail(s, w);
    DropTail(s.pending, Id(id));
    if Oldest(s) == Id(id) { assert At(s, id, Pending); assert !At(s, id, List(w)); }
    assert Id(id) in Processing(s, w) <==> At(s, id, List(w));
    PushHead(Processing(s, w), Oldest(s), Id(id));
    forall pl ensures At(t, id, pl) <==> (if Oldest(s) == Id(id) then pl == List(w) else At(s, id, pl)) {
      if Oldest(s) == Id(id) && pl != Pending { assert !At(s, id, pl); }
      match pl
      case Pending =>
      case List(v) =>
      case Delayed =>
      case InHand(p) =>
      case AtDoor(k) =>
    }
  }

  lemma TakeKeeps(c: CalmState, w: WorkerId, e: ActorId, id: JobId)
    requires WellKept(c) && JobFits(c.sys, id) && CalmEnabled(c, Step(Worker(Take(w, e))))
    ensures JobFits(CalmNext(c, Step(Worker(Take(w, e)))).sys, id)
  {
    var s, t := c.sys, CalmNext(c, Step(Worker(Take(w, e)))).sys;
    TakeTailPlaces(s, w, id);
    var u := TakeTail(s, w);
    assert t == u.(execs := t.execs);
    assert forall pl :: At(t, id, pl) <==> At(u, id, pl);
    if Oldest(s) == Id(id) {
      assert At(s, id, Pending);
      assert At(t, id, List(w));
      assert forall f :: f in s.execs && s.execs[f].entry == Id(id) ==> At(s, id, List(s.execs[f].worker));
    } else {
      assert SameExecs(s, t, id);
      Untouched(s, t, id);
    }
  }

  lemma TakeLostKeeps(c: CalmState, w: WorkerId, id: JobId)
    requires WellKept(c) && JobFits(c.sys, id) && CalmEnabled(c, Step(Worker(TakeLost(w))))
    ensures JobFits(CalmNext(c, Step(Worker(TakeLost(w)))).sys, id)
  {
    var s, t := c.sys, CalmNext(c, Step(Worker(TakeLost(w)))).sys;
    TakeTailPlaces(s, w, id);
    if Oldest(s) == Id(id) {
      assert At(s, id, Pending);
      assert At(t, id, List(w));
      assert forall f :: f in s.execs && s.execs[f].entry == Id(id) ==> At(s, id, List(s.execs[f].worker));
      RestsFits(t, id, List(w));
    } else {
      Untouched(s, t, id);
    }
  }

  // Steps of one execution that move no id: SELECT, claim, settle, throw, resolve.
  predicate LocalStep(a: WorkerAction) {
    a.SelectRow? || a.Claim? || a.Settle? || a.Throw? || a.Resolve?
  }

  lemma LocalFrame(s: State, a: WorkerAction)
    requires WorkerEnabled(s, a) && LocalStep(a)
    ensures var t := WorkerNext(s, a);
      && t == s.(db := t.db, execs := t.execs)
      && t.execs.Keys == s.execs.Keys
      && (forall f :: f in s.execs && f != a.e ==> t.execs[f] == s.execs[f])
      && t.execs[a.e].entry == s.execs[a.e].entry && t.execs[a.e].worker == s.execs[a.e].worker
  {}

  lemma LocalOther(s: State, a: WorkerAction, id: JobId)
    requires WorkerEnabled(s, a) && LocalStep(a) && s.execs[a.e].entry != Id(id)
    ensures SameRow(s.db, WorkerNext(s, a).db, id)
  {
    if a.Settle? {
      EffectCountAppend(s.db.effects, Effect(s.execs[a.e].entry.job, s.execs[a.e].worker, s.execs[a.e].pc.lease), id);
    }
  }

  // The execution's own job: the row and what the execution knows about it change together.
  lemma LocalOwn(s: State, a: WorkerAction, id: JobId)
    requires s.fencing && JobFits(s, id) && WorkerEnabled(s, a) && LocalStep(a) && s.execs[a.e].entry == Id(id)
    ensures var t := WorkerNext(s, a);
      id in t.db.rows && Informed(t, t.execs[a.e]) && RecordedOnce(t, id)
  {
    if a.Settle? {
      EffectCountAppend(s.db.effects, Effect(id, s.execs[a.e].worker, s.execs[a.e].pc.lease), id);
    }
  }

  lemma LocalKeeps(c: CalmState, a: WorkerAction, id: JobId)
    requires WellKept(c) && JobFits(c.sys, id) && WorkerEnabled(c.sys, a) && LocalStep(a)
    ensures JobFits(WorkerNext(c.sys, a), id)
  {
    hide JobFits, WorkerNext;
    var s, t := c.sys, WorkerNext(c.sys, a);
    LocalFrame(s, a);
    LocalPlaces(s, t, id);
    if s.execs[a.e].entry == Id(id) {
      LocalOwn(s, a, id);
      OwnKeeps(s, t, a.e, id);
    } else {
      LocalOther(s, a, id);
      assert SameExecs(s, t, id);
      ListsStayOnce(s, t, id);
      Untouched(s, t, id);
    }
  }

  lemma ListsStayOnce(s: State, t: State, id: JobId)
    requires JobFits(s, id) && t.pending == s.pending && t.processing == s.processing
    ensures ListsOnce(t, id)
  {}

  lemma LocalPlaces(s: State, t: State, id: JobId)
    requires t == s.(db := t.db, execs := t.execs)
    ensures SamePlaces(s, t, id)
  {}

  lemma OwnKeeps(s: State, t: State, e: ActorId, id: JobId)
    requires JobFits(s, id) && t == s.(db := t.db, execs := t.execs)
    requires e in s.execs && s.execs[e].entry == Id(id) && t.execs.Keys == s.execs.Keys
    requires forall f :: f in s.execs && f != e ==> t.execs[f] == s.execs[f]
    requires t.execs[e].entry == s.execs[e].entry && t.execs[e].worker == s.execs[e].worker
    requires id in t.db.rows && Informed(t, t.execs[e]) && RecordedOnce(t, id)
    ensures JobFits(t, id)
  {
    LocalPlaces(s, t, id);
    var w := s.execs[e].worker;
    assert At(s, id, List(w)) && At(t, id, List(w));
    forall pl | At(t, id, pl) ensures pl == List(w) { assert At(s, id, pl); }
    forall f | f in t.execs && t.execs[f].entry == Id(id) ensures f == e { assert f in s.execs; }
  }

  // The LREM that ends an execution, after a park or after an outcome.
  lemma ReleasePlaces(s: State, t: State, e: ActorId, id: JobId)
    requires JobFits(s, id) && e in s.execs
    requires t.processing == s.processing[s.execs[e].worker := RemoveFirst(Processing(s, s.execs[e].worker), s.execs[e].entry)]
    requires t.pending == s.pending
    ensures ListsOnce(t, id)
    ensures forall w :: At(t, id, List(w)) <==>
      At(s, id, List(w)) && !(w == s.execs[e].worker && s.execs[e].entry == Id(id))
  {
    var w := s.execs[e].worker;
    RemoveFirstFrom(Processing(s, w), s.execs[e].entry, Id(id));
    assert Id(id) in Processing(s, w) <==> At(s, id, List(w));
  }

  lemma ReleaseKeeps(c: CalmState, e: ActorId, id: JobId)
    requires WellKept(c) && JobFits(c.sys, id) && WorkerEnabled(c.sys, Release(e))
    ensures JobFits(WorkerNext(c.sys, Release(e)), id)
  {
    var s, t := c.sys, WorkerNext(c.sys, Release(e));
    ReleasePlaces(s, t, e, id);
    if s.execs[e].entry == Id(id) {
      assert At(s, id, List(s.execs[e].worker));
      assert forall pl :: At(t, id, pl) ==> At(s, id, pl);
      AbsentFits(t, id);
    } else {
      assert forall pl :: At(t, id, pl) <==> At(s, id, pl);
      Untouched(s, t, id);
    }
  }

  lemma ParkKeeps(c: CalmState, e: ActorId, due: int, id: JobId)
    requires WellKept(c) && JobFits(c.sys, id) && WorkerEnabled(c.sys, Zadd(e, due))
    ensures JobFits(ParkedAndReleased(c.sys, e, due), id)
  {
    var s, t := c.sys, ParkedAndReleased(c.sys, e, due);
    ReleasePlaces(s, t, e, id);
    if s.execs[e].entry == Id(id) {
      assert At(s, id, List(s.execs[e].worker));
      assert forall pl :: At(t, id, pl) && pl != Delayed ==> At(s, id, pl);
      RestsFits(t, id, Delayed);
    } else {
      assert forall pl :: At(t, id, pl) <==> At(s, id, pl);
      Untouched(s, t, id);
    }
  }

  // Executions that end, and heartbeats, move nothing.
  lemma FewerExecsKeeps(s: State, t: State, id: JobId)
    requires JobFits(s, id) && t == s.(execs := t.execs, alive := t.alive) && SameExecs(s, t, id)
    ensures JobFits(t, id)
  {
    assert forall pl :: At(t, id, pl) <==> At(s, id, pl);
    Untouched(s, t, id);
  }

  // ---- Recovery ----

  lemma {:induction false} ReverseOnce(l: seq<Entry>, e: Entry)
    requires Once(l, e)
    ensures Once(Reverse(l), e)
    ensures e in Reverse(l) <==> e in l
  {
    assert forall i :: 0 <= i < |l| ==> Reverse(l)[i] == l[|l| - 1 - i];
    if e in l {
      var i :| 0 <= i < |l| && l[i] == e;
      assert Reverse(l)[|l| - 1 - i] == e;
    }
  }

  lemma AppendOnce(l: seq<Entry>, m: seq<Entry>, e: Entry)
    requires Once(l, e) && Once(m, e) && !(e in l && e in m)
    ensures Once(l + m, e)
    ensures e in l + m <==> e in l || e in m
  {}

  lemma RecoverKeeps(c: CalmState, w: WorkerId, id: JobId)
    requires WellKept(c) && JobFits(c.sys, id) && CalmEnabled(c, RecoverOwn(w))
    ensures JobFits(CalmNext(c, RecoverOwn(w)).sys, id)
  {
    var s, t := c.sys, CalmNext(c, RecoverOwn(w)).sys;
    var l := Processing(s, w);
    assert Id(id) in l <==> At(s, id, List(w));
    assert id in JobsIn(l) <==> Id(id) in l;
    ReverseOnce(l, Id(id));
    if Id(id) in l {
      assert At(s, id, List(w)) && !At(s, id, Pending);
      assert |JobsIn(l)| > 0;
      AppendOnce(s.pending, Reverse(l), Id(id));
      forall pl ensures At(t, id, pl) <==> pl == Pending {
        if At(t, id, pl) && pl != Pending { assert At(s, id, pl); }
      }
      NoExecOnDown(c, id, w);
      RestsFits(t, id, Pending);
    } else {
      AppendOnce(s.pending, Reverse(l), Id(id));
      assert forall pl :: At(t, id, pl) <==> At(s, id, pl);
      Untouched(s, t, id);
    }
  }

  lemma ReapPlaces(s: State, w: WorkerId, id: JobId)
    requires JobFits(s, id) && |Processing(s, w)| > 0
    ensures var t := ReapedBy(s, w);
      && ListsOnce(t, id)
      && (Tail(s, w) != Id(id) ==> forall pl :: At(t, id, pl) <==> At(s, id, pl))
      && (Tail(s, w) == Id(id) ==> forall pl :: At(t, id, pl) <==> (pl == Pending && Verdict(s, w).Requeueing?))
  {
    var t, l := ReapedBy(s, w), Processing(s, w);
    DropTail(l, Id(id));
    assert Id(id) in l <==> At(s, id, List(w));
    if Tail(s, w) == Id(id) { assert Id(id) in l; assert !At(s, id, Pending); }
    PushTail(s.pending, Tail(s, w), Id(id));
    forall pl ensures At(t, id, pl) <==> (if Tail(s, w) == Id(id) then pl == Pending && Verdict(s, w).Requeueing? else At(s, id, pl)) {
      if Tail(s, w) == Id(id) && pl != List(w) { assert !At(s, id, pl); }
      match pl
      case Pending =>
      case List(v) =>
      case Delayed =>
      case InHand(p) =>
      case AtDoor(k) =>
    }
  }

  lemma ReapKeeps(c: CalmState, w: WorkerId, id: JobId)
    requires WellKept(c) && JobFits(c.sys, id) && CalmEnabled(c, ReapOne(w))
    ensures JobFits(CalmNext(c, ReapOne(w)).sys, id)
  {
    var s, t := c.sys, CalmNext(c, ReapOne(w)).sys;
    ReapPlaces(s, w, id);
    if Tail(s, w) == Id(id) {
      assert At(s, id, List(w));
      NoExecOnDown(c, id, w);
      if Verdict(s, w).Requeueing? { assert At(t, id, Pending); RestsFits(t, id, Pending); } else { AbsentFits(t, id); }
    } else {
      Untouched(s, t, id);
    }
  }

  // ---- Promotion ----

  // ZREM and UPDATE: the id goes into the hand, and its row is queued there.
  lemma PromoteTakesInHand(c: CalmState, p: ActorId, id: JobId)
    requires WellKept(c) && JobFits(c.sys, id) && PromoteEnabled(c.sys, PromoteClaim(p))
    requires c.sys.promotions[p].due[0] == id && id in c.sys.delayed
    ensures JobFits(PromoteNext(c.sys, PromoteClaim(p)), id)
  {
    var s, t := c.sys, PromoteNext(c.sys, PromoteClaim(p));
    assert At(s, id, Delayed);
    forall pl ensures At(t, id, pl) <==> pl == InHand(p) {
      if pl != InHand(p) { assert At(t, id, pl) ==> At(s, id, pl) && pl != Delayed; }
    }
    NoExecOffList(s, id, Delayed);
    RestsFits(t, id, InHand(p));
  }

  lemma PromoteQueues(c: CalmState, p: ActorId, id: JobId)
    requires WellKept(c) && JobFits(c.sys, id) && PromoteEnabled(c.sys, PromoteUpdate(p))
    requires c.sys.promotions[p].hand.job == id
    ensures JobFits(PromoteNext(c.sys, PromoteUpdate(p)), id)
  {
    var s, t := c.sys, PromoteNext(c.sys, PromoteUpdate(p));
    assert At(s, id, InHand(p));
    assert forall pl :: At(t, id, pl) <==> At(s, id, pl);
    NoExecOffList(s, id, InHand(p));
    RestsFits(t, id, InHand(p));
  }

  lemma PromotePushes(c: CalmState, p: ActorId, id: JobId)
    requires WellKept(c) && JobFits(c.sys, id) && PromoteEnabled(c.sys, PromotePush(p))
    requires c.sys.promotions[p].hand.job == id
    ensures JobFits(PromoteNext(c.sys, PromotePush(p)), id)
  {
    var s, t := c.sys, PromoteNext(c.sys, PromotePush(p));
    assert At(s, id, InHand(p)) && !At(s, id, Pending);
    PushHead(s.pending, Id(id), Id(id));
    forall pl ensures At(t, id, pl) <==> pl == Pending {
      if pl != Pending { assert At(t, id, pl) ==> At(s, id, pl) && pl != InHand(p); }
    }
    NoExecOffList(s, id, InHand(p));
    RestsFits(t, id, Pending);
  }

  lemma PromoteDrops(c: CalmState, p: ActorId, id: JobId)
    requires WellKept(c) && JobFits(c.sys, id) && PromoteEnabled(c.sys, PromoteStop(p)) && At(c.sys, id, InHand(p))
    ensures JobFits(PromoteNext(c.sys, PromoteStop(p)), id)
  {
    var s, t := c.sys, PromoteNext(c.sys, PromoteStop(p));
    forall pl ensures !At(t, id, pl) {
      assert At(t, id, pl) ==> At(s, id, pl) && pl != InHand(p);
    }
    NoExecOffList(s, id, InHand(p));
    AbsentFits(t, id);
  }

  lemma PromoteElsewhere(c: CalmState, a: PromoteAction, id: JobId)
    requires WellKept(c) && JobFits(c.sys, id) && CalmEnabled(c, Step(Promoter(a)))
    requires a.PromoteClaim? && c.sys.promotions[a.p].due[0] == id ==> id !in c.sys.delayed
    requires a.PromoteUpdate? || a.PromotePush? ==> c.sys.promotions[a.p].hand.job != id
    requires a.PromoteStop? ==> !At(c.sys, id, InHand(a.p))
    ensures JobFits(PromoteNext(c.sys, a), id)
  {
    var s, t := c.sys, PromoteNext(c.sys, a);
    if a.PromotePush? { PushHead(s.pending, Id(s.promotions[a.p].hand.job), Id(id)); }
    assert forall pl :: At(t, id, pl) <==> At(s, id, pl);
    Untouched(s, t, id);
  }

  lemma PromoteKeeps(c: CalmState, a: PromoteAction, id: JobId)
    requires WellKept(c) && JobFits(c.sys, id) && CalmEnabled(c, Step(Promoter(a)))
    ensures JobFits(PromoteNext(c.sys, a), id)
  {
    hide JobFits, WellKept, PromoteNext;
    var s := c.sys;
    if a.PromoteClaim? && s.promotions[a.p].due[0] == id && id in s.delayed {
      PromoteTakesInHand(c, a.p, id);
    } else if a.PromoteUpdate? && s.promotions[a.p].hand.job == id {
      PromoteQueues(c, a.p, id);
    } else if a.PromotePush? && s.promotions[a.p].hand.job == id {
      PromotePushes(c, a.p, id);
    } else if a.PromoteStop? && At(s, id, InHand(a.p)) {
      PromoteDrops(c, a.p, id);
    } else {
      PromoteElsewhere(c, a, id);
    }
  }

  // ---- The API ----

  lemma InsertKeeps(c: CalmState, k: ActorId, j: JobId, key: Option<string>, now: int, id: JobId)
    requires WellKept(c) && JobFits(c.sys, id) && ApiEnabled(c.sys, SubmitInsert(k, j, key, now))
    ensures JobFits(ApiNext(c.sys, SubmitInsert(k, j, key, now)), id)
  {
    var s, t := c.sys, ApiNext(c.sys, SubmitInsert(k, j, key, now));
    if id == j && t.submits[k].pc.ToPush? {
      assert forall pl :: !At(s, id, pl);
      NoExecNowhere(s, id);
      assert forall pl :: At(t, id, pl) <==> pl == AtDoor(k) by {
        forall pl | At(t, id, pl) && pl != AtDoor(k) ensures false { assert At(s, id, pl); }
      }
      RestsFits(t, id, AtDoor(k));
    } else {
      assert forall pl :: At(t, id, pl) <==> At(s, id, pl);
      Untouched(s, t, id);
    }
  }

  lemma SubmitPushKeeps(c: CalmState, k: ActorId, id: JobId)
    requires WellKept(c) && JobFits(c.sys, id) && ApiEnabled(c.sys, SubmitPush(k))
    ensures JobFits(ApiNext(c.sys, SubmitPush(k)), id)
  {
    var s, t := c.sys, ApiNext(c.sys, SubmitPush(k));
    var j := s.submits[k].pc.job;
    if id == j {
      assert At(s, id, AtDoor(k)) && !At(s, id, Pending);
      PushHead(s.pending, Id(id), Id(id));
      assert forall pl :: At(t, id, pl) <==> pl == Pending by {
        forall pl | At(t, id, pl) && pl != Pending ensures false { assert At(s, id, pl); }
      }
      NoExecOffList(s, id, AtDoor(k));
      RestsFits(t, id, Pending);
    } else {
      PushHead(s.pending, Id(j), Id(id));
      assert forall pl :: At(t, id, pl) <==> At(s, id, pl);
      Untouched(s, t, id);
    }
  }

  lemma SubmitStopKeeps(c: CalmState, k: ActorId, id: JobId)
    requires WellKept(c) && JobFits(c.sys, id) && ApiEnabled(c.sys, SubmitStop(k))
    ensures JobFits(ApiNext(c.sys, SubmitStop(k)), id)
  {
    var s, t := c.sys, ApiNext(c.sys, SubmitStop(k));
    if At(s, id, AtDoor(k)) {
      assert forall pl :: !At(t, id, pl) by {
        forall pl | At(t, id, pl) ensures false { assert At(s, id, pl); }
      }
      NoExecOffList(s, id, AtDoor(k));
      AbsentFits(t, id);
    } else {
      assert forall pl :: At(t, id, pl) <==> At(s, id, pl);
      Untouched(s, t, id);
    }
  }

  lemma LookUpKeeps(c: CalmState, k: ActorId, found: Option<JobId>, id: JobId)
    requires WellKept(c) && JobFits(c.sys, id) && ApiEnabled(c.sys, SubmitLookUp(k, found))
    ensures JobFits(ApiNext(c.sys, SubmitLookUp(k, found)), id)
  {
    var s, t := c.sys, ApiNext(c.sys, SubmitLookUp(k, found));
    assert forall pl :: At(t, id, pl) <==> At(s, id, pl);
    Untouched(s, t, id);
  }

  lemma ReplayKeeps(c: CalmState, j: JobId, id: JobId)
    requires WellKept(c) && JobFits(c.sys, id) && CalmEnabled(c, ReplayNow(j))
    ensures JobFits(CalmNext(c, ReplayNow(j)).sys, id)
  {
    var s, t := c.sys, CalmNext(c, ReplayNow(j)).sys;
    if id == j {
      assert !At(s, id, Pending);
      PushHead(s.pending, Id(id), Id(id));
      assert forall pl :: At(t, id, pl) <==> pl == Pending by {
        forall pl | At(t, id, pl) && pl != Pending ensures false { assert At(s, id, pl); }
      }
      NoExecNowhere(s, id);
      RestsFits(t, id, Pending);
    } else {
      PushHead(s.pending, Id(j), Id(id));
      assert forall pl :: At(t, id, pl) <==> At(s, id, pl);
      Untouched(s, t, id);
    }
  }

  // ---- The sweep ----

  lemma {:induction false} OrphansOnce(s: State, cs: seq<JobId>, id: JobId)
    requires NoDup(cs)
    ensures Once(Orphans(s, cs), Id(id))
    ensures Id(id) in Orphans(s, cs) <==> id in cs && !HeldByRedis(s, id)
  {
    if |cs| > 0 {
      var rest := cs[1..];
      assert NoDup(rest) by { assert forall i :: 0 <= i < |rest| ==> rest[i] == cs[i + 1]; }
      OrphansOnce(s, rest, id);
      assert id in cs <==> id == cs[0] || id in rest;
      assert cs[0] !in rest by { assert forall i :: 0 <= i < |rest| ==> rest[i] == cs[i + 1]; }
      if !HeldByRedis(s, cs[0]) { PushHead(Orphans(s, rest), Id(cs[0]), Id(id)); }
    }
  }

  lemma SweepKeeps(c: CalmState, cutoff: int, cs: seq<JobId>, id: JobId)
    requires WellKept(c) && JobFits(c.sys, id) && CalmEnabled(c, SweepAll(cutoff, cs))
    ensures JobFits(CalmNext(c, SweepAll(cutoff, cs)).sys, id)
  {
    var s, t := c.sys, CalmNext(c, SweepAll(cutoff, cs)).sys;
    OrphansOnce(s, cs, id);
    AppendOnce(s.pending, Orphans(s, cs), Id(id));
    if id in cs && !HeldByRedis(s, id) {
      assert id in QueuedBefore(s.db, cutoff);
      forall pl ensures !At(s, id, pl) {
        match pl
        case Pending =>
        case List(w) =>
        case Delayed =>
        case InHand(p) =>
        case AtDoor(k) =>
      }
      assert forall pl :: At(t, id, pl) <==> pl == Pending by {
        forall pl | At(t, id, pl) && pl != Pending ensures false { assert At(s, id, pl); }
      }
      NoExecNowhere(s, id);
      RestsFits(t, id, Pending);
    } else {
      assert forall pl :: At(t, id, pl) <==> At(s, id, pl);
      Untouched(s, t, id);
    }
  }

  // ---- Every step ----

  lemma WorkerKeeps(c: CalmState, a: WorkerAction, id: JobId)
    requires WellKept(c) && JobFits(c.sys, id) && CalmEnabled(c, Step(Worker(a)))
    ensures JobFits(CalmNext(c, Step(Worker(a))).sys, id)
  {
    hide JobFits, WellKept;
    match a
    case Take(w, e) => TakeKeeps(c, w, e, id);
    case TakeLost(w) => TakeLostKeeps(c, w, id);
    case Release(e) => ReleaseKeeps(c, e, id);
    case Abandon(e) => FewerExecsKeeps(c.sys, WorkerNext(c.sys, a), id);
    case Expire(w) => FewerExecsKeeps(c.sys, WorkerNext(c.sys, a), id);
    case _ => LocalKeeps(c, a, id);
  }

  lemma ApiKeeps(c: CalmState, a: ApiAction, id: JobId)
    requires WellKept(c) && JobFits(c.sys, id) && CalmEnabled(c, Step(Api(a)))
    ensures JobFits(CalmNext(c, Step(Api(a))).sys, id)
  {
    hide JobFits, WellKept, ApiNext;
    match a
    case SubmitInsert(k, j, key, now) => InsertKeeps(c, k, j, key, now, id);
    case SubmitPush(k) => SubmitPushKeeps(c, k, id);
    case SubmitLookUp(k, found) => LookUpKeeps(c, k, found, id);
    case SubmitStop(k) => SubmitStopKeeps(c, k, id);
  }

  lemma StepKeepsJob(c: CalmState, a: CalmAction, id: JobId)
    requires WellKept(c) && JobFits(c.sys, id) && CalmEnabled(c, a)
    ensures JobFits(CalmNext(c, a).sys, id)
  {
    hide JobFits, WellKept;
    match a
    case Step(Worker(x)) => WorkerKeeps(c, x, id);
    case Step(Promoter(x)) => PromoteKeeps(c, x, id);
    case Step(Api(x)) => ApiKeeps(c, x, id);
    case ParkAndRelease(e, due) => ParkKeeps(c, e, due, id);
    case Stop(w) => FewerExecsKeeps(c.sys, StoppedAll(c.sys, w), id);
    case StartBeating(w) => FewerExecsKeeps(c.sys, c.sys.(alive := c.sys.alive + {w}), id);
    case RecoverOwn(w) => RecoverKeeps(c, w, id);
    case ReapOne(w) => ReapKeeps(c, w, id);
    case SweepAll(cutoff, cs) => SweepKeeps(c, cutoff, cs, id);
    case ReplayNow(j) => ReplayKeeps(c, j, id);
  }

  // The lists hold ids only, executions belong to running workers, and the other actors stay away.
  lemma {:induction false} ReverseIds(l: seq<Entry>)
    requires forall x :: x in l ==> x.Id?
    ensures forall x :: x in Reverse(l) ==> x.Id?
  {
    assert forall i :: 0 <= i < |l| ==> Reverse(l)[i] == l[|l| - 1 - i];
  }

  lemma {:induction false} OrphansAreIds(s: State, cs: seq<JobId>)
    ensures forall x :: x in Orphans(s, cs) ==> x.Id?
  {
    if |cs| > 0 { OrphansAreIds(s, cs[1..]); }
  }

  lemma {:induction false} RemoveFirstIds(l: seq<Entry>, e: Entry)
    ensures forall x :: x in RemoveFirst(l, e) ==> x in l
  {
    if |l| > 0 && l[0] != e { RemoveFirstIds(l[1..], e); }
  }

  lemma WorkerKeepsWell(c: CalmState, a: WorkerAction)
    requires WellKept(c) && CalmEnabled(c, Step(Worker(a)))
    ensures WellKept(CalmNext(c, Step(Worker(a))))
  {
    var s := c.sys;
    if a.Take? || a.TakeLost? {
      TakeKeepsWell(c, a);
    } else if a.Release? {
      RemoveFirstIds(Processing(s, s.execs[a.e].worker), s.execs[a.e].entry);
    }
  }

  lemma TakeKeepsWell(c: CalmState, a: WorkerAction)
    requires WellKept(c) && CalmEnabled(c, Step(Worker(a))) && (a.Take? || a.TakeLost?)
    ensures WellKept(CalmNext(c, Step(Worker(a))))
  {
    assert Oldest(c.sys) in c.sys.pending;
  }

  lemma OtherKeepsWell(c: CalmState, a: CalmAction)
    requires WellKept(c) && CalmEnabled(c, a) && !a.Step?
    ensures WellKept(CalmNext(c, a))
  {
    var s := c.sys;
    match a
    case ParkAndRelease(e, due) => RemoveFirstIds(Processing(s, s.execs[e].worker), s.execs[e].entry);
    case RecoverOwn(w) => ReverseIds(Processing(s, w));
    case SweepAll(cutoff, cs) => OrphansAreIds(s, cs);
    case _ =>
  }

  lemma StepKeepsWell(c: CalmState, a: CalmAction)
    requires WellKept(c) && CalmEnabled(c, a)
    ensures WellKept(CalmNext(c, a))
  {
    match a
    case Step(Worker(x)) => WorkerKeepsWell(c, x);
    case Step(Promoter(x)) => PromoteKeepsWell(c, x);
    case Step(Api(x)) => ApiKeepsWell(c, x);
    case _ => OtherKeepsWell(c, a);
  }

  lemma PromoteKeepsWell(c: CalmState, a: PromoteAction)
    requires WellKept(c) && CalmEnabled(c, Step(Promoter(a)))
    ensures WellKept(CalmNext(c, Step(Promoter(a))))
  {}

  lemma ApiKeepsWell(c: CalmState, a: ApiAction)
    requires WellKept(c) && CalmEnabled(c, Step(Api(a)))
    ensures WellKept(CalmNext(c, Step(Api(a))))
  {}

  lemma StepKeepsCalm(c: CalmState, a: CalmAction)
    requires CalmInv(c) && CalmEnabled(c, a)
    ensures CalmInv(CalmNext(c, a))
  {
    hide JobFits, WellKept, CalmNext;
    StepKeepsWell(c, a);
    forall id ensures JobFits(CalmNext(c, a).sys, id) { StepKeepsJob(c, a, id); }
  }

  lemma InitiallyCalm(c: CalmState)
    requires CalmInitial(c)
    ensures CalmInv(c)
  {
    forall id ensures JobFits(c.sys, id) { assert forall pl :: !At(c.sys, id, pl); }
  }

  // Main result: the invariant of every job and of the processes holds in every state of every calm run.
  lemma {:induction false} CalmAlways(c: CalmState, r: Run<CalmAction>)
    requires CalmInitial(c) && CalmValid(c, r)
    ensures CalmInv(CalmAfter(c, r))
  {
    match r
    case Start => InitiallyCalm(c);
    case Then(r', a) =>
      CalmAlways(c, r');
      StepKeepsCalm(CalmAfter(c, r'), a);
  }
}
