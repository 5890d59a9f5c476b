// The calm system only rearranges the free one: every calm step is a run of free steps.
module CalmRefinement {
  import opened Types
  import opened Lists
  import opened Database
  import opened System
  import opened Calm
  import opened CalmSafety

  // Nobody is in the middle of a recovery, a reap, a sweep or a replay.
  ghost predicate Uninvolved(s: State) {
    s.recoveries == map[] && s.reaps == map[] && s.sweeps == map[] && s.replays == map[]
  }

  lemma ParkAndReleaseIsFree(s: State, e: ActorId, due: int) returns (r: Run<Action>)
    requires WorkerEnabled(s, Zadd(e, due))
    ensures Leads(s, r, ParkedAndReleased(s, e, due))
  {
    var u: State;
    r, u := ExtendWorker(s, Start, s, Zadd(e, due));
    r, u := ExtendWorker(s, r, u, Release(e));
    assert u.execs == s.execs - {e};
    assert u == ParkedAndReleased(s, e, due);
  }

  lemma ReplayIsFree(c: CalmState, id: JobId) returns (r: Run<Action>)
    requires CalmEnabled(c, ReplayNow(id)) && Uninvolved(c.sys)
    ensures Leads(c.sys, r, CalmNext(c, ReplayNow(id)).sys)
  {
    var s := c.sys;
    var u: State;
    r, u := ExtendApi(s, Start, s, ReplayUpdate(0, id));
    assert u.replays == map[0 := id];
    r, u := ExtendApi(s, r, u, ReplayPush(0));
    assert u.replays == map[];
  }

  // ---- One reaper iteration ----

  lemma ReapIndexed(s: State, w: WorkerId) returns (r: Run<Action>, u: State)
    requires w !in s.alive && |Processing(s, w)| > 0 && s.reaps == map[]
    ensures Leads(s, r, u)
    ensures u == s.(reaps := map[0 := Reap(w, if Tail(s, w).Id? then Looking(Tail(s, w).job) else Removing(Tail(s, w)))])
  {
    hide Leads;
    r, u := Begin(s);
    r, u := ExtendReap(s, r, u, ReapStart(0, w));
    assert u.reaps == map[0 := Reap(w, Indexing)];
    r, u := ExtendReap(s, r, u, ReapIndex(0));
    assert u.reaps.Keys == {0};
  }

  lemma ReapJudged(s: State, w: WorkerId) returns (r: Run<Action>, u: State)
    requires w !in s.alive && |Processing(s, w)| > 0 && s.reaps == map[]
    ensures Leads(s, r, u) && u == s.(reaps := map[0 := Reap(w, Verdict(s, w))])
  {
    hide Leads;
    r, u := ReapIndexed(s, w);
    if Tail(s, w).Id? {
      r, u := ExtendReap(s, r, u, ReapSelect(0));
      assert u.reaps == map[0 := Reap(w, Verdict(s, w))];
    }
  }

  lemma Begin(s: State) returns (r: Run<Action>, u: State)
    ensures Leads(s, r, u) && u == s
  {
    r, u := Start, s;
  }

  lemma RemoveLastTail(l: seq<Entry>)
    requires |l| > 0
    ensures RemoveLast(l, l[|l| - 1]) == l[..|l| - 1]
  {}

  lemma ReapWritten(s: State, r: Run<Action>, b: State, w: WorkerId, v: ReapPc) returns (q: Run<Action>, u: State)
    requires Leads(s, r, b) && b.reaps == map[0 := Reap(w, v)] && (v.Burying? || v.Requeueing?)
    ensures Leads(s, q, u)
    ensures u == b.(db := SetStatus(b.db, v.job, if v.Burying? then Dead else Queued),
                    reaps := map[0 := Reap(w, if v.Burying? then Removing(Id(v.job)) else MovingOne)])
  {
    hide Leads;
    q, u := ExtendReap(s, r, b, ReapUpdate(0));
    assert u.reaps == map[0 := Reap(w, if v.Burying? then Removing(Id(v.job)) else MovingOne)];
  }

  // The last commands of the iteration: the entry goes, and the loop is left.
  lemma ReapRemoved(s: State, r: Run<Action>, b: State, w: WorkerId) returns (q: Run<Action>, u: State)
    requires Leads(s, r, b) && |Processing(b, w)| > 0 && b.reaps == map[0 := Reap(w, Removing(Tail(b, w)))]
    ensures Leads(s, q, u)
    ensures u == b.(reaps := map[], processing := b.processing[w := Processing(b, w)[..|Processing(b, w)| - 1]])
  {
    hide Leads;
    RemoveLastTail(Processing(b, w));
    q, u := ExtendReap(s, r, b, ReapRemove(0));
    assert u.reaps == map[0 := Reap(w, Indexing)];
    q, u := ExtendReap(s, q, u, ReapStop(0));
    assert u.reaps == map[];
  }

  lemma ReapMoved(s: State, r: Run<Action>, b: State, w: WorkerId) returns (q: Run<Action>, u: State)
    requires Leads(s, r, b) && |Processing(b, w)| > 0 && b.reaps == map[0 := Reap(w, MovingOne)]
    ensures Leads(s, q, u)
    ensures u == b.(reaps := map[], processing := b.processing[w := Processing(b, w)[..|Processing(b, w)| - 1]],
                    pending := b.pending + [Tail(b, w)])
  {
    hide Leads;
    q, u := ExtendReap(s, r, b, ReapMove(0));
    assert u.reaps == map[0 := Reap(w, Indexing)];
    q, u := ExtendReap(s, q, u, ReapStop(0));
    assert u.reaps == map[];
  }

  lemma ReapIsFree(s: State, w: WorkerId) returns (r: Run<Action>)
    requires w !in s.alive && |Processing(s, w)| > 0 && s.reaps == map[]
    ensures Leads(s, r, ReapedBy(s, w))
  {
    hide Leads;
    var u: State;
    r, u := ReapJudged(s, w);
    match Verdict(s, w) {
      case Removing(e) => r, u := ReapRemoved(s, r, u, w);
      case Burying(_, _) => r := ReapBuried(s, r, u, w);
      case Requeueing(_, _) => r := ReapRequeued(s, r, u, w);
    }
  }

  lemma ReapBuried(s: State, r: Run<Action>, b: State, w: WorkerId) returns (q: Run<Action>)
    requires |Processing(s, w)| > 0 && s.reaps == map[] && Verdict(s, w).Burying?
    requires Leads(s, r, b) && b == s.(reaps := map[0 := Reap(w, Verdict(s, w))])
    ensures Leads(s, q, ReapedBy(s, w))
  {
    hide Leads;
    var u: State;
    q, u := ReapWritten(s, r, b, w, Verdict(s, w));
    q, u := ReapRemoved(s, q, u, w);
    assert u == ReapedBy(s, w);
  }

  lemma ReapRequeued(s: State, r: Run<Action>, b: State, w: WorkerId) returns (q: Run<Action>)
    requires |Processing(s, w)| > 0 && s.reaps == map[] && Verdict(s, w).Requeueing?
    requires Leads(s, r, b) && b == s.(reaps := map[0 := Reap(w, Verdict(s, w))])
    ensures Leads(s, q, ReapedBy(s, w))
  {
    hide Leads;
    var u: State;
    q, u := ReapWritten(s, r, b, w, Verdict(s, w));
    q, u := ReapMoved(s, q, u, w);
    assert u == ReapedBy(s, w);
  }

  // ---- A worker recovering its own list ----

  lemma MoveOneBack(s: State, r: Run<Action>, b: State, w: WorkerId) returns (q: Run<Action>, u: State)
    requires Leads(s, r, b) && b.recoveries == map[0 := Recovery(w, MovingBack)] && |Processing(b, w)| > 0
    ensures Leads(s, q, u)
    ensures u == b.(processing := b.processing[w := Processing(b, w)[..|Processing(b, w)| - 1]],
                    pending := b.pending + [Tail(b, w)])
  {
    hide Leads;
    q, u := ExtendRecovery(s, r, b, RecoverMove(0));
  }

  lemma {:induction false} MoveAllBack(s: State, r: Run<Action>, b: State, w: WorkerId)
    returns (q: Run<Action>, u: State)
    requires Leads(s, r, b) && b.recoveries == map[0 := Recovery(w, MovingBack)] && w in b.processing
    ensures Leads(s, q, u)
    ensures u == b.(recoveries := map[], processing := b.processing[w := []], pending := b.pending + Reverse(Processing(b, w)))
    decreases |Processing(b, w)|
  {
    hide Leads;
    var l := Processing(b, w);
    if |l| == 0 {
      q, u := ExtendRecovery(s, r, b, RecoverMove(0));
      assert u.recoveries == map[];
      assert u.processing == b.processing[w := []];
      assert u.pending == b.pending + Reverse(l);
    } else {
      q, u := MoveOneBack(s, r, b, w);
      q, u := MoveAllBack(s, q, u, w);
      assert u.processing == b.processing[w := []];
      assert b.pending + [l[|l| - 1]] + Reverse(l[..|l| - 1]) == b.pending + Reverse(l);
    }
  }

  lemma RecoverIsFree(s: State, w: WorkerId) returns (r: Run<Action>)
    requires w !in s.alive && s.recoveries == map[]
    ensures Leads(s, r, RecoveredBy(s, w))
  {
    hide Leads;
    var u: State;
    r, u := Begin(s);
    r, u := ExtendRecovery(s, r, u, RecoverStart(0, w));
    assert u.recoveries == map[0 := Recovery(w, Reading)];
    r, u := ExtendRecovery(s, r, u, RecoverRead(0));
    if |JobsIn(Processing(s, w))| == 0 {
      assert u.recoveries == map[];
      assert u.processing == RecoveredBy(s, w).processing;
    } else {
      r, u := RestoreAndMove(s, r, u, w);
    }
    assert u == RecoveredBy(s, w);
  }

  lemma RestoreAndMove(s: State, r: Run<Action>, b: State, w: WorkerId) returns (q: Run<Action>, u: State)
    requires Leads(s, r, b) && w in b.processing
    requires b.recoveries == map[0 := Recovery(w, Restoring(JobsIn(Processing(b, w))))]
    ensures Leads(s, q, u)
    ensures u == b.(db := RestoreRunning(b.db, JobsIn(Processing(b, w))), recoveries := map[],
                    processing := b.processing[w := []], pending := b.pending + Reverse(Processing(b, w)))
  {
    hide Leads;
    q, u := ExtendRecovery(s, r, b, RecoverRestore(0));
    assert u.recoveries == map[0 := Recovery(w, MovingBack)];
    q, u := MoveAllBack(s, q, u, w);
  }

  // ---- The sweep ----

  // What the scan has collected once every list was read.
  function ListMembers(m: map<WorkerId, seq<Entry>>, ws: set<WorkerId>): set<Entry> {
    set w, e | w in ws && w in m && e in m[w] :: e
  }

  lemma {:induction false} ReadLists(s: State, r: Run<Action>, b: State, cs: seq<JobId>, held: set<Entry>, ws: set<WorkerId>)
    returns (q: Run<Action>, u: State)
    requires Leads(s, r, b) && b.sweeps == map[0 := Sweep(cs, held, ReadingLists)] && ws <= b.processing.Keys
    ensures Leads(s, q, u)
    ensures u == b.(sweeps := map[0 := Sweep(cs, held + ListMembers(b.processing, ws), ReadingLists)])
    decreases |ws|
  {
    hide Leads;
    q, u := r, b;
    if w :| w in ws {
      q, u := ExtendSweep(s, q, u, SweepReadList(0, w));
      var held' := held + Members(Processing(b, w));
      assert u.sweeps == map[0 := Sweep(cs, held', ReadingLists)];
      q, u := ReadLists(s, q, u, cs, held', ws - {w});
      assert held' + ListMembers(b.processing, ws - {w}) == held + ListMembers(b.processing, ws) by {
        assert ListMembers(b.processing, ws) == Members(Processing(b, w)) + ListMembers(b.processing, ws - {w});
      }
    } else {
      assert held + ListMembers(b.processing, ws) == held;
    }
  }

  lemma PushOne(s: State, r: Run<Action>, b: State, cs: seq<JobId>, held: set<Entry>)
    returns (q: Run<Action>, u: State)
    requires Leads(s, r, b) && b.sweeps == map[0 := Sweep(cs, held, SweepPc.Pushing)] && |cs| > 0
    ensures Leads(s, q, u)
    ensures u == b.(sweeps := map[0 := Sweep(cs[1..], held, SweepPc.Pushing)],
                    pending := b.pending + if Id(cs[0]) in held then [] else [Id(cs[0])])
  {
    hide Leads;
    q, u := ExtendSweep(s, r, b, SweepPush(0));
    assert u.sweeps == map[0 := Sweep(cs[1..], held, SweepPc.Pushing)];
  }

  lemma {:induction false} PushOrphans(s: State, r: Run<Action>, b: State, o: State, cs: seq<JobId>, held: set<Entry>)
    returns (q: Run<Action>, u: State)
    requires Leads(s, r, b) && b.sweeps == map[0 := Sweep(cs, held, SweepPc.Pushing)]
    requires forall id :: Id(id) in held <==> HeldByRedis(o, id)
    ensures Leads(s, q, u) && u == b.(sweeps := map[], pending := b.pending + Orphans(o, cs))
    decreases |cs|
  {
    hide Leads;
    if |cs| == 0 {
      q, u := ExtendSweep(s, r, b, SweepStop(0));
      assert u.sweeps == map[];
      assert b.pending == b.pending + Orphans(o, cs);
    } else {
      q, u := PushOne(s, r, b, cs, held);
      q, u := PushOrphans(s, q, u, o, cs[1..], held);
      assert u.pending == b.pending + Orphans(o, cs);
    }
  }

  lemma HeldIsCollected(s: State, id: JobId)
    ensures Id(id) in Members(s.pending) + ListMembers(s.processing, s.processing.Keys) <==> HeldByRedis(s, id)
  {}

  lemma SweepIsFree(s: State, cutoff: int, cs: seq<JobId>) returns (r: Run<Action>)
    requires IsLowest(QueuedBefore(s.db, cutoff), BATCH, cs) && s.sweeps == map[]
    ensures Leads(s, r, s.(pending := s.pending + Orphans(s, cs)))
  {
    hide Leads, IsLowest;
    var u: State;
    r, u := Begin(s);
    r, u := ExtendSweep(s, r, u, SweepSelect(0, cutoff, cs));
    assert u.sweeps == map[0 := Sweep(cs, {}, ReadingPending)];
    r, u := ExtendSweep(s, r, u, SweepReadPending(0));
    assert u.sweeps == map[0 := Sweep(cs, Members(s.pending), ReadingLists)];
    r, u := ReadLists(s, r, u, cs, Members(s.pending), s.processing.Keys);
    var held := Members(s.pending) + ListMembers(s.processing, s.processing.Keys);
    r, u := ExtendSweep(s, r, u, SweepScanned(0));
    assert u.sweeps == map[0 := Sweep(cs, held, SweepPc.Pushing)];
    forall id ensures Id(id) in held <==> HeldByRedis(s, id) { HeldIsCollected(s, id); }
    r, u := PushOrphans(s, r, u, s, cs, held);
  }

  // ---- Every calm step, every calm run ----

  lemma UninvolvedWhenKept(c: CalmState)
    requires WellKept(c)
    ensures Uninvolved(c.sys)
  {}

  lemma StepIsFree(c: CalmState, a: CalmAction) returns (r: Run<Action>)
    requires WellKept(c) && CalmEnabled(c, a)
    ensures Leads(c.sys, r, CalmNext(c, a).sys)
  {
    hide Leads;
    UninvolvedWhenKept(c);
    var s := c.sys;
    var u: State;
    r, u := Begin(s);
    match a
    case Step(x) => r, u := Extend(s, r, u, x);
    case ParkAndRelease(e, due) => r := ParkAndReleaseIsFree(s, e, due);
    case Stop(w) => r, u := ExtendWorker(s, r, u, Kill(w));
    case StartBeating(w) => r, u := ExtendWorker(s, r, u, Beat(w));
    case RecoverOwn(w) => r := RecoverIsFree(s, w);
    case ReapOne(w) => r := ReapIsFree(s, w);
    case SweepAll(cutoff, cs) => r := SweepIsFree(s, cutoff, cs);
    case ReplayNow(id) => r := ReplayIsFree(c, id);
  }

  // Main result: whatever a calm run reaches, the free system reaches by the very statements and commands of the code.
  lemma {:induction false} CalmRunIsFree(c: CalmState, r: Run<CalmAction>) returns (q: Run<Action>)
    requires CalmInitial(c) && CalmValid(c, r)
    ensures Valid(c.sys, q) && After(c.sys, q) == CalmAfter(c, r).sys
  {
    match r
    case Start => q := Start;
    case Then(r', a) =>
      q := CalmRunIsFree(c, r');
      CalmAlways(c, r');
      var t := StepIsFree(CalmAfter(c, r'), a);
      JoinRuns(c.sys, q, t);
      q := Join(q, t);
  }
}
