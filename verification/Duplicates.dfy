// The documentation promises one record per job. The lease alone does not keep that promise:
// three UPDATEs match on the id only, and this module exhibits a run, with fencing on, that records a job twice.
module Duplicates {
  import opened Types
  import opened Lists
  import opened Database
  import opened System

  const JOB: JobId := 7

  function EmptySystem(fencing: bool): State {
    State(Db(map[], [], 0), [], map[], map[], {}, map[], map[], map[], map[], map[], map[], map[], fencing)
  }

  function OneRow(status: Status, attempts: nat, lease: Option<Lease>): map<JobId, Row> {
    map[JOB := Row(status, attempts, DEFAULT_MAX_ATTEMPTS, lease, None, 0)]
  }

  // The fields the run is about; the other actors stay out of it.
  ghost predicate Shows(s: State, rows: map<JobId, Row>, effects: seq<Effect>, nextLease: Lease,
                        pending: seq<Entry>, delayed: map<JobId, int>)
  {
    s.db == Db(rows, effects, nextLease) && s.pending == pending && s.delayed == delayed
    && s.fencing && s.alive == {} && s.promotions == map[] && s.reaps == map[]
  }

  lemma Submitted(s: State) returns (r: Run<Action>, v: State)
    requires s == EmptySystem(true)
    ensures Leads(s, r, v)
    ensures Shows(v, OneRow(Queued, 0, None), [], 0, [Id(JOB)], map[]) && v.execs == map[] && v.processing == map[]
  {
    r, v := ExtendApi(s, Start, s, SubmitInsert(0, JOB, None, 0));
    assert v.submits == map[0 := Submit(None, ToPush(JOB))];
    r, v := ExtendApi(s, r, v, SubmitPush(0));
  }

  lemma Taken(s: State, r: Run<Action>, u: State, w: WorkerId, e: ActorId,
              rows: map<JobId, Row>, effects: seq<Effect>, next: Lease, delayed: map<JobId, int>)
    returns (q: Run<Action>, v: State)
    requires Leads(s, r, u) && Shows(u, rows, effects, next, [Id(JOB)], delayed)
    requires JOB in rows && rows[JOB].maxAttempts == DEFAULT_MAX_ATTEMPTS && e !in u.execs && |Processing(u, w)| == 0
    ensures Leads(s, q, v) && Shows(v, rows, effects, next, [], delayed)
    ensures v.execs == u.execs[e := Exec(w, Id(JOB), Claiming(DEFAULT_MAX_ATTEMPTS))]
    ensures v.processing == u.processing[w := [Id(JOB)]]
  {
    q, v := ExtendWorker(s, r, u, Take(w, e));
    assert [Id(JOB)] + Processing(u, w) == [Id(JOB)];
    assert v.pending == [];
    assert v.execs == u.execs[e := Exec(w, Id(JOB), Selecting)];
    q, v := ExtendWorker(s, q, v, SelectRow(e));
    assert v.execs == u.execs[e := Exec(w, Id(JOB), Claiming(DEFAULT_MAX_ATTEMPTS))];
  }

  // A worker takes and claims the pending copy.
  lemma Started(s: State, r: Run<Action>, u: State, w: WorkerId, e: ActorId,
                st: Status, n: nat, was: Option<Lease>, effects: seq<Effect>, next: Lease, delayed: map<JobId, int>)
    returns (q: Run<Action>, v: State)
    requires Leads(s, r, u) && Shows(u, OneRow(st, n, was), effects, next, [Id(JOB)], delayed)
    requires (st == Queued || st == Retrying) && e !in u.execs && |Processing(u, w)| == 0
    ensures Leads(s, q, v)
    ensures Shows(v, OneRow(Running, n + 1, Some(next)), effects, next + 1, [], delayed)
    ensures v.execs == u.execs[e := Exec(w, Id(JOB), Handling(next, n + 1, DEFAULT_MAX_ATTEMPTS))]
    ensures v.processing == u.processing[w := [Id(JOB)]]
  {
    hide Leads;
    q, v := Taken(s, r, u, w, e, OneRow(st, n, was), effects, next, delayed);
    q, v := ExtendWorker(s, q, v, WorkerAction.Claim(e));
    assert v.db.rows == OneRow(Running, n + 1, Some(next));
    assert v.execs == u.execs[e := Exec(w, Id(JOB), Handling(next, n + 1, DEFAULT_MAX_ATTEMPTS))];
  }

  // With the heartbeat gone, the reaper requeues the job it finds running.
  lemma Judged(s: State, r: Run<Action>, u: State, w: WorkerId) returns (q: Run<Action>, v: State)
    requires Leads(s, r, u) && Shows(u, OneRow(Running, 1, Some(0)), [], 1, [], map[])
    requires Processing(u, w) == [Id(JOB)]
    ensures Leads(s, q, v)
    ensures v == u.(reaps := map[0 := Reap(w, Requeueing(JOB, OneRow(Running, 1, Some(0))[JOB]))])
  {
    hide Leads;
    q, v := ExtendReap(s, r, u, ReapStart(0, w));
    assert v.reaps == map[0 := Reap(w, Indexing)];
    q, v := ExtendReap(s, q, v, ReapIndex(0));
    assert v.reaps == map[0 := Reap(w, Looking(JOB))];
    q, v := ExtendReap(s, q, v, ReapSelect(0));
  }

  lemma Reaped(s: State, r: Run<Action>, u: State, w: WorkerId) returns (q: Run<Action>, v: State)
    requires Leads(s, r, u) && Shows(u, OneRow(Running, 1, Some(0)), [], 1, [], map[])
    requires Processing(u, w) == [Id(JOB)]
    ensures Leads(s, q, v) && v.execs == u.execs && v.processing == u.processing[w := []]
    ensures Shows(v, OneRow(Queued, 1, Some(0)), [], 1, [Id(JOB)], map[])
  {
    hide Leads;
    q, v := Judged(s, r, u, w);
    q, v := ExtendReap(s, q, v, ReapUpdate(0));
    assert v.reaps == map[0 := Reap(w, MovingOne)];
    assert v.db.rows == OneRow(Queued, 1, Some(0));
    q, v := ExtendReap(s, q, v, ReapMove(0));
    assert v.processing == u.processing[w := []];
    q, v := ExtendReap(s, q, v, ReapStop(0));
    assert v.reaps == map[];
  }

  // The slow handler fails. Nobody has claimed the pending copy yet, so its execution still owns the row.
  lemma Parked(s: State, r: Run<Action>, u: State, w: WorkerId, e: ActorId) returns (q: Run<Action>, v: State)
    requires Leads(s, r, u) && Shows(u, OneRow(Queued, 1, Some(0)), [], 1, [Id(JOB)], map[])
    requires e in u.execs && u.execs[e] == Exec(w, Id(JOB), Handling(0, 1, DEFAULT_MAX_ATTEMPTS))
    ensures Leads(s, q, v) && v.processing == u.processing && v.execs.Keys == u.execs.Keys
    ensures Shows(v, OneRow(Retrying, 1, Some(0)), [], 1, [Id(JOB)], map[JOB := 5])
  {
    hide Leads;
    q, v := ExtendWorker(s, r, u, Throw(e));
    assert v.execs[e] == Exec(w, Id(JOB), Failing(0, 1, DEFAULT_MAX_ATTEMPTS));
    q, v := ExtendWorker(s, q, v, Resolve(e));
    assert v.execs[e] == Exec(w, Id(JOB), Parking);
    assert v.db.rows == OneRow(Retrying, 1, Some(0));
    q, v := ExtendWorker(s, q, v, Zadd(e, 5));
    assert v.delayed == map[JOB := 5];
  }

  lemma Completed(s: State, r: Run<Action>, u: State, w: WorkerId, e: ActorId,
                  n: nat, effects: seq<Effect>, next: Lease, delayed: map<JobId, int>)
    returns (q: Run<Action>, v: State)
    requires Leads(s, r, u) && Shows(u, OneRow(Running, n, Some(next)), effects, next + 1, [], delayed)
    requires e in u.execs && u.execs[e] == Exec(w, Id(JOB), Handling(next, n, DEFAULT_MAX_ATTEMPTS))
    requires Processing(u, w) == [Id(JOB)]
    ensures Leads(s, q, v)
    ensures Shows(v, OneRow(Succeeded, n, Some(next)), effects + [Effect(JOB, w, next)], next + 1, [], delayed)
    ensures v.execs.Keys == u.execs.Keys - {e} && v.processing == u.processing[w := []]
  {
    q, v := ExtendWorker(s, r, u, Settle(e));
    assert v.execs[e] == Exec(w, Id(JOB), Releasing);
    assert v.db.rows == OneRow(Succeeded, n, Some(next));
    assert RemoveFirst([Id(JOB)], Id(JOB)) == [];
    q, v := ExtendWorker(s, q, v, Release(e));
    assert v.processing == u.processing[w := []];
  }

  // The parked retry comes due although the job has succeeded meanwhile.
  lemma Handed(s: State, r: Run<Action>, u: State, n: nat, lease: Lease, effects: seq<Effect>)
    returns (q: Run<Action>, v: State)
    requires Leads(s, r, u) && Shows(u, OneRow(Succeeded, n, Some(lease)), effects, lease + 1, [], map[JOB := 5])
    ensures Leads(s, q, v)
    ensures v == u.(delayed := map[], promotions := map[0 := Promotion([], Claimed(JOB))])
  {
    hide Leads;
    assert DueBy(u.delayed, 5) == map[JOB := 5];
    assert IsLowest(map[JOB := 5], BATCH, [JOB]);
    q, v := ExtendPromote(s, r, u, PromoteRead(0, 5, [JOB]));
    assert v.promotions == map[0 := Promotion([JOB], Hand.Empty)];
    q, v := ExtendPromote(s, q, v, PromoteClaim(0));
    assert [JOB][1..] == [];
    assert v.delayed == map[];
  }

  lemma Pushed(s: State, r: Run<Action>, u: State) returns (q: Run<Action>, v: State)
    requires Leads(s, r, u) && u.promotions == map[0 := Promotion([], Requeued(JOB))] && u.pending == []
    ensures Leads(s, q, v) && v == u.(promotions := map[], pending := [Id(JOB)])
  {
    q, v := ExtendPromote(s, r, u, PromotePush(0));
    q, v := ExtendPromote(s, q, v, PromoteStop(0));
    assert v.promotions == map[];
  }

  lemma Promoted(s: State, r: Run<Action>, u: State, n: nat, lease: Lease, effects: seq<Effect>)
    returns (q: Run<Action>, v: State)
    requires Leads(s, r, u) && Shows(u, OneRow(Succeeded, n, Some(lease)), effects, lease + 1, [], map[JOB := 5])
    ensures Leads(s, q, v) && v.execs == u.execs && v.processing == u.processing
    ensures Shows(v, OneRow(Queued, n, Some(lease)), effects, lease + 1, [Id(JOB)], map[])
  {
    q, v := Handed(s, r, u, n, lease, effects);
    q, v := ExtendPromote(s, q, v, PromoteUpdate(0));
    assert v.promotions == map[0 := Promotion([], Requeued(JOB))];
    assert v.db.rows == OneRow(Queued, n, Some(lease));
    q, v := Pushed(s, q, v);
  }

  // Worker 1 is suspected while its handler runs, and its failure parks a retry.
  lemma FirstWorkerParks() returns (r: Run<Action>, v: State)
    ensures Leads(EmptySystem(true), r, v)
    ensures Shows(v, OneRow(Retrying, 1, Some(0)), [], 1, [Id(JOB)], map[JOB := 5])
    ensures v.execs.Keys == {10} && v.processing == map[1 := []]
  {
    hide Leads;
    var s := EmptySystem(true);
    r, v := Submitted(s);
    r, v := Started(s, r, v, 1, 10, Queued, 0, None, [], 0, map[]);
    r, v := Reaped(s, r, v, 1);
    r, v := Parked(s, r, v, 1, 10);
  }

  // Worker 2 completes the pending copy.
  lemma SecondWorkerSucceeds() returns (r: Run<Action>, v: State)
    ensures Leads(EmptySystem(true), r, v)
    ensures Shows(v, OneRow(Succeeded, 2, Some(1)), [] + [Effect(JOB, 2, 1)], 2, [], map[JOB := 5])
    ensures v.execs.Keys == {10} && |Processing(v, 2)| == 0
  {
    hide Leads;
    var s := EmptySystem(true);
    r, v := FirstWorkerParks();
    r, v := Started(s, r, v, 2, 20, Retrying, 1, Some(0), [], 1, map[JOB := 5]);
    r, v := Completed(s, r, v, 2, 20, 2, [], 1, map[JOB := 5]);
  }

  // The parked retry comes due all the same, and worker 2 completes that too.
  lemma RetryRunsAgain() returns (r: Run<Action>, v: State)
    ensures Leads(EmptySystem(true), r, v)
    ensures v.db.effects == [] + [Effect(JOB, 2, 1)] + [Effect(JOB, 2, 2)]
  {
    var s := EmptySystem(true);
    var once := [] + [Effect(JOB, 2, 1)];
    r, v := SecondWorkerSucceeds();
    r, v := Promoted(s, r, v, 2, 1, once);
    r, v := Started(s, r, v, 2, 21, Queued, 2, Some(1), once, 2, map[]);
    r, v := Completed(s, r, v, 2, 21, 3, once, 2, map[]);
  }

  // Main result: a valid run, with fencing on, that records one job twice.
  lemma {:induction false} TwoRecordsDespiteFencing() returns (r: Run<Action>)
    ensures Valid(EmptySystem(true), r)
    ensures EffectCount(After(EmptySystem(true), r).db.effects, JOB) == 2
  {
    var v: State;
    r, v := RetryRunsAgain();
    EffectCountAppend([], Effect(JOB, 2, 1), JOB);
    EffectCountAppend([] + [Effect(JOB, 2, 1)], Effect(JOB, 2, 2), JOB);
  }
}
