// Counting what moves between the stores, in every run of the free system:
// retries handed from the delayed set to pending, and submissions handed from Postgres to pending.
module Handoffs {
  import opened Types
  import opened Database
  import opened System
  import opened Fencing

  // ---- A parked retry is promoted at most once, by any number of schedulers ----

  predicate Holds(h: Hand, id: JobId) { (h.Claimed? || h.Requeued?) && h.job == id }

  // Schedulers holding the id between their ZREM and their LPUSH.
  function Holders(promotions: map<ActorId, Promotion>, id: JobId): set<ActorId> {
    set p | p in promotions && Holds(promotions[p].hand, id)
  }

  function Parked(s: State, id: JobId): nat { if id in s.delayed then 1 else 0 }

  function Unpushed(s: State, id: JobId): nat { |Holders(s.promotions, id)| + Parked(s, id) }

  predicate IsZadd(s: State, a: Action, id: JobId) {
    a.Worker? && a.worker.Zadd? && a.worker.e in s.execs && s.execs[a.worker.e].entry == Id(id)
  }

  predicate IsPush(s: State, a: Action, id: JobId) {
    a.Promoter? && a.promote.PromotePush? && a.promote.p in s.promotions && Holds(s.promotions[a.promote.p].hand, id)
  }

  ghost function Zadds(s: State, r: Run<Action>, id: JobId): nat {
    match r
    case Start => 0
    case Then(r', a) => Zadds(s, r', id) + (if IsZadd(After(s, r'), a, id) then 1 else 0)
  }

  ghost function Pushes(s: State, r: Run<Action>, id: JobId): nat {
    match r
    case Start => 0
    case Then(r', a) => Pushes(s, r', id) + (if IsPush(After(s, r'), a, id) then 1 else 0)
  }

  lemma OthersKeepUnpushed(s: State, a: Action)
    requires Enabled(s, a) && !a.Promoter? && !(a.Worker? && a.worker.Zadd?)
    ensures Next(s, a).delayed == s.delayed && Next(s, a).promotions == s.promotions
  {
    match a
    case Worker(x) => WorkerKeepsUnpushed(s, x);
    case Recover(x) => RecoveryParking(s, x);
    case Reaper(x) => ReapKeepsUnpushed(s, x);
    case Sweeper(x) => SweepParking(s, x);
    case Api(x) => ApiParking(s, x);
  }

  lemma WorkerKeepsUnpushed(s: State, a: WorkerAction)
    requires WorkerEnabled(s, a) && !a.Zadd?
    ensures WorkerNext(s, a).delayed == s.delayed && WorkerNext(s, a).promotions == s.promotions
  {}

  lemma ReapKeepsUnpushed(s: State, a: ReapAction)
    requires ReapEnabled(s, a)
    ensures ReapNext(s, a).delayed == s.delayed && ReapNext(s, a).promotions == s.promotions
  {}

  // Replacing one scheduler's pass changes the holders by that scheduler at most.
  lemma HoldersUpdate(m: map<ActorId, Promotion>, p: ActorId, x: Promotion, id: JobId)
    ensures |Holders(m[p := x], id)| ==
      |Holders(m, id) - {p}| + (if Holds(x.hand, id) then 1 else 0)
    ensures |Holders(m, id)| ==
      |Holders(m, id) - {p}| + (if p in m && Holds(m[p].hand, id) then 1 else 0)
    ensures |Holders(m - {p}, id)| == |Holders(m, id) - {p}|
  {
    var rest := Holders(m, id) - {p};
    assert Holders(m[p := x], id) == if Holds(x.hand, id) then rest + {p} else rest;
    assert Holders(m, id) == if p in m && Holds(m[p].hand, id) then rest + {p} else rest;
    assert Holders(m - {p}, id) == rest;
  }

  lemma PromoteUnpushed(s: State, a: PromoteAction, id: JobId)
    requires PromoteEnabled(s, a)
    ensures Unpushed(PromoteNext(s, a), id) + (if IsPush(s, Promoter(a), id) then 1 else 0) <= Unpushed(s, id)
  {
    var t := PromoteNext(s, a);
    HoldersUpdate(s.promotions, a.p, if a.p in t.promotions then t.promotions[a.p] else Promotion([], Hand.Empty), id);
    hide Holders;
  }

  // Main result: promotion pushes of an id, plus claims still in some scheduler's hand, plus the id if it is
  // still parked, never exceed the times it was parked. Two schedulers never push the same retry.
  lemma {:induction false} PromotedAtMostOncePerZadd(s: State, r: Run<Action>, id: JobId)
    requires Initial(s) && Valid(s, r)
    ensures Pushes(s, r, id) + Unpushed(After(s, r), id) <= Zadds(s, r, id) + Parked(s, id)
  {
    match r
    case Start =>
      assert Holders(s.promotions, id) == {};
    case Then(r', a) =>
      PromotedAtMostOncePerZadd(s, r', id);
      var b := After(s, r');
      if a.Promoter? {
        PromoteUnpushed(b, a.promote, id);
      } else if !(a.Worker? && a.worker.Zadd?) {
        OthersKeepUnpushed(b, a);
      }
  }

  // ---- Idempotent submission ----

  predicate Answered(s: State, k: ActorId, id: JobId) { k in s.submits && s.submits[k].pc == Returned(id) }

  predicate Pushing(s: State, k: ActorId) { k in s.submits && s.submits[k].pc.ToPush? }

  // One row per key; every submit that holds or returned an id got it from the row with its key.
  ghost predicate KeysSettled(s: State) {
    && (forall i, j :: i in s.db.rows && j in s.db.rows && s.db.rows[i].key == s.db.rows[j].key && s.db.rows[i].key.Some? ==> i == j)
    && (forall k :: k in s.submits && (s.submits[k].pc.ToPush? || s.submits[k].pc.Returned?) ==>
         s.submits[k].pc.job in s.db.rows && s.db.rows[s.submits[k].pc.job].key == s.submits[k].key)
    && (forall k :: k in s.submits && s.submits[k].pc.LookingUp? ==> KeyTaken(s.db, s.submits[k].key))
    && (forall k :: k in s.submits ==> !s.submits[k].pc.Rejected?)
    && (forall k, l :: Pushing(s, k) && Pushing(s, l) && s.submits[k].pc.job == s.submits[l].pc.job ==> k == l)
  }

  // Rows keep their keys and are never deleted.
  ghost predicate KeysKept(d: Db, d': Db) {
    && (forall id :: id in d.rows ==> id in d'.rows && d'.rows[id].key == d.rows[id].key)
    && (forall id :: id in d'.rows ==> id in d.rows)
  }

  lemma WorkerKeys(s: State, a: WorkerAction)
    requires WorkerEnabled(s, a)
    ensures KeysKept(s.db, WorkerNext(s, a).db) && WorkerNext(s, a).submits == s.submits
  {}

  lemma RecoveryKeys(s: State, a: RecoveryAction)
    requires RecoveryEnabled(s, a)
    ensures KeysKept(s.db, RecoveryNext(s, a).db) && RecoveryNext(s, a).submits == s.submits
  {}

  lemma ReapKeys(s: State, a: ReapAction)
    requires ReapEnabled(s, a)
    ensures KeysKept(s.db, ReapNext(s, a).db) && ReapNext(s, a).submits == s.submits
  {}

  lemma SweepKeys(s: State, a: SweepAction)
    requires SweepEnabled(s, a)
    ensures KeysKept(s.db, SweepNext(s, a).db) && SweepNext(s, a).submits == s.submits
  {}

  lemma PromoteKeys(s: State, a: PromoteAction)
    requires PromoteEnabled(s, a)
    ensures KeysKept(s.db, PromoteNext(s, a).db) && PromoteNext(s, a).submits == s.submits
  {}

  lemma KeptKeepsSettled(s: State, t: State)
    requires KeysSettled(s) && KeysKept(s.db, t.db) && t.submits == s.submits
    ensures KeysSettled(t)
  {
    forall k | k in t.submits && t.submits[k].pc.LookingUp? ensures KeyTaken(t.db, t.submits[k].key) {
      var id :| id in s.db.rows && s.db.rows[id].key == s.submits[k].key;
      assert id in t.db.rows;
    }
  }

  lemma InsertedKeepsSettled(s: State, k: ActorId, id: JobId, key: Option<string>, now: int)
    requires KeysSettled(s) && ApiEnabled(s, SubmitInsert(k, id, key, now)) && !KeyTaken(s.db, key)
    ensures KeysSettled(ApiNext(s, SubmitInsert(k, id, key, now)))
  {
    var t := ApiNext(s, SubmitInsert(k, id, key, now));
    assert t.submits == s.submits[k := Submit(key, ToPush(id))];
    assert t.db.rows.Keys == s.db.rows.Keys + {id} && t.db.rows[id].key == key;
    assert forall j :: j in s.db.rows ==> t.db.rows[j] == s.db.rows[j];
    forall l | l in t.submits && t.submits[l].pc.LookingUp? ensures KeyTaken(t.db, t.submits[l].key) {
      var j :| j in s.db.rows && s.db.rows[j].key == s.submits[l].key;
      assert j in t.db.rows;
    }
  }

  lemma InsertKeepsSettled(s: State, k: ActorId, id: JobId, key: Option<string>, now: int)
    requires KeysSettled(s) && ApiEnabled(s, SubmitInsert(k, id, key, now))
    ensures KeysSettled(ApiNext(s, SubmitInsert(k, id, key, now)))
  {
    if KeyTaken(s.db, key) {
      var t := ApiNext(s, SubmitInsert(k, id, key, now));
      assert t.db == s.db && t.submits == s.submits[k := Submit(key, LookingUp)];
    } else {
      InsertedKeepsSettled(s, k, id, key, now);
    }
  }

  lemma ApiKeepsSettled(s: State, a: ApiAction)
    requires KeysSettled(s) && ApiEnabled(s, a)
    ensures KeysSettled(ApiNext(s, a))
  {
    var t := ApiNext(s, a);
    match a
    case SubmitInsert(k, id, key, now) => InsertKeepsSettled(s, k, id, key, now);
    case SubmitPush(k) =>
    case SubmitLookUp(k, found) =>
    case SubmitStop(k) =>
    case ReplayUpdate(k, id) => assert KeysKept(s.db, t.db); KeptKeepsSettled(s, t);
    case ReplayPush(k) => KeptKeepsSettled(s, t);
    case ReplayStop(k) => KeptKeepsSettled(s, t);
  }

  lemma StepKeepsSettled(s: State, a: Action)
    requires KeysSettled(s) && Enabled(s, a)
    ensures KeysSettled(Next(s, a))
  {
    var t := Next(s, a);
    match a
    case Api(x) => ApiKeepsSettled(s, x);
    case Worker(x) => WorkerKeys(s, x); KeptKeepsSettled(s, t);
    case Recover(x) => RecoveryKeys(s, x); KeptKeepsSettled(s, t);
    case Reaper(x) => ReapKeys(s, x); KeptKeepsSettled(s, t);
    case Sweeper(x) => SweepKeys(s, x); KeptKeepsSettled(s, t);
    case Promoter(x) => PromoteKeys(s, x); KeptKeepsSettled(s, t);
  }

  lemma {:induction false} SettledAlways(s: State, r: Run<Action>)
    requires Initial(s) && Valid(s, r)
    ensures KeysSettled(After(s, r))
  {
    match r
    case Start =>
    case Then(r', a) =>
      SettledAlways(s, r');
      StepKeepsSettled(After(s, r'), a);
  }

  // Main result: all submits with one key that were answered got the same job, there is one row for the key,
  // and nobody was ever told that the key is in use without getting the job.
  lemma {:induction false} SameKeySameJob(s: State, r: Run<Action>, k: ActorId, l: ActorId, i: JobId, j: JobId)
    requires Initial(s) && Valid(s, r)
    ensures var t := After(s, r);
      && (Answered(t, k, i) && Answered(t, l, j) && t.submits[k].key == t.submits[l].key && t.submits[k].key.Some? ==> i == j)
      && (i in t.db.rows && j in t.db.rows && t.db.rows[i].key == t.db.rows[j].key && t.db.rows[i].key.Some? ==> i == j)
      && (k in t.submits ==> !t.submits[k].pc.Rejected?)
  {
    SettledAlways(s, r);
  }

  predicate IsSubmitPush(s: State, a: Action, key: Option<string>) {
    a.Api? && a.api.SubmitPush? && a.api.k in s.submits && s.submits[a.api.k].key == key
  }

  ghost function SubmitPushes(s: State, r: Run<Action>, key: Option<string>): nat {
    match r
    case Start => 0
    case Then(r', a) => SubmitPushes(s, r', key) + (if IsSubmitPush(After(s, r'), a, key) then 1 else 0)
  }

  ghost predicate SomebodyPushing(s: State, key: Option<string>) {
    exists k :: Pushing(s, k) && s.submits[k].key == key
  }

  // Main result: at most one submit push is ever made for a key; and none before its row exists,
  // nor a second one while the first is outstanding.
  lemma {:induction false} OnePushPerKey(s: State, r: Run<Action>, key: Option<string>)
    requires Initial(s) && Valid(s, r) && key.Some?
    ensures SubmitPushes(s, r, key) <= 1
    ensures SomebodyPushing(After(s, r), key) ==> SubmitPushes(s, r, key) == 0
    ensures !KeyTaken(After(s, r).db, key) ==> SubmitPushes(s, r, key) == 0
  {
    match r
    case Start =>
    case Then(r', a) =>
      OnePushPerKey(s, r', key);
      SettledAlways(s, r');
      PushStep(After(s, r'), a, key);
  }

  lemma PushStep(b: State, a: Action, key: Option<string>)
    requires KeysSettled(b) && Enabled(b, a) && key.Some?
    ensures KeyTaken(b.db, key) ==> KeyTaken(Next(b, a).db, key)
    ensures IsSubmitPush(b, a, key) ==>
      SomebodyPushing(b, key) && !SomebodyPushing(Next(b, a), key) && KeyTaken(b.db, key)
    ensures SomebodyPushing(Next(b, a), key) ==> SomebodyPushing(b, key) || !KeyTaken(b.db, key)
  {
    var t := Next(b, a);
    match a
    case Worker(x) => WorkerKeys(b, x); SamePushing(b, t, key);
    case Recover(x) => RecoveryKeys(b, x); SamePushing(b, t, key);
    case Reaper(x) => ReapKeys(b, x); SamePushing(b, t, key);
    case Sweeper(x) => SweepKeys(b, x); SamePushing(b, t, key);
    case Promoter(x) => PromoteKeys(b, x); SamePushing(b, t, key);
    case Api(x) => ApiPushStep(b, x, key);
  }

  lemma SamePushing(b: State, t: State, key: Option<string>)
    requires KeysKept(b.db, t.db) && t.submits == b.submits
    ensures KeyTaken(b.db, key) ==> KeyTaken(t.db, key)
    ensures SomebodyPushing(t, key) <==> SomebodyPushing(b, key)
  {
    if KeyTaken(b.db, key) {
      var id :| id in b.db.rows && b.db.rows[id].key == key;
      assert id in t.db.rows && t.db.rows[id].key == key;
    }
    assert forall k :: Pushing(t, k) <==> Pushing(b, k);
  }

  lemma ApiPushStep(b: State, a: ApiAction, key: Option<string>)
    requires KeysSettled(b) && ApiEnabled(b, a) && key.Some?
    ensures KeyTaken(b.db, key) ==> KeyTaken(ApiNext(b, a).db, key)
    ensures IsSubmitPush(b, Api(a), key) ==>
      SomebodyPushing(b, key) && !SomebodyPushing(ApiNext(b, a), key) && KeyTaken(b.db, key)
    ensures SomebodyPushing(ApiNext(b, a), key) ==> SomebodyPushing(b, key) || !KeyTaken(b.db, key)
  {
    var t := ApiNext(b, a);
    if KeyTaken(b.db, key) {
      var id :| id in b.db.rows && b.db.rows[id].key == key;
      assert id in t.db.rows && t.db.rows[id].key == key;
    }
    match a
    case SubmitInsert(k, id, ky, now) =>
      assert forall l :: Pushing(t, l) && l != k ==> Pushing(b, l) && t.submits[l] == b.submits[l];
    case SubmitPush(k) =>
      assert Pushing(b, k);
      assert forall l :: Pushing(t, l) ==> l != k && Pushing(b, l) && t.submits[l] == b.submits[l];
      assert IsSubmitPush(b, Api(a), key) ==> b.submits[k].pc.job in b.db.rows;
    case SubmitLookUp(k, found) =>
      assert forall l :: Pushing(t, l) ==> Pushing(b, l) && t.submits[l] == b.submits[l];
    case SubmitStop(k) =>
      assert forall l :: Pushing(t, l) ==> Pushing(b, l) && t.submits[l] == b.submits[l];
    case _ => assert t.submits == b.submits;
  }
}
