// The order in which jobs are taken, in every run of the free system: first in, first out, except for entries that the
// recovery of lost work puts at the front.
module QueueOrder {
  import opened Types
  import opened Lists
  import opened System

  // ---- What a step does to the line ----

  // Submits, promotions and replays send an id to the end of the line.
  function Joins(s: State, a: Action): Option<Entry> {
    match a
    case Api(SubmitPush(k)) => if ApiEnabledPush(s, k) then Some(Id(s.submits[k].pc.job)) else None
    case Api(ReplayPush(k)) => if k in s.replays then Some(Id(s.replays[k])) else None
    case Promoter(PromotePush(p)) =>
      if p in s.promotions && s.promotions[p].hand.Requeued? then Some(Id(s.promotions[p].hand.job)) else None
    case _ => None
  }

  predicate ApiEnabledPush(s: State, k: ActorId) { k in s.submits && s.submits[k].pc.ToPush? }

  // A recovered entry, and a swept one, goes to its front: the tail of the list it is taken from, and the next candidate
  // that was not seen in a list.
  function Jumps(s: State, a: Action): Option<Entry> {
    match a
    case Recover(RecoverMove(r)) => if r in s.recoveries then LastOf(Processing(s, s.recoveries[r].worker)) else None
    case Reaper(ReapMove(r)) => if r in s.reaps then LastOf(Processing(s, s.reaps[r].worker)) else None
    case Sweeper(SweepPush(k)) =>
      if k in s.sweeps && |s.sweeps[k].candidates| > 0 && Id(s.sweeps[k].candidates[0]) !in s.sweeps[k].held
      then Some(Id(s.sweeps[k].candidates[0])) else None
    case _ => None
  }

  function LastOf(l: seq<Entry>): Option<Entry> { if |l| == 0 then None else Some(l[|l| - 1]) }

  // What a worker gets: the entry that BLMOVE puts at the head of its list.
  ghost function Gets(s: State, a: Action): Option<Entry> {
    if !Enabled(s, a) then None
    else
      match a
      case Worker(Take(w, e)) => FirstOf(Processing(Next(s, a), w))
      case Worker(TakeLost(w)) => FirstOf(Processing(Next(s, a), w))
      case _ => None
  }

  function FirstOf(l: seq<Entry>): Option<Entry> { if |l| == 0 then None else Some(l[0]) }

  function AsSeq(x: Option<Entry>): seq<Entry> { if x.Some? then [x.value] else [] }

  // Pending as a line, the next to be taken first.
  function Line(s: State): seq<Entry> { Reverse(s.pending) }

  // One step: what is got comes off the front, what jumps goes before it, what joins goes behind.
  ghost predicate Moves(s: State, t: State, got: Option<Entry>, jumped: Option<Entry>, joined: Option<Entry>) {
    AsSeq(got) + Line(t) == AsSeq(jumped) + Line(s) + AsSeq(joined)
  }

  lemma ReverseEnds(l: seq<Entry>, x: Entry)
    ensures Reverse([x] + l) == Reverse(l) + [x]
    ensures Reverse(l + [x]) == [x] + Reverse(l)
  {
    assert forall i :: 0 <= i < |l| + 1 ==> Reverse([x] + l)[i] == (Reverse(l) + [x])[i];
    assert forall i :: 0 <= i < |l| + 1 ==> Reverse(l + [x])[i] == ([x] + Reverse(l))[i];
  }

  lemma TakeMoves(s: State, w: WorkerId)
    requires |s.pending| > 0
    ensures [s.pending[|s.pending| - 1]] + Reverse(TakeTail(s, w).pending) == Reverse(s.pending)
    ensures FirstOf(Processing(TakeTail(s, w), w)) == Some(s.pending[|s.pending| - 1])
  {
    ReverseEnds(s.pending[..|s.pending| - 1], s.pending[|s.pending| - 1]);
    assert s.pending[..|s.pending| - 1] + [s.pending[|s.pending| - 1]] == s.pending;
  }

  // The execution a worker starts is of the entry it got: a job's from the beginning, junk's with its removal.
  predicate Begins(t: State, w: WorkerId, e: ActorId, got: Option<Entry>) {
    got.Some? && e in t.execs && t.execs[e] == Exec(w, got.value, if got.value.Id? then Selecting else Releasing)
  }

  lemma WorkerMoves(s: State, a: WorkerAction)
    requires WorkerEnabled(s, a)
    ensures Moves(s, WorkerNext(s, a), Gets(s, Worker(a)), None, None)
    ensures a.Take? ==> Begins(WorkerNext(s, a), a.w, a.e, Gets(s, Worker(a)))
    ensures !a.Take? && !a.TakeLost? ==> Gets(s, Worker(a)) == None
  {
    if a.Take? || a.TakeLost? { TakeMoves(s, a.w); }
  }

  lemma BackMoves(s: State, w: WorkerId)
    ensures Reverse(MoveBack(s, w).pending) == AsSeq(LastOf(Processing(s, w))) + Reverse(s.pending)
  {
    var l := Processing(s, w);
    if |l| > 0 { ReverseEnds(s.pending, l[|l| - 1]); }
  }

  lemma RecoveryMoves(s: State, a: RecoveryAction)
    requires RecoveryEnabled(s, a)
    ensures Moves(s, RecoveryNext(s, a), None, Jumps(s, Recover(a)), None)
  {
    if a.RecoverMove? { BackMoves(s, s.recoveries[a.r].worker); }
  }

  lemma ReapMoves(s: State, a: ReapAction)
    requires ReapEnabled(s, a)
    ensures Moves(s, ReapNext(s, a), None, Jumps(s, Reaper(a)), None)
  {
    if a.ReapMove? { BackMoves(s, s.reaps[a.r].worker); }
  }

  lemma SweepMoves(s: State, a: SweepAction)
    requires SweepEnabled(s, a)
    ensures Moves(s, SweepNext(s, a), None, Jumps(s, Sweeper(a)), None)
  {
    if a.SweepPush? { ReverseEnds(s.pending, Id(s.sweeps[a.k].candidates[0])); }
  }

  lemma PromoteMoves(s: State, a: PromoteAction)
    requires PromoteEnabled(s, a)
    ensures Moves(s, PromoteNext(s, a), None, None, Joins(s, Promoter(a)))
  {
    if a.PromotePush? { ReverseEnds(s.pending, Id(s.promotions[a.p].hand.job)); }
  }

  lemma ApiMoves(s: State, a: ApiAction)
    requires ApiEnabled(s, a)
    ensures Moves(s, ApiNext(s, a), None, None, Joins(s, Api(a)))
  {
    if a.SubmitPush? { ReverseEnds(s.pending, Id(s.submits[a.k].pc.job)); }
    if a.ReplayPush? { ReverseEnds(s.pending, Id(s.replays[a.k])); }
  }

  // Main result: in every step of the free system pending is a line that is left at the front only, joined at the end by
  // submits, promotions and replays, and at the front by recovered and swept entries; and the execution a worker starts
  // is of the entry that left.
  lemma StepMoves(s: State, a: Action)
    requires Enabled(s, a)
    ensures Moves(s, Next(s, a), Gets(s, a), Jumps(s, a), Joins(s, a))
    ensures a.Worker? && a.worker.Take? ==> Begins(Next(s, a), a.worker.w, a.worker.e, Gets(s, a))
  {
    hide Moves, Begins;
    match a
    case Worker(x) => WorkerMoves(s, x);
    case Recover(x) => RecoveryMoves(s, x);
    case Reaper(x) => ReapMoves(s, x);
    case Sweeper(x) => SweepMoves(s, x);
    case Promoter(x) => PromoteMoves(s, x);
    case Api(x) => ApiMoves(s, x);
  }

  // ---- Runs ----

  ghost function Taken(s: State, r: Run<Action>): seq<Entry> {
    match r
    case Start => []
    case Then(r', a) => Taken(s, r') + AsSeq(Gets(After(s, r'), a))
  }

  ghost function Joined(s: State, r: Run<Action>): seq<Entry> {
    match r
    case Start => []
    case Then(r', a) => Joined(s, r') + AsSeq(Joins(After(s, r'), a))
  }

  // Nothing is recovered or swept into pending.
  ghost predicate NoJumps(s: State, r: Run<Action>) {
    match r
    case Start => true
    case Then(r', a) => NoJumps(s, r') && Jumps(After(s, r'), a) == None
  }

  // Main result: first in, first out. From any state on, as long as nothing is recovered or swept, the entries workers
  // take, followed by those still waiting, are those that were waiting, followed by those pushed, in order.
  lemma {:induction false} FirstInFirstOut(s: State, r: Run<Action>)
    requires Valid(s, r) && NoJumps(s, r)
    ensures Taken(s, r) + Line(After(s, r)) == Line(s) + Joined(s, r)
  {
    match r
    case Start =>
    case Then(r', a) =>
      FirstInFirstOut(s, r');
      var b := After(s, r');
      StepMoves(b, a);
      hide Gets, Jumps, Joins, Next, Enabled, Line;
      Shift(Taken(s, r'), Line(b), Line(s) + Joined(s, r'), AsSeq(Gets(b, a)), Line(Next(b, a)), AsSeq(Joins(b, a)));
      assert Line(s) + Joined(s, r') + AsSeq(Joins(b, a)) == Line(s) + (Joined(s, r') + AsSeq(Joins(b, a)));
  }

  lemma Shift(taken: seq<Entry>, before: seq<Entry>, all: seq<Entry>, got: seq<Entry>, after: seq<Entry>, joined: seq<Entry>)
    requires taken + before == all && got + after == [] + before + joined
    ensures (taken + got) + after == all + joined
  {
    assert [] + before + joined == before + joined;
    assert (taken + got) + after == taken + (got + after);
    assert taken + (before + joined) == (taken + before) + joined;
  }
}
