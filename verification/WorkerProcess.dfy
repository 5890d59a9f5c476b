// One worker process: the main loop, the executions it has started, the semaphore they share, and the drain that a
// termination signal starts. JavaScript runs from one await to the next without interruption, so a step is
// what happens between two awaits; signals, replies and timers come in any order.
module WorkerProcess {
  import opened Types
  import opened Semaphores

  type Ticket = nat   // one entry moved into this worker's processing list; they are numbered as they come

  // Where main() is suspended.
  datatype MainPc =
    | WaitingSlot               // parked in slots.acquire()
    | HasSlot                   // acquire() resolved, BLMOVE not sent yet
    | Moving                    // awaiting BLMOVE
    | Dropping(t: Ticket)       // awaiting the LREM of a malformed entry
    | Exited                    // the loop is left and loopExit is resolved

  // One processOne and the promise chain behind it.
  datatype ChainPc = Processing | Removing | Finishing

  datatype DrainPc =
    | NotDraining
    | AwaitingLoop              // racing loopExit against one second
    | Polling                   // while (slots.inFlight > 0 && before the deadline)
    | Deleting                  // heartbeat stopped, DEL sent
    | Deleted
    | GaveUp                    // deadline passed with executions left: the heartbeat stays

  // `listed` is the processing list, `next` the number of entries moved into it so far.
  datatype Process = Process(
    slots: Slots,
    main: MainPc,
    chains: map<Ticket, ChainPc>,
    stopping: bool,
    drain: DrainPc,
    heartbeat: bool,
    listed: set<Ticket>,
    next: Ticket,
    crashed: bool
  )

  datatype Event =
    | SendMove                                  // main sends BLMOVE
    | MoveReply(t: Ticket)                      // a job id arrives
    | MoveMalformed(t: Ticket)                  // an entry that is not a UUID arrives
    | MoveNull                                  // a time-out, should it ever happen
    | MoveFails(moved: Option<Ticket>)          // BLMOVE rejects; the server may have moved an entry all the same
    | Dropped(t: Ticket)                        // the malformed entry's LREM is answered
    | DropFails(t: Ticket)                      // or rejects, which ends the process
    | Recorded(t: Ticket)                       // processOne resolves
    | Unrecorded(t: Ticket)                     // processOne rejects
    | Removed(t: Ticket)                        // the chained LREM is answered
    | RemoveFails(t: Ticket)
    | Finish(t: Ticket)                         // finally: slots.release()
    | Signal                                    // SIGTERM or SIGINT, the first one
    | LoopWaitOver                              // loopExit, or the second is over
    | DrainEnds                                 // nothing in flight
    | DrainGivesUp                              // the deadline
    | DelAnswered
    | BeatTimer
    | Die                                       // SIGKILL, or a second signal

  const MAIN: Waiter := 0

  predicate CanHappen(p: Process, v: Event) {
    && !p.crashed
    && match v
       case SendMove => p.main == HasSlot
       case MoveReply(t) => p.main == Moving && t == p.next
       case MoveMalformed(t) => p.main == Moving && t == p.next
       case MoveNull => p.main == Moving
       case MoveFails(moved) => p.main == Moving && (moved.Some? ==> moved.value == p.next)
       case Dropped(t) => p.main == Dropping(t)
       case DropFails(t) => p.main == Dropping(t)
       case Recorded(t) => t in p.chains && p.chains[t] == Processing
       case Unrecorded(t) => t in p.chains && p.chains[t] == Processing
       case Removed(t) => t in p.chains && p.chains[t] == Removing
       case RemoveFails(t) => t in p.chains && p.chains[t] == Removing
       case Finish(t) => t in p.chains && p.chains[t] == Finishing
       case Signal => p.drain == NotDraining
       case LoopWaitOver => p.drain == AwaitingLoop
       case DrainEnds => p.drain == Polling && InFlight(p.slots) == 0
       case DrainGivesUp => p.drain == Polling && InFlight(p.slots) > 0
       case DelAnswered => p.drain == Deleting
       case BeatTimer => p.drain != Deleting && p.drain != Deleted
       case Die => true
  }

  // while (!stopping) { await slots.acquire(); ... - from the loop test to the next await
  function LoopTop(p: Process): Process {
    var (s, now) := Acquired(p.slots, MAIN);
    p.(slots := if p.stopping then p.slots else s,
       main := if p.stopping then Exited else if now then HasSlot else WaitingSlot)
  }

  // slots.release(): a permit handed to main resumes it
  function ReleaseSlot(p: Process): Process {
    var (s, next) := Released(p.slots);
    p.(slots := s, main := if next.Some? then HasSlot else p.main)
  }

  function Happens(p: Process, v: Event): Process
    requires CanHappen(p, v)
  {
    match v
    case SendMove => p.(main := Moving)
    case MoveReply(t) => LoopTop(p.(chains := p.chains[t := Processing], listed := p.listed + {t}, next := p.next + 1))
    case MoveMalformed(t) => p.(main := Dropping(t), listed := p.listed + {t}, next := p.next + 1)
    case MoveNull => LoopTop(ReleaseSlot(p))
    case MoveFails(moved) =>
      // catch: release, then leave the loop during a shutdown, otherwise the process dies of the error
      ReleaseSlot(p).(main := Exited, crashed := !p.stopping,
                      listed := if moved.Some? then p.listed + {moved.value} else p.listed,
                      next := if moved.Some? then p.next + 1 else p.next)
    case Dropped(t) => LoopTop(ReleaseSlot(p.(listed := p.listed - {t})))
    case DropFails(t) => p.(crashed := true)
    case Recorded(t) => p.(chains := p.chains[t := Removing])
    case Unrecorded(t) => p.(chains := p.chains[t := Finishing])
    case Removed(t) => p.(chains := p.chains[t := Finishing], listed := p.listed - {t})
    case RemoveFails(t) => p.(chains := p.chains[t := Finishing])
    case Finish(t) => ReleaseSlot(p).(chains := p.chains - {t})
    case Signal => p.(stopping := true, drain := AwaitingLoop)
    case LoopWaitOver => p.(drain := Polling)
    case DrainEnds => p.(drain := Deleting)
    case DrainGivesUp => p.(drain := GaveUp)
    case DelAnswered => p.(drain := Deleted, heartbeat := false)
    case BeatTimer => p.(heartbeat := true)
    case Die => p.(crashed := true)
  }

  // After recovery and the first beat: the shutdown handler is registered and the first acquire() has been called.
  function Begun(concurrency: nat): Process {
    Process(Slots(concurrency, if concurrency > 0 then concurrency - 1 else 0, []), HasSlot, map[], false, NotDraining, true, {}, 0, false)
  }

  predicate Lives(p: Process, r: Run<Event>) {
    match r
    case Start => true
    case Then(r', v) => Lives(p, r') && CanHappen(Lived(p, r'), v)
  }

  function Lived(p: Process, r: Run<Event>): Process {
    match r
    case Start => p
    case Then(r', v) => if CanHappen(Lived(p, r'), v) then Happens(Lived(p, r'), v) else Lived(p, r')
  }

  // ---- The invariant ----

  function MainHolds(m: MainPc): nat {
    if m.HasSlot? || m.Moving? || m.Dropping? then 1 else 0
  }

  // Every slot in use belongs to one execution or to the main loop, and only the main loop ever waits for one.
  ghost predicate SlotsAccounted(p: Process, concurrency: nat) {
    && p.slots.capacity == concurrency && p.slots.available <= concurrency
    && |p.chains| + MainHolds(p.main) == InFlight(p.slots)
    && p.slots.waiting == (if p.main == WaitingSlot then [MAIN] else [])
    && (p.main == WaitingSlot ==> p.slots.available == 0)
  }

  // Executions and the entry being dropped are of entries that were moved.
  ghost predicate TicketsKnown(p: Process) {
    && (forall t :: t in p.chains || t in p.listed ==> t < p.next)
    && (p.main.Dropping? ==> p.main.t < p.next && p.main.t !in p.chains)
  }

  ghost predicate DrainConsistent(p: Process) {
    && (p.main == Exited && !p.crashed ==> p.stopping)
    && (p.drain != NotDraining ==> p.stopping)
    && (p.drain == Deleting || p.drain == Deleted ==> p.main == Exited && |p.chains| == 0)
    && (p.heartbeat <==> p.drain != Deleted)
  }

  ghost predicate Kept(p: Process, concurrency: nat) {
    SlotsAccounted(p, concurrency) && TicketsKnown(p) && DrainConsistent(p)
  }

  // BLMOVE answers with a job id: its execution takes over the slot, and the loop asks for another one.
  lemma ReplyStep(p: Process, t: Ticket, concurrency: nat)
    requires Kept(p, concurrency) && CanHappen(p, MoveReply(t))
    ensures Kept(Happens(p, MoveReply(t)), concurrency)
  {
    assert p.chains[t := Processing].Keys == p.chains.Keys + {t};
    assert |p.chains[t := Processing]| == |p.chains| + 1;
  }

  lemma FailStep(p: Process, moved: Option<Ticket>, concurrency: nat)
    requires Kept(p, concurrency) && CanHappen(p, MoveFails(moved))
    ensures Kept(Happens(p, MoveFails(moved)), concurrency)
  {}

  lemma MainStep(p: Process, v: Event, concurrency: nat)
    requires Kept(p, concurrency) && CanHappen(p, v)
    requires v.SendMove? || v.MoveMalformed? || v.MoveNull? || v.Dropped? || v.DropFails?
    ensures Kept(Happens(p, v), concurrency)
  {}

  lemma ChainStep(p: Process, v: Event, concurrency: nat)
    requires Kept(p, concurrency) && CanHappen(p, v)
    requires v.Recorded? || v.Unrecorded? || v.Removed? || v.RemoveFails? || v.Finish?
    ensures Kept(Happens(p, v), concurrency)
  {
    assert |p.chains| > 0;
    if v.Finish? {
      assert (p.chains - {v.t}).Keys == p.chains.Keys - {v.t};
      assert |p.chains - {v.t}| == |p.chains| - 1;
    } else {
      assert p.chains[v.t := Finishing].Keys == p.chains.Keys;
      assert p.chains[v.t := Removing].Keys == p.chains.Keys;
    }
  }

  lemma DrainStep(p: Process, v: Event, concurrency: nat)
    requires Kept(p, concurrency) && CanHappen(p, v) && concurrency >= 1
    requires v.Signal? || v.Die? || v.LoopWaitOver? || v.DrainEnds? || v.DrainGivesUp? || v.DelAnswered? || v.BeatTimer?
    ensures Kept(Happens(p, v), concurrency)
  {}

  // Main result: slots and the drain stay accounted for, in every order of signal, replies,
  // outcomes and timers; running executions plus the slot of the main loop are inFlight, never above CONCURRENCY.
  lemma {:induction false} ProcessKept(concurrency: nat, r: Run<Event>)
    requires concurrency >= 1 && Lives(Begun(concurrency), r)
    ensures Kept(Lived(Begun(concurrency), r), concurrency)
    ensures var p := Lived(Begun(concurrency), r);
      0 <= InFlight(p.slots) <= concurrency && |p.chains| + MainHolds(p.main) == InFlight(p.slots)
  {
    match r
    case Start =>
    case Then(r', v) =>
      ProcessKept(concurrency, r');
      var p := Lived(Begun(concurrency), r');
      match v
      case SendMove => MainStep(p, v, concurrency);
      case MoveReply(t) => ReplyStep(p, t, concurrency);
      case MoveMalformed(t) => MainStep(p, v, concurrency);
      case MoveNull => MainStep(p, v, concurrency);
      case MoveFails(m) => FailStep(p, m, concurrency);
      case Dropped(t) => MainStep(p, v, concurrency);
      case DropFails(t) => MainStep(p, v, concurrency);
      case Recorded(t) => ChainStep(p, v, concurrency);
      case Unrecorded(t) => ChainStep(p, v, concurrency);
      case Removed(t) => ChainStep(p, v, concurrency);
      case RemoveFails(t) => ChainStep(p, v, concurrency);
      case Finish(t) => ChainStep(p, v, concurrency);
      case _ => DrainStep(p, v, concurrency);
  }

  // ---- What becomes of an entry, by what has happened to it ----

  predicate Occurs(r: Run<Event>, v: Event) {
    match r
    case Start => false
    case Then(r', x) => x == v || Occurs(r', v)
  }

  predicate Arrived(r: Run<Event>, t: Ticket) {
    Occurs(r, MoveReply(t)) || Occurs(r, MoveMalformed(t)) || Occurs(r, MoveFails(Some(t)))
  }

  // No outcome could be recorded, or it was, and the LREM failed: the entry is left for the reaper.
  predicate GivenUp(r: Run<Event>, t: Ticket) {
    Occurs(r, Unrecorded(t)) || (Occurs(r, Recorded(t)) && Occurs(r, RemoveFails(t)))
  }

  predicate Completed(r: Run<Event>, t: Ticket) { Occurs(r, Recorded(t)) && Occurs(r, Removed(t)) }

  // How far the execution of an entry has come, and the events that brought it there.
  predicate ChainFits(p: Process, r: Run<Event>, t: Ticket) {
    if t in p.chains then
      match p.chains[t]
      case Processing => !Occurs(r, Recorded(t)) && !GivenUp(r, t) && !Occurs(r, Removed(t)) && !Occurs(r, RemoveFails(t))
      case Removing => Occurs(r, Recorded(t)) && !GivenUp(r, t) && !Occurs(r, Removed(t))
      case Finishing => GivenUp(r, t) != Completed(r, t) && (Occurs(r, Removed(t)) ==> Completed(r, t))
    else if Occurs(r, MoveReply(t)) then
      GivenUp(r, t) != Completed(r, t) && (Occurs(r, Removed(t)) ==> Completed(r, t))
    else !Occurs(r, Removed(t)) && !Occurs(r, Recorded(t)) && !Occurs(r, Unrecorded(t)) && !Occurs(r, RemoveFails(t))
  }

  // An entry comes once, in one of three ways, and only junk is dropped.
  predicate ComesOnce(r: Run<Event>, t: Ticket) {
    && !(Occurs(r, MoveReply(t)) && Occurs(r, MoveMalformed(t))) && !(Occurs(r, MoveReply(t)) && Occurs(r, MoveFails(Some(t))))
    && !(Occurs(r, MoveMalformed(t)) && Occurs(r, MoveFails(Some(t))))
    && (Occurs(r, Dropped(t)) ==> Occurs(r, MoveMalformed(t)))
  }

  predicate EntryFits(p: Process, r: Run<Event>, t: Ticket) {
    && ComesOnce(r, t) && ChainFits(p, r, t)
    && (Arrived(r, t) <==> t < p.next)
    && (t in p.listed <==> Arrived(r, t) && !Occurs(r, Removed(t)) && !Occurs(r, Dropped(t)))
    && (t in p.chains ==> Occurs(r, MoveReply(t)))
    && (p.main == Dropping(t) ==> Occurs(r, MoveMalformed(t)) && !Occurs(r, Dropped(t)))
    && (Occurs(r, MoveMalformed(t)) ==> p.main == Dropping(t) || Occurs(r, Dropped(t)))
  }

  // Events about another entry, or about none.
  predicate About(v: Event, t: Ticket) {
    match v
    case MoveReply(x) => x == t
    case MoveMalformed(x) => x == t
    case MoveFails(moved) => moved == Some(t)
    case Dropped(x) => x == t
    case Recorded(x) => x == t
    case Unrecorded(x) => x == t
    case Removed(x) => x == t
    case RemoveFails(x) => x == t
    case Finish(x) => x == t
    case _ => false
  }

  // What the process holds of the entry is as it was.
  predicate SameEntry(p: Process, q: Process, t: Ticket) {
    && (t in q.listed <==> t in p.listed) && (t < q.next <==> t < p.next)
    && (t in q.chains <==> t in p.chains) && (t in p.chains ==> q.chains[t] == p.chains[t])
    && (q.main == Dropping(t) <==> p.main == Dropping(t))
  }

  lemma OtherEntry(p: Process, v: Event, t: Ticket)
    requires CanHappen(p, v) && !About(v, t) && (p.main.Dropping? ==> p.slots.waiting == [])
    ensures SameEntry(p, Happens(p, v), t)
  {}

  lemma OtherEvent(p: Process, q: Process, r: Run<Event>, v: Event, t: Ticket)
    requires EntryFits(p, r, t) && SameEntry(p, q, t) && !About(v, t)
    ensures EntryFits(q, Then(r, v), t)
  {}

  lemma ArrivalStep(p: Process, r: Run<Event>, v: Event, t: Ticket)
    requires TicketsKnown(p) && EntryFits(p, r, t) && CanHappen(p, v) && About(v, t)
    requires v.MoveReply? || v.MoveMalformed? || v.MoveFails?
    ensures EntryFits(Happens(p, v), Then(r, v), t)
  {
    assert t == p.next && !Arrived(r, t);
    assert t !in p.chains && t !in p.listed;
  }

  lemma DroppedStep(p: Process, r: Run<Event>, t: Ticket)
    requires TicketsKnown(p) && EntryFits(p, r, t) && CanHappen(p, Dropped(t))
    ensures EntryFits(Happens(p, Dropped(t)), Then(r, Dropped(t)), t)
  {}

  lemma ChainEntryStep(p: Process, r: Run<Event>, v: Event, t: Ticket)
    requires EntryFits(p, r, t) && CanHappen(p, v) && About(v, t)
    requires v.Recorded? || v.Unrecorded? || v.Removed? || v.RemoveFails? || v.Finish?
    ensures EntryFits(Happens(p, v), Then(r, v), t)
  {}

  lemma EntryStep(p: Process, r: Run<Event>, v: Event, t: Ticket, concurrency: nat)
    requires Kept(p, concurrency) && EntryFits(p, r, t) && CanHappen(p, v)
    ensures EntryFits(Happens(p, v), Then(r, v), t)
  {
    if !About(v, t) {
      OtherEntry(p, v, t);
      OtherEvent(p, Happens(p, v), r, v, t);
    } else if v.MoveReply? || v.MoveMalformed? || v.MoveFails? {
      ArrivalStep(p, r, v, t);
    } else if v.Dropped? {
      DroppedStep(p, r, t);
    } else {
      ChainEntryStep(p, r, v, t);
    }
  }

  // Main result: the processing list holds exactly the entries moved into it and not taken out by an LREM; an LREM takes
  // an entry out only after its outcome was recorded; and an execution that is over either did both or gave the entry up.
  lemma {:induction false} ListedExactly(concurrency: nat, r: Run<Event>, t: Ticket)
    requires concurrency >= 1 && Lives(Begun(concurrency), r)
    ensures EntryFits(Lived(Begun(concurrency), r), r, t)
    ensures var p := Lived(Begun(concurrency), r);
      && (t in p.listed <==> Arrived(r, t) && !Occurs(r, Removed(t)) && !Occurs(r, Dropped(t)))
      && (Occurs(r, Removed(t)) ==> Occurs(r, Recorded(t)) && !Occurs(r, Unrecorded(t)) && !Occurs(r, RemoveFails(t)))
      && (Occurs(r, Dropped(t)) ==> Occurs(r, MoveMalformed(t)))
      && (Occurs(r, MoveReply(t)) && t !in p.chains ==> GivenUp(r, t) != Completed(r, t))
  {
    match r
    case Start =>
    case Then(r', v) =>
      ListedExactly(concurrency, r', t);
      ProcessKept(concurrency, r');
      EntryStep(Lived(Begun(concurrency), r'), r', v, t, concurrency);
  }

  // Main result: whenever the drain deletes the heartbeat key, the loop has exited, no execution is running, and what the
  // processing list still holds are the entries whose outcome could not be recorded, whose LREM failed or whose BLMOVE
  // reply was lost - and all of these.
  lemma {:induction false} CleanDrain(concurrency: nat, r: Run<Event>)
    requires concurrency >= 1 && Lives(Begun(concurrency), r)
    requires !Lived(Begun(concurrency), r).heartbeat || Lived(Begun(concurrency), r).drain == Deleting
    ensures var p := Lived(Begun(concurrency), r);
      && p.main == Exited && p.chains == map[] && p.stopping
      && forall t :: t in p.listed <==>
           Occurs(r, Unrecorded(t)) || (Occurs(r, Recorded(t)) && Occurs(r, RemoveFails(t))) || Occurs(r, MoveFails(Some(t)))
  {
    ProcessKept(concurrency, r);
    var p := Lived(Begun(concurrency), r);
    forall t ensures t in p.listed <==> GivenUp(r, t) || Occurs(r, MoveFails(Some(t))) {
      ListedExactly(concurrency, r, t);
    }
  }

  // And it stays so: after the deletion nothing of this process can start or touch the heartbeat again.
  lemma {:induction false} NothingAfterDeletion(concurrency: nat, r: Run<Event>, t: Run<Event>)
    requires concurrency >= 1 && Lives(Begun(concurrency), Join(r, t)) && Lives(Begun(concurrency), r)
    requires Lived(Begun(concurrency), r).drain == Deleted
    ensures var p := Lived(Begun(concurrency), r); Lived(Begun(concurrency), Join(r, t)) == p.(crashed := Lived(Begun(concurrency), Join(r, t)).crashed)
  {
    match t
    case Start =>
    case Then(t', v) =>
      NothingAfterDeletion(concurrency, r, t');
      ProcessKept(concurrency, r);
  }
}
