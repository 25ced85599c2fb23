/**
The interjection watcher of `src/tianluo/stop_signal.py` together with the SIGINT
handler of `src/tianluo/commands/run.py` and the leaving scopes of the main
thread: one state machine whose steps are the single critical sections and
unsynchronised reads and writes of every thread. Watcher threads that outlived
a timed-out join keep running beside their successors.
*/
module InterjectionWatchers {
  import opened Options
  import opened StopSignals
  import StopProtocol

  datatype Item = Item(text: string, callId: string)

  /** Where a thread stands. `again` tells the retry in the loop from the call in `poll_once`. */
  datatype Pc =
    | Top
    | Publishing(items: seq<Item>)
    | Noting
    | Entering(again: bool)
    | AwaitLock(again: bool)
    | Locked(again: bool)
    | Checked(again: bool)
    | NoCall(again: bool)
    | Claimed(again: bool)
    | Tripping(again: bool)
    | Retry
    | Waiting
    | HandlerPublish
    | HandlerLlm
    | HandlerSection
    | HandlerClaim
    | HandlerConsume
    | Leaving
    | Done

  /** Where the thread that calls `start()` and `stop()` stands. */
  datatype Owner =
    | Stopped
    | Cleared
    | Rearmed
    | Unpended
    | Watching(current: nat)
    | Joining(current: nat)

  /** The watcher's fields; `claims` is history: escalation claims since the last re-arming. */
  datatype Watch = Watch(escalated: bool, pending: bool, stopping: bool, lock: Option<nat>, claims: nat)

  /**
  `escalates` is the fixed answer of the opt-in and owner checks. `overdue` is
  history: the loop threads whose join timed out.
  */
  datatype System = System(
    escalates: bool,
    signal: State,
    watch: Watch,
    threads: map<nat, Pc>,
    sigint: bool,
    owner: Owner,
    overdue: set<nat>)

  datatype Move =
    | Others(action: StopSignals.Action)
    | ExitScope(t: nat, completedOnMain: bool)
    | CtrlC
    | RunHandler(t: nat)
    | Advance(t: nat, drained: seq<Item>)
    | StartClear
    | StartRearm
    | StartUnpend
    | StartSpawn(t: nat)
    | StopSet
    | JoinDone
    | JoinTimeout

  function Initial(escalates: bool): System {
    System(escalates, INITIAL, Watch(false, false, false, None, 0), map[], false, Stopped, {})
  }

  /** What the rest of the program does to the signal; deliveries go through the modelled channels. */
  predicate IsOutside(a: StopSignals.Action) {
    a.Publish? || a.Clear? || a.Take? || a.EnterLlm? || a.ExitLlm? || a.EnterSection?
  }

  function After(again: bool): Pc {
    if again then Waiting else Retry
  }

  /** Inside the lock: the three reasons to leave without having escalated. */
  predicate GivesUp(s: System, pc: Pc) {
    match pc
    case Locked(_) => s.watch.escalated || s.watch.stopping
    case Checked(_) => s.signal.llmCalls > 0
    case NoCall(_) => s.signal.delivered
    case _ => false
  }

  /** The critical section of the signal that a thread standing at `pc` performs. */
  function SignalAction(pc: Pc): Option<StopSignals.Action> {
    match pc
    case Publishing(items) =>
      if items == [] then None else Some(Publish("interjection", items[0].text, items[0].callId))
    case NoCall(_) => Some(ClaimEscalation)
    case HandlerPublish => Some(Publish("interrupt", "", ""))
    case HandlerClaim => Some(Claim)
    case HandlerConsume => Some(ConsumeHandoff)
    case Leaving => Some(LeaveSection(true))
    case _ => None
  }

  function NextPc(s: System, pc: Pc, drained: seq<Item>): Pc {
    match pc
    case Top => if s.watch.stopping then Done else if drained == [] then Retry else Publishing(drained)
    case Publishing(items) => if |items| <= 1 then Noting else Publishing(items[1..])
    case Noting => Entering(false)
    case Entering(again) =>
      if !s.escalates || s.signal.sections > 0 then After(again) else AwaitLock(again)
    case AwaitLock(again) => if s.watch.lock.Some? then pc else Locked(again)
    case Locked(again) => if GivesUp(s, pc) then After(again) else Checked(again)
    case Checked(again) => if GivesUp(s, pc) then After(again) else NoCall(again)
    case NoCall(again) => if GivesUp(s, pc) then After(again) else Claimed(again)
    case Claimed(again) => Tripping(again)
    case Tripping(again) => After(again)
    case Retry => if s.watch.pending then Entering(true) else Waiting
    case Waiting => Top
    case HandlerPublish => HandlerLlm
    case HandlerLlm => if s.signal.llmCalls > 0 then Done else HandlerSection
    case HandlerSection => if s.signal.sections > 0 then Done else HandlerClaim
    case HandlerClaim => if Authorises(s.signal, Claim) then Done else HandlerConsume
    case HandlerConsume => Done
    case Leaving => Done
    case Done => Done
  }

  function NextWatch(s: System, t: nat, pc: Pc): Watch {
    var w := s.watch;
    match pc
    case Noting => w.(pending := true)
    case Entering(_) => if s.escalates then w else w.(pending := false)
    case AwaitLock(_) => if w.lock.Some? then w else w.(lock := Some(t))
    case Locked(_) => if GivesUp(s, pc) then w.(pending := false, lock := None) else w
    case Checked(_) => if GivesUp(s, pc) then w.(pending := false, lock := None) else w
    case NoCall(_) =>
      if GivesUp(s, pc) then w.(pending := false, lock := None) else w.(claims := w.claims + 1)
    case Claimed(_) => w.(escalated := true, pending := false, lock := None)
    case _ => w
  }

  function Acted(signal: State, action: Option<StopSignals.Action>): State {
    if action.None? then signal else Next(signal, action.value)
  }

  /** One step of thread `t`. */
  function Advanced(s: System, t: nat, drained: seq<Item>): System
    requires t in s.threads
  {
    var pc := s.threads[t];
    s.(signal := Acted(s.signal, SignalAction(pc)),
       watch := NextWatch(s, t, pc),
       threads := s.threads[t := NextPc(s, pc, drained)],
       sigint := s.sigint || pc.Tripping?)
  }

  /** The signal's critical section inside a move, if there is one. */
  function MoveAction(s: System, m: Move): Option<StopSignals.Action> {
    match m
    case Others(a) => if IsOutside(a) then Some(a) else None
    case ExitScope(t, _) => if t in s.threads then None else Some(ExitSection)
    case Advance(t, _) => if t in s.threads then SignalAction(s.threads[t]) else None
    case _ => None
  }

  /** A move that is not enabled leaves the system as it is. */
  function Step(s: System, m: Move): System {
    match m
    case Others(_) => s.(signal := Acted(s.signal, MoveAction(s, m)))
    case ExitScope(t, completedOnMain) =>
      if t in s.threads then s
      else
        s.(signal := Next(s.signal, ExitSection),
           threads := if completedOnMain then s.threads[t := Leaving] else s.threads)
    case CtrlC => s.(sigint := true)
    case RunHandler(t) =>
      if s.sigint && t !in s.threads then s.(sigint := false, threads := s.threads[t := HandlerPublish]) else s
    case Advance(t, drained) => if t in s.threads then Advanced(s, t, drained) else s
    case StartClear =>
      if s.owner.Stopped? then s.(watch := s.watch.(stopping := false), owner := Cleared) else s
    case StartRearm =>
      if s.owner.Cleared? then s.(watch := s.watch.(escalated := false, claims := 0), owner := Rearmed) else s
    case StartUnpend =>
      if s.owner.Rearmed? then s.(watch := s.watch.(pending := false), owner := Unpended) else s
    case StartSpawn(t) =>
      if s.owner.Unpended? && t !in s.threads then s.(threads := s.threads[t := Top], owner := Watching(t)) else s
    case StopSet =>
      if s.watch.lock.Some? then s
      else if s.owner.Watching? then s.(watch := s.watch.(stopping := true), owner := Joining(s.owner.current))
      else if s.owner.Stopped? then s.(watch := s.watch.(stopping := true))
      else s
    case JoinDone =>
      if s.owner.Joining? && s.owner.current in s.threads && s.threads[s.owner.current].Done?
      then s.(owner := Stopped) else s
    case JoinTimeout =>
      if s.owner.Joining? then s.(owner := Stopped, overdue := s.overdue + {s.owner.current}) else s
  }

  function RunFrom(s: System, moves: seq<Move>): System {
    if moves == [] then s
    else Step(RunFrom(s, moves[..|moves| - 1]), moves[|moves| - 1])
  }

  function Run(escalates: bool, moves: seq<Move>): System {
    RunFrom(Initial(escalates), moves)
  }

  // Invariants of every run

  predicate InLock(pc: Pc) {
    pc.Locked? || pc.Checked? || pc.NoCall? || pc.Claimed?
  }

  predicate InLoop(pc: Pc) {
    !(pc.HandlerPublish? || pc.HandlerLlm? || pc.HandlerSection? || pc.HandlerClaim? ||
      pc.HandlerConsume? || pc.Leaving? || pc.Done?)
  }

  /** The thread will still trip SIGINT, raise, or find that someone else did. */
  predicate Carries(pc: Pc) {
    pc.Claimed? || pc.Tripping? || pc.HandlerPublish? || pc.HandlerLlm? || pc.HandlerSection? ||
    pc.HandlerClaim? || pc.HandlerConsume? || pc.Leaving?
  }

  ghost predicate Mutex(w: Watch, threads: map<nat, Pc>) {
    && (w.lock.Some? ==> w.lock.value in threads && InLock(threads[w.lock.value]))
    && (forall t :: t in threads && InLock(threads[t]) ==> w.lock == Some(t))
  }

  /** Inside the lock, past the check, the watcher is not stopped and, before its claim, not spent. */
  ghost predicate CheckHolds(w: Watch, threads: map<nat, Pc>) {
    forall t :: t in threads && (threads[t].Checked? || threads[t].NoCall? || threads[t].Claimed?) ==>
      !w.stopping && (threads[t].Claimed? || !w.escalated)
  }

  ghost predicate ClaimsCounted(w: Watch, threads: map<nat, Pc>) {
    w.claims <= 1 &&
    (w.claims == 1 ==>
      w.escalated || (w.lock.Some? && w.lock.value in threads && threads[w.lock.value].Claimed?))
  }

  ghost predicate LockInv(w: Watch, threads: map<nat, Pc>) {
    Mutex(w, threads) && CheckHolds(w, threads) && ClaimsCounted(w, threads)
  }

  /** What one step of a thread from `pc` to `pc'` may do to the lock and the fields it guards. */
  predicate LockStep(w: Watch, w': Watch, t: nat, pc: Pc, pc': Pc) {
    w'.stopping == w.stopping &&
    match (InLock(pc), InLock(pc'))
    case (false, false) => w'.lock == w.lock && w'.escalated == w.escalated && w'.claims == w.claims
    case (false, true) =>
      w.lock.None? && w'.lock == Some(t) && pc'.Locked? &&
      w'.escalated == w.escalated && w'.claims == w.claims
    case (true, true) =>
      w'.lock == w.lock && w'.escalated == w.escalated &&
      if pc'.Claimed? then pc.NoCall? && w'.claims == w.claims + 1
      else !pc.Claimed? && w'.claims == w.claims && (pc.Locked? ==> !w.escalated && !w.stopping)
    case (true, false) =>
      w'.lock == None && w'.claims == w.claims && w'.escalated == (w.escalated || pc.Claimed?)
  }

  lemma AdvancedIsLockStep(s: System, t: nat, pc: Pc, drained: seq<Item>)
    ensures LockStep(s.watch, NextWatch(s, t, pc), t, pc, NextPc(s, pc, drained))
  {
  }

  lemma LockStepKeepsLockInv(w: Watch, w': Watch, threads: map<nat, Pc>, t: nat, pc': Pc)
    requires t in threads && LockStep(w, w', t, threads[t], pc') && LockInv(w, threads)
    ensures LockInv(w', threads[t := pc'])
  {
  }

  lemma StepKeepsLockInv(s: System, m: Move)
    requires LockInv(s.watch, s.threads)
    ensures LockInv(Step(s, m).watch, Step(s, m).threads)
  {
    if m.Advance? && m.t in s.threads {
      AdvancedIsLockStep(s, m.t, s.threads[m.t], m.drained);
      LockStepKeepsLockInv(s.watch, NextWatch(s, m.t, s.threads[m.t]), s.threads, m.t,
                           NextPc(s, s.threads[m.t], m.drained));
    }
  }

  ghost predicate UnderWay(s: System) {
    s.sigint || s.signal.sections > 0 || exists t :: t in s.threads && Carries(s.threads[t])
  }

  predicate FlagsInv(signal: State) {
    (signal.handoff ==> signal.delivered) && (signal.request.Some? ==> signal.event)
  }

  lemma FlagsStep(s: System, m: Move)
    requires FlagsInv(s.signal)
    ensures FlagsInv(Step(s, m).signal)
  {
    SignalFollowsAction(s, m);
  }

  ghost predicate LoopsAccounted(threads: map<nat, Pc>, owner: Owner, overdue: set<nat>) {
    forall t :: t in threads && InLoop(threads[t]) ==>
      t in overdue || ((owner.Watching? || owner.Joining?) && owner.current == t)
  }

  lemma StepKeepsLoops(s: System, m: Move)
    requires LoopsAccounted(s.threads, s.owner, s.overdue)
    ensures LoopsAccounted(Step(s, m).threads, Step(s, m).owner, Step(s, m).overdue)
  {
    if m.Advance? && m.t in s.threads {
      assert InLoop(NextPc(s, s.threads[m.t], m.drained)) ==> InLoop(s.threads[m.t]);
    }
  }

  ghost predicate Inv(s: System) {
    LockInv(s.watch, s.threads) && FlagsInv(s.signal) && LoopsAccounted(s.threads, s.owner, s.overdue)
  }

  lemma {:induction false} Reachable(escalates: bool, moves: seq<Move>)
    ensures Inv(Run(escalates, moves))
  {
    if moves != [] {
      var init, m := moves[..|moves| - 1], moves[|moves| - 1];
      Reachable(escalates, init);
      StepKeepsLockInv(Run(escalates, init), m);
      FlagsStep(Run(escalates, init), m);
      StepKeepsLoops(Run(escalates, init), m);
    }
  }

  // Main results

  /** The critical sections of the signal that a run of the system performs. */
  function Trace(escalates: bool, moves: seq<Move>): seq<StopSignals.Action> {
    if moves == [] then []
    else
      var init := moves[..|moves| - 1];
      var action := MoveAction(Run(escalates, init), moves[|moves| - 1]);
      Trace(escalates, init) + if action.Some? then [action.value] else []
  }

  lemma SignalFollowsAction(s: System, m: Move)
    ensures Step(s, m).signal == Acted(s.signal, MoveAction(s, m))
  {
  }

  /**
  The signal of the system moves only through its critical sections, so every
  result about runs of the signal holds here: one winner and at most one raise
  per request among handler, watchers and leaving scopes.
  */
  lemma {:induction false} SystemRefinesSignal(escalates: bool, moves: seq<Move>)
    ensures Run(escalates, moves).signal == StopProtocol.Run(Trace(escalates, moves)).signal
    ensures forall e :: e in StopProtocol.Epochs(Trace(escalates, moves)) ==> e.raises <= 1
  {
    var trace := Trace(escalates, moves);
    StopProtocol.OneDeliveryPerEpoch(trace);
    if moves != [] {
      var init := moves[..|moves| - 1];
      SystemRefinesSignal(escalates, init);
      var action := MoveAction(Run(escalates, init), moves[|moves| - 1]);
      SignalFollowsAction(Run(escalates, init), moves[|moves| - 1]);
      if action.Some? {
        assert trace[..|trace| - 1] == Trace(escalates, init);
      } else {
        assert trace == Trace(escalates, init);
      }
    }
  }

  /** The move is a watcher winning the delivery. */
  predicate Escalates(s: System, m: Move) {
    m.Advance? && m.t in s.threads && s.threads[m.t].NoCall? && !s.signal.delivered
  }

  /**
  Each re-arming by `start()` is followed by at most one escalation claim, and no
  claim is made between `stop()` taking the lock and the next `start()`, even
  with threads of earlier starts still running.
  */
  lemma OneEscalationPerStart(escalates: bool, moves: seq<Move>, m: Move)
    ensures var s := Run(escalates, moves);
            s.watch.claims <= 1 && (Escalates(s, m) ==> !s.watch.stopping && s.watch.claims == 0)
  {
    Reachable(escalates, moves);
  }

  // A claimed escalation and who carries it to the raise

  /** The escalation claimed the delivery of a pending request, and nobody is on the way to raise for it. */
  ghost predicate Orphaned(s: System) {
    s.signal.handoff && s.signal.request.Some? && !UnderWay(s)
  }

  ghost predicate OthersCarry(s: System, t: nat) {
    exists u :: u in s.threads && u != t && Carries(s.threads[u])
  }

  /** A handler or a leaving scope stands down for an LLM call, with no section left to raise at its end. */
  predicate StandsDown(s: System, m: Move) {
    && m.Advance? && m.t in s.threads && (s.threads[m.t].HandlerLlm? || s.threads[m.t].Leaving?)
    && s.signal.llmCalls > 0 && s.signal.sections == 0
  }

  /** The outermost section ends with an error or off the main thread. */
  predicate FailsLastSection(s: System, m: Move) {
    m.ExitScope? && m.t !in s.threads && !m.completedOnMain && s.signal.sections == 1
  }

  /** The last carrier of an armed handoff gives it up. */
  ghost predicate Abandons(s: System, m: Move) {
    && s.signal.handoff && s.signal.request.Some? && !s.sigint
    && (StandsDown(s, m) || FailsLastSection(s, m)) && !OthersCarry(s, m.t)
  }

  /** What brings a new carrier or ends the request. */
  predicate PicksUp(s: System, m: Move) {
    match m
    case CtrlC => true
    case Others(a) => a.Clear? || a.Take? || a.EnterSection?
    case ExitScope(t, completedOnMain) => completedOnMain && t !in s.threads
    case _ => false
  }

  lemma UnderWayBy(s: System, t: nat)
    requires t in s.threads
    ensures UnderWay(s) <==> s.sigint || s.signal.sections > 0 || Carries(s.threads[t]) || OthersCarry(s, t)
  {
  }

  lemma OthersStay(s: System, t: nat, drained: seq<Item>)
    requires t in s.threads
    ensures OthersCarry(Advanced(s, t, drained), t) <==> OthersCarry(s, t)
  {
    var s' := Advanced(s, t, drained);
    assert forall u :: u in s.threads && u != t ==> u in s'.threads && s'.threads[u] == s.threads[u];
  }

  /** The same for one step of a thread, as far as that thread and the signal are concerned. */
  lemma AdvanceOrphans(s: System, t: nat, drained: seq<Item>)
    requires t in s.threads && FlagsInv(s.signal) && !s.sigint && s.signal.sections == 0
    ensures var s' := Advanced(s, t, drained); var pc := s.threads[t];
            s'.signal.sections == 0 &&
            (s'.signal.handoff && s'.signal.request.Some? && !s'.sigint && !Carries(s'.threads[t]) <==>
              s.signal.handoff && s.signal.request.Some? && (Carries(pc) ==> StandsDown(s, Advance(t, drained))))
  {
  }

  lemma OrphanedAdvance(s: System, t: nat, drained: seq<Item>)
    requires t in s.threads && FlagsInv(s.signal)
    ensures Orphaned(Advanced(s, t, drained)) <==> Orphaned(s) || Abandons(s, Advance(t, drained))
  {
    var s' := Advanced(s, t, drained);
    UnderWayBy(s, t);
    UnderWayBy(s', t);
    OthersStay(s, t, drained);
    if !s.sigint && s.signal.sections == 0 {
      AdvanceOrphans(s, t, drained);
    }
  }

  lemma UnderWayIffCarried(s: System, s': System)
    requires forall u :: u in s.threads && Carries(s.threads[u]) <==> u in s'.threads && Carries(s'.threads[u])
    ensures UnderWay(s') <==> s'.sigint || s'.signal.sections > 0 || exists u :: u in s.threads && Carries(s.threads[u])
  {
  }

  /** Every step in and out of the orphaned states. */
  lemma OrphanedStep(s: System, m: Move)
    requires FlagsInv(s.signal)
    ensures Orphaned(Step(s, m)) <==> if Orphaned(s) then !PicksUp(s, m) else Abandons(s, m)
  {
    var s' := Step(s, m);
    if m.Advance? && m.t in s.threads {
      OrphanedAdvance(s, m.t, m.drained);
    } else if m.RunHandler? || (m.ExitScope? && m.completedOnMain) {
      if s' != s {
        assert m.t in s'.threads && Carries(s'.threads[m.t]);
      }
    } else {
      SignalFollowsAction(s, m);
      UnderWayIffCarried(s, s');
    }
  }

  ghost predicate AbandonsAt(escalates: bool, moves: seq<Move>, n: nat)
    requires n < |moves|
  {
    Abandons(Run(escalates, moves[..n]), moves[n])
  }

  predicate PicksUpAt(escalates: bool, moves: seq<Move>, n: nat)
    requires n < |moves|
  {
    PicksUp(Run(escalates, moves[..n]), moves[n])
  }

  /** Move `n` abandoned the escalation, and nothing picked it up since. */
  ghost predicate AbandonedAt(escalates: bool, moves: seq<Move>, n: nat)
    requires n < |moves|
  {
    AbandonsAt(escalates, moves, n) && forall k: nat :: n < k < |moves| ==> !PicksUpAt(escalates, moves, k)
  }

  lemma PrefixAgrees(escalates: bool, init: seq<Move>, m: Move, n: nat)
    requires n < |init|
    ensures AbandonsAt(escalates, init + [m], n) == AbandonsAt(escalates, init, n)
    ensures PicksUpAt(escalates, init + [m], n) == PicksUpAt(escalates, init, n)
  {
    assert (init + [m])[..n] == init[..n];
  }

  lemma AbandonedMore(escalates: bool, init: seq<Move>, m: Move, n: nat)
    requires n < |init|
    ensures AbandonedAt(escalates, init + [m], n) <==>
      AbandonedAt(escalates, init, n) && !PicksUpAt(escalates, init + [m], |init|)
  {
    PrefixAgrees(escalates, init, m, n);
    forall k: nat | n < k < |init|
      ensures PicksUpAt(escalates, init + [m], k) == PicksUpAt(escalates, init, k)
    {
      PrefixAgrees(escalates, init, m, k);
    }
  }

  /**
  In every run a claimed escalation of a pending request has nobody left to raise
  it exactly when at some move its last carrier stood down for an LLM call or its
  last section ended with an error or off the main thread, and no Ctrl-C, new
  section, leaving scope, `clear` or `take` came since. In every other state it is
  tripped or about to be, a handler or a leaving scope is on its way, or a section
  is open whose end will raise.
  */
  lemma {:induction false} OrphanedIffAbandoned(escalates: bool, moves: seq<Move>)
    ensures Orphaned(Run(escalates, moves)) <==> exists n: nat :: n < |moves| && AbandonedAt(escalates, moves, n)
  {
    if moves != [] {
      var init, m := moves[..|moves| - 1], moves[|moves| - 1];
      var s := Run(escalates, init);
      assert moves == init + [m];
      OrphanedIffAbandoned(escalates, init);
      Reachable(escalates, init);
      OrphanedStep(s, m);
      forall n: nat | n < |init|
        ensures AbandonedAt(escalates, moves, n) <==> AbandonedAt(escalates, init, n) && !PicksUp(s, m)
      {
        AbandonedMore(escalates, init, m, n);
      }
      assert AbandonedAt(escalates, moves, |init|) <==> Abandons(s, m);
      if Abandons(s, m) {
        AbandonsNotOrphaned(s, m);
      }
    }
  }

  lemma AbandonsNotOrphaned(s: System, m: Move)
    requires Abandons(s, m)
    ensures !Orphaned(s)
  {
  }

  // How a pending escalation ends

  /**
  What may end a pending escalation: ineligibility, a spent or stopped watcher, a
  call in flight, a delivery already claimed, its own claim, or a restart.
  */
  predicate EndsPending(s: System, m: Move) {
    || !s.escalates || s.watch.escalated || s.watch.stopping || s.signal.llmCalls > 0 || s.signal.delivered
    || (m.Advance? && m.t in s.threads && s.threads[m.t].Claimed?) || m.StartUnpend?
  }

  lemma PendingStays(s: System, m: Move)
    requires s.watch.pending && !EndsPending(s, m)
    ensures Step(s, m).watch.pending
  {
  }

  predicate EndsPendingAt(s: System, moves: seq<Move>, n: nat)
    requires n < |moves|
  {
    EndsPending(RunFrom(s, moves[..n]), moves[n])
  }

  /**
  Over any run from a state with an escalation pending: it is still pending, or
  before some move of the run one of the causes held. No other interleaving of
  ticks, drains, handlers, scopes and sections loses it.
  */
  lemma {:induction false} PendingDroppedOnlyFor(s: System, moves: seq<Move>)
    requires s.watch.pending
    ensures RunFrom(s, moves).watch.pending || exists n: nat :: n < |moves| && EndsPendingAt(s, moves, n)
  {
    if moves != [] {
      var init, m := moves[..|moves| - 1], moves[|moves| - 1];
      PendingDroppedOnlyFor(s, init);
      if n: nat :| n < |init| && EndsPendingAt(s, init, n) {
        assert moves[..n] == init[..n];
        assert EndsPendingAt(s, moves, n);
      } else if EndsPending(RunFrom(s, init), m) {
        assert EndsPendingAt(s, moves, |init|);
      } else {
        PendingStays(RunFrom(s, init), m);
      }
    }
  }

  /** No watcher thread stands between its look at the section counter and its decision. */
  ghost predicate NoneDeciding(threads: map<nat, Pc>) {
    forall t :: t in threads ==> !threads[t].AwaitLock? && !InLock(threads[t])
  }

  /** A section is open before every move, and the watcher is not restarted. */
  ghost predicate SectionHeld(s: System, moves: seq<Move>) {
    moves == [] ||
    var init, m := moves[..|moves| - 1], moves[|moves| - 1];
    SectionHeld(s, init) && RunFrom(s, init).signal.sections > 0 && !m.StartUnpend?
  }

  /** Ticks inside a section postpone a pending escalation; they never cancel or perform it. */
  lemma {:induction false} DeferralSurvivesSection(s: System, moves: seq<Move>)
    requires s.escalates && s.watch.pending && NoneDeciding(s.threads) && SectionHeld(s, moves)
    ensures var s' := RunFrom(s, moves);
            s'.escalates && s'.watch.pending && NoneDeciding(s'.threads) && s'.watch.claims <= s.watch.claims
  {
    if moves != [] {
      var init, m := moves[..|moves| - 1], moves[|moves| - 1];
      DeferralSurvivesSection(s, init);
      DeferringStep(RunFrom(s, init), m);
    }
  }

  lemma DeferringStep(s: System, m: Move)
    requires s.escalates && s.watch.pending && NoneDeciding(s.threads)
    requires s.signal.sections > 0 && !m.StartUnpend?
    ensures var s' := Step(s, m);
            s'.escalates && s'.watch.pending && NoneDeciding(s'.threads) && s'.watch.claims <= s.watch.claims
  {
  }

  function Iterate<A>(f: A -> A, x: A, n: nat): A {
    if n == 0 then x else f(Iterate(f, x, n - 1))
  }

  lemma {:induction false} IterateAdd<A>(f: A -> A, x: A, m: nat, n: nat)
    ensures Iterate(f, Iterate(f, x, m), n) == Iterate(f, x, m + n)
  {
    if n > 0 {
      IterateAdd(f, x, m, n - 1);
    }
  }

  /** One step of thread `t` with nothing to drain. */
  function Ticking(t: nat): System -> System {
    s => Step(s, Advance(t, []))
  }

  /** Thread `t`, left alone with nothing to drain, takes the system from `s` to `s'`. */
  ghost predicate Reaches(s: System, t: nat, s': System) {
    exists n: nat :: Iterate(Ticking(t), s, n) == s'
  }

  lemma Tick(s: System, t: nat)
    ensures Reaches(s, t, Step(s, Advance(t, [])))
  {
    assert Iterate(Ticking(t), s, 1) == Ticking(t)(Iterate(Ticking(t), s, 0));
  }

  lemma ReachesOn(s: System, t: nat, mid: System, s': System)
    requires Reaches(s, t, mid) && Reaches(mid, t, s')
    ensures Reaches(s, t, s')
  {
    var m: nat :| Iterate(Ticking(t), s, m) == mid;
    var n: nat :| Iterate(Ticking(t), mid, n) == s';
    IterateAdd(Ticking(t), s, m, n);
  }

  lemma TickOn(s: System, t: nat, mid: System)
    requires Reaches(s, t, mid)
    ensures Reaches(s, t, Step(mid, Advance(t, [])))
  {
    Tick(mid, t);
    ReachesOn(s, t, mid, Step(mid, Advance(t, [])));
  }

  lemma HandlerJoinsRequest(s: System, h: nat)
    requires h in s.threads && s.threads[h].HandlerPublish? && s.signal.request.Some?
    ensures var s' := Step(s, Advance(h, []));
            h in s'.threads && s'.threads[h] == HandlerLlm && s'.signal.request.Some? &&
            s'.signal == s.signal.(request := s'.signal.request, event := true)
  {
  }

  lemma HandlerLooksAround(s: System, h: nat)
    requires h in s.threads && s.threads[h].HandlerLlm? && s.signal.sections == 0 && s.signal.llmCalls == 0
    ensures Reaches(s, h, s.(threads := s.threads[h := HandlerClaim]))
  {
    var s1 := s.(threads := s.threads[h := HandlerSection]);
    Tick(s, h);
    assert s.threads[h := HandlerClaim] == s1.threads[h := HandlerClaim];
    TickOn(s, h, s1);
  }

  lemma HandlerLosesClaim(s: System, h: nat)
    requires h in s.threads && s.threads[h].HandlerClaim? && s.signal.delivered
    ensures Step(s, Advance(h, [])) == s.(threads := s.threads[h := HandlerConsume])
  {
  }

  /** The handler a trip runs finds the handoff armed for it, and so its authority to raise. */
  lemma HandlerSpendsHandoff(s: System, h: nat) returns (s': System)
    requires h in s.threads && s.threads[h].HandlerPublish? && s.signal.request.Some?
    requires s.signal.sections == 0 && s.signal.llmCalls == 0 && s.signal.delivered && s.signal.handoff
    ensures Reaches(s, h, s')
    ensures h in s'.threads && s'.threads[h] == HandlerConsume && Authorises(s'.signal, ConsumeHandoff)
  {
    HandlerJoinsRequest(s, h);
    Tick(s, h);
    var s1 := Step(s, Advance(h, []));
    HandlerLooksAround(s1, h);
    var s2 := s1.(threads := s1.threads[h := HandlerClaim]);
    ReachesOn(s, h, s1, s2);
    HandlerLosesClaim(s2, h);
    s' := s2.(threads := s2.threads[h := HandlerConsume]);
    TickOn(s, h, s2);
  }

  // Interrupts after stop

  predicate IsTripper(s: System, t: nat) {
    t in s.threads && s.threads[t].Tripping?
  }

  /** The move is a watcher tripping SIGINT. */
  predicate Trips(s: System, m: Move) {
    m.Advance? && IsTripper(s, m.t)
  }

  ghost predicate TripsIn(s: System, moves: seq<Move>) {
    moves != [] &&
    var init := moves[..|moves| - 1];
    TripsIn(s, init) || Trips(RunFrom(s, init), moves[|moves| - 1])
  }

  ghost predicate NoStart(moves: seq<Move>) {
    forall m :: m in moves ==> !m.StartClear?
  }

  /** While the stop stands, no thread comes to stand before its trip. */
  lemma NoNewTripper(s: System, m: Move)
    requires CheckHolds(s.watch, s.threads) && s.watch.stopping && !m.StartClear?
    ensures Step(s, m).watch.stopping
    ensures forall t :: IsTripper(Step(s, m), t) ==> IsTripper(s, t)
  {
  }

  lemma {:induction false} NoTripperNoTrip(s: System, moves: seq<Move>)
    requires LockInv(s.watch, s.threads) && s.watch.stopping && NoStart(moves)
    requires forall t :: !IsTripper(s, t)
    ensures var s' := RunFrom(s, moves);
            && LockInv(s'.watch, s'.threads) && s'.watch.stopping
            && (forall t :: !IsTripper(s', t)) && !TripsIn(s, moves)
  {
    if moves != [] {
      var init, m := moves[..|moves| - 1], moves[|moves| - 1];
      assert m in moves;
      NoTripperNoTrip(s, init);
      StepKeepsLockInv(RunFrom(s, init), m);
      NoNewTripper(RunFrom(s, init), m);
    }
  }

  /**
  From the return of a `stop()` until the next `start()` has its thread, only an
  overdue thread can stand right before a trip.
  */
  lemma TripperIsOverdue(escalates: bool, moves: seq<Move>, t: nat)
    requires var s := Run(escalates, moves); !s.owner.Watching? && !s.owner.Joining? && IsTripper(s, t)
    ensures t in Run(escalates, moves).overdue
  {
    Reachable(escalates, moves);
  }

  /**
  After `stop()` has returned and until the next `start()`, a watcher trips SIGINT
  in some continuation exactly when a thread stood right before its trip at the
  return; such a thread is one whose join timed out.
  */
  lemma LateTripIff(escalates: bool, moves: seq<Move>)
    requires Run(escalates, moves).owner.Stopped? && Run(escalates, moves).watch.stopping
    ensures var s := Run(escalates, moves);
            && ((exists more :: NoStart(more) && TripsIn(s, more)) <==> exists t :: IsTripper(s, t))
            && forall t :: IsTripper(s, t) ==> t in s.overdue
  {
    var s := Run(escalates, moves);
    Reachable(escalates, moves);
    if t :| IsTripper(s, t) {
      var more := [Advance(t, [])];
      assert more[..0] == [] && Trips(RunFrom(s, []), more[0]);
      assert NoStart(more) && TripsIn(s, more);
    } else {
      forall more | NoStart(more)
        ensures !TripsIn(s, more)
      {
        NoTripperNoTrip(s, more);
      }
    }
    forall t | IsTripper(s, t)
      ensures t in s.overdue
    {
      TripperIsOverdue(escalates, moves, t);
    }
  }

  lemma Extend(moves: seq<Move>, m: Move) returns (moves': seq<Move>)
    ensures moves' == moves + [m]
    ensures Run(true, moves') == Step(Run(true, moves), m)
  {
    moves' := moves + [m];
    assert moves'[..|moves|] == moves;
  }

  lemma StartedWith(item: Item) returns (moves: seq<Move>)
    ensures Run(true, moves) ==
      Initial(true).(threads := map[0 := Publishing([item])], owner := Watching(0))
  {
    moves := Extend([], StartClear);
    moves := Extend(moves, StartRearm);
    moves := Extend(moves, StartUnpend);
    moves := Extend(moves, StartSpawn(0));
    assert Run(true, moves) == Initial(true).(threads := map[0 := Top], owner := Watching(0));
    moves := Extend(moves, Advance(0, [item]));
    assert Run(true, moves).threads == map[0 := Publishing([item])];
  }

  lemma Deciding() returns (moves: seq<Move>)
    ensures var s := Run(true, moves);
            s.threads == map[0 := Checked(false)] && s.owner == Watching(0) && !s.sigint &&
            s.watch == Watch(false, true, false, Some(0), 0) && s.signal.llmCalls == 0 && s.signal.sections == 0 &&
            s.signal.request.Some? && s.signal.event && !s.signal.delivered
  {
    var tick := Advance(0, []);
    moves := StartedWith(Item("stop", "c1"));
    moves := Extend(moves, tick);
    moves := Extend(moves, tick);
    ghost var s := Run(true, moves);
    assert s.threads == map[0 := Entering(false)] && s.signal.sections == 0 && s.watch.pending;
    moves := Extend(moves, tick);
    moves := Extend(moves, tick);
    moves := Extend(moves, tick);
    assert Run(true, moves).threads == map[0 := Checked(false)];
  }

  /** A start, one drained interjection, and the ticks up to the trip. */
  lemma AboutToTrip() returns (moves: seq<Move>)
    ensures var s := Run(true, moves);
            s.threads == map[0 := Tripping(false)] && s.owner == Watching(0) && !s.sigint &&
            s.watch.lock == None && !s.watch.stopping && s.signal.llmCalls == 0 && s.signal.sections == 0 &&
            s.signal.request.Some? && s.signal.event && s.signal.delivered && s.signal.handoff
  {
    var tick := Advance(0, []);
    moves := Deciding();
    moves := Extend(moves, tick);
    assert Run(true, moves).threads == map[0 := NoCall(false)];
    moves := Extend(moves, tick);
    assert Run(true, moves).threads == map[0 := Claimed(false)];
    moves := Extend(moves, tick);
    assert Run(true, moves).threads == map[0 := Tripping(false)];
  }

  /**
  The comment beside the watcher's lock says no interrupt is issued after
  `stop()` has returned. With a join that times out it is: the claim was made
  under the lock before the stop, the trip comes after it.
  */
  lemma LateTripHappens() returns (moves: seq<Move>)
    ensures var s := Run(true, moves);
            s.owner.Stopped? && s.watch.stopping && !s.sigint && Step(s, Advance(0, [])).sigint
  {
    moves := AboutToTrip();
    moves := Extend(moves, StopSet);
    moves := Extend(moves, JoinTimeout);
  }

  /** The trip has run the handler as thread 1, which has joined the request. */
  lemma HandlerUnderWay() returns (moves: seq<Move>)
    ensures var s := Run(true, moves);
            s.threads == map[0 := Retry, 1 := HandlerLlm] && !s.sigint && s.signal.llmCalls == 0 &&
            s.signal.sections == 0 && s.signal.request.Some? && s.signal.handoff
  {
    moves := AboutToTrip();
    moves := Extend(moves, Advance(0, []));
    moves := Extend(moves, RunHandler(1));
    assert Run(true, moves).threads == map[0 := Retry, 1 := HandlerPublish];
    moves := Extend(moves, Advance(1, []));
    assert Run(true, moves).threads == map[0 := Retry, 1 := HandlerLlm];
  }

  /** A call that starts right before the handler looks, and ends: nothing is in flight, and nobody will raise. */
  lemma CallOrphansEscalation() returns (moves: seq<Move>)
    ensures var s := Run(true, moves); Orphaned(s) && s.signal.llmCalls == 0 && s.signal.sections == 0
  {
    moves := HandlerUnderWay();
    moves := Extend(moves, Others(EnterLlm));
    moves := Extend(moves, Advance(1, []));
    moves := Extend(moves, Others(ExitLlm));
    assert Run(true, moves).threads == map[0 := Retry, 1 := Done];
  }

  /** A section that opens before the handler looks makes it stand down. */
  lemma SectionStopsHandler() returns (moves: seq<Move>)
    ensures var s := Run(true, moves);
            s.threads == map[0 := Retry, 1 := Done] && !s.sigint && s.signal.llmCalls == 0 &&
            s.signal.sections == 1 && s.signal.request.Some? && s.signal.handoff
  {
    moves := HandlerUnderWay();
    moves := Extend(moves, Others(EnterSection));
    moves := Extend(moves, Advance(1, []));
    assert Run(true, moves).threads == map[0 := Retry, 1 := HandlerSection];
    moves := Extend(moves, Advance(1, []));
  }

  /** And when that section ends with an error, nobody will raise either. */
  lemma FailedSectionOrphansEscalation() returns (moves: seq<Move>)
    ensures var s := Run(true, moves); Orphaned(s) && s.signal.llmCalls == 0 && s.signal.sections == 0
  {
    moves := SectionStopsHandler();
    moves := Extend(moves, ExitScope(2, false));
  }

  // The watcher object, one call at a time

  datatype Outcome = Ineligible | Deferred | Closed | CallInFlight | AlreadyDelivered | Raised

  function Decide(signal: State, escalates: bool, escalated: bool, stopping: bool): Outcome {
    if !escalates then Ineligible
    else if signal.sections > 0 then Deferred
    else if escalated || stopping then Closed
    else if signal.llmCalls > 0 then CallInFlight
    else if signal.delivered then AlreadyDelivered
    else Raised
  }

  function PublishAll(signal: State, items: seq<Item>): State {
    if items == [] then signal
    else
      var last := items[|items| - 1];
      Next(PublishAll(signal, items[..|items| - 1]), Publish("interjection", last.text, last.callId))
  }

  /** The non-empty texts of drained items, in order. */
  function ItemTexts(items: seq<Item>): seq<string> {
    if items == [] then []
    else
      var last := items[|items| - 1];
      ItemTexts(items[..|items| - 1]) + if last.text != "" then [last.text] else []
  }

  function ItemIds(items: seq<Item>): seq<string> {
    if items == [] then []
    else
      var last := items[|items| - 1];
      ItemIds(items[..|items| - 1]) + if last.callId != "" then [last.callId] else []
  }

  /** The contents of the pending request, or of the one an interjection would open. */
  function Contents(signal: State): Request {
    if signal.request.Some? then signal.request.value else Request("interjection", [], [])
  }

  /** Drained items open or extend one request with all their texts and ids, in order. */
  lemma {:induction false} PublishAllAdds(signal: State, items: seq<Item>)
    ensures var s := PublishAll(signal, items);
            && Contents(s).reason == Contents(signal).reason
            && Contents(s).texts == Contents(signal).texts + ItemTexts(items)
            && Contents(s).callIds == Contents(signal).callIds + ItemIds(items)
            && s.llmCalls == signal.llmCalls && s.sections == signal.sections
    ensures var s := PublishAll(signal, items);
            items != [] ==>
              && s.event && s.request.Some?
              && s.delivered == (signal.delivered && signal.request.Some?)
              && s.handoff == (signal.handoff && signal.request.Some?)
  {
    if items != [] {
      var init, last := items[..|items| - 1], items[|items| - 1];
      PublishAllAdds(signal, init);
      var before := Contents(PublishAll(signal, init));
      assert Contents(PublishAll(signal, items)) == StopSignals.Extend(before, last.text, last.callId);
    }
  }

  class InterjectionWatcher {
    const signal: StopSignal
    const escalates: bool
    var escalated: bool
    var pending: bool
    var stopping: bool
    var running: bool
    var interrupts: nat

    constructor (signal: StopSignal, escalates: bool)
      ensures this.signal == signal && this.escalates == escalates
      ensures !escalated && !pending && !stopping && !running && interrupts == 0
    {
      this.signal, this.escalates := signal, escalates;
      escalated, pending, stopping, running, interrupts := false, false, false, false, 0;
    }

    /** A deferral keeps the escalation pending; every other outcome settles it. */
    method EscalateIfNoLlmCall()
      modifies this`escalated, this`pending, this`interrupts, signal`delivered, signal`handoff
      ensures var o := Decide(old(signal.View()), escalates, old(escalated), stopping);
              && signal.View() == (if o.Raised? then Next(old(signal.View()), ClaimEscalation) else old(signal.View()))
              && pending == (old(pending) && o.Deferred?)
              && escalated == (old(escalated) || o.Raised?)
              && interrupts == old(interrupts) + if o.Raised? then 1 else 0
      ensures pending <==> old(pending) && escalates && signal.sections > 0
      ensures if escalates && signal.sections == 0 && !old(escalated) && !stopping && signal.llmCalls == 0 &&
                 !old(signal.delivered)
              then interrupts == old(interrupts) + 1 && escalated && signal.delivered && signal.handoff
              else interrupts == old(interrupts) && escalated == old(escalated) && signal.View() == old(signal.View())
    {
      if !escalates {
        pending := false;
        return;
      }
      if signal.sections > 0 {
        return;
      }
      if escalated || stopping {
        pending := false;
        return;
      }
      if signal.llmCalls > 0 {
        pending := false;
        return;
      }
      var won := signal.ClaimEscalationDelivery();
      if !won {
        pending := false;
        return;
      }
      escalated := true;
      pending := false;
      interrupts := interrupts + 1;
    }

    /** Publishes every drained item, in order, then decides on the escalation. */
    method PollOnce(drained: seq<Item>) returns (published: bool)
      modifies this`escalated, this`pending, this`interrupts, signal, signal.request
      ensures published <==> drained != []
      ensures drained == [] ==> unchanged(this) && signal.View() == old(signal.View())
      ensures drained != [] ==>
        var s := PublishAll(old(signal.View()), drained);
        var o := Decide(s, escalates, old(escalated), stopping);
        && signal.View() == (if o.Raised? then Next(s, ClaimEscalation) else s)
        && pending == o.Deferred?
        && escalated == (old(escalated) || o.Raised?)
        && interrupts == old(interrupts) + if o.Raised? then 1 else 0
      ensures drained != [] ==>
        && signal.View().request.Some? && signal.View().event
        && Contents(signal.View()).texts == Contents(old(signal.View())).texts + ItemTexts(drained)
        && Contents(signal.View()).callIds == Contents(old(signal.View())).callIds + ItemIds(drained)
        && (pending <==> escalates && signal.sections > 0)
        && interrupts == old(interrupts) +
             if escalates && signal.sections == 0 && !old(escalated) && !stopping && signal.llmCalls == 0 &&
                (old(signal.View()).request.None? || !old(signal.delivered))
             then 1 else 0
    {
      if drained == [] {
        return false;
      }
      for n := 0 to |drained|
        invariant signal.request == old(signal.request) || fresh(signal.request)
        invariant signal.View() == PublishAll(old(signal.View()), drained[..n])
        invariant unchanged(this)
      {
        var _ := signal.Publish("interjection", drained[n].text, drained[n].callId);
        assert drained[..n + 1][..n] == drained[..n];
      }
      assert drained[..|drained|] == drained;
      PublishAllAdds(old(signal.View()), drained);
      pending := true;
      EscalateIfNoLlmCall();
      published := true;
    }

    /** Re-arms the watcher and starts its loop, unless one is running already. */
    method Start()
      modifies this`escalated, this`pending, this`stopping, this`running
      ensures running
      ensures if old(running) then unchanged(this) else !stopping && !escalated && !pending
    {
      if running {
        return;
      }
      stopping, escalated, pending, running := false, false, false, true;
    }

    /** Asks the loop to stop and forgets it; a later start begins a new one. */
    method Stop()
      modifies this`stopping, this`running
      ensures stopping && !running
    {
      stopping, running := true, false;
    }
  }

  /** What one undisturbed call of `EscalateIfNoLlmCall` makes of the system. */
  function Settled(s: System, t: nat, again: bool): System {
    var w := s.watch;
    var threads := s.threads[t := After(again)];
    match Decide(s.signal, s.escalates, w.escalated, w.stopping)
    case Deferred => s.(threads := threads)
    case Raised =>
      s.(signal := Next(s.signal, ClaimEscalation), threads := threads, sigint := true,
         watch := w.(escalated := true, pending := false, claims := w.claims + 1))
    case _ => s.(threads := threads, watch := w.(pending := false))
  }

  /** The sequential method is one schedule of the interleaved machine. */
  lemma CallIsASchedule(s: System, t: nat, again: bool)
    requires t in s.threads && s.threads[t] == Entering(again) && s.watch.lock.None?
    ensures Reaches(s, t, Settled(s, t, again))
  {
    var o := Decide(s.signal, s.escalates, s.watch.escalated, s.watch.stopping);
    Tick(s, t);
    if !o.Ineligible? && !o.Deferred? {
      var waiting := s.(threads := s.threads[t := AwaitLock(again)]);
      var held := s.watch.(lock := Some(t));
      var locked := s.(watch := held, threads := s.threads[t := Locked(again)]);
      assert locked.threads == waiting.threads[t := Locked(again)];
      TickOn(s, t, waiting);
      LockedSettles(s, locked, t, again);
      ReachesOn(s, t, locked, Settled(s, t, again));
    }
  }

  lemma LockedSettles(s: System, locked: System, t: nat, again: bool)
    requires t in s.threads && s.watch.lock.None? && s.escalates && s.signal.sections == 0
    requires locked == s.(watch := s.watch.(lock := Some(t)), threads := s.threads[t := Locked(again)])
    ensures Reaches(locked, t, Settled(s, t, again))
  {
    var o := Decide(s.signal, s.escalates, s.watch.escalated, s.watch.stopping);
    Tick(locked, t);
    assert locked.threads[t := After(again)] == s.threads[t := After(again)];
    if !o.Closed? {
      var checked := locked.(threads := s.threads[t := Checked(again)]);
      assert checked.threads == locked.threads[t := Checked(again)];
      CheckedSettles(s, checked, t, again);
      ReachesOn(locked, t, checked, Settled(s, t, again));
    }
  }

  lemma CheckedSettles(s: System, checked: System, t: nat, again: bool)
    requires t in s.threads && s.watch.lock.None? && s.escalates && s.signal.sections == 0
    requires !s.watch.escalated && !s.watch.stopping
    requires checked == s.(watch := s.watch.(lock := Some(t)), threads := s.threads[t := Checked(again)])
    ensures Reaches(checked, t, Settled(s, t, again))
  {
    Tick(checked, t);
    assert checked.threads[t := After(again)] == s.threads[t := After(again)];
    if s.signal.llmCalls == 0 {
      var free := checked.(threads := s.threads[t := NoCall(again)]);
      assert free.threads == checked.threads[t := NoCall(again)];
      FreeSettles(s, free, t, again);
      ReachesOn(checked, t, free, Settled(s, t, again));
    }
  }

  lemma FreeSettles(s: System, free: System, t: nat, again: bool)
    requires t in s.threads && s.watch.lock.None? && s.escalates && s.signal.sections == 0
    requires !s.watch.escalated && !s.watch.stopping && s.signal.llmCalls == 0
    requires free == s.(watch := s.watch.(lock := Some(t)), threads := s.threads[t := NoCall(again)])
    ensures Reaches(free, t, Settled(s, t, again))
  {
    Tick(free, t);
    assert free.threads[t := After(again)] == s.threads[t := After(again)];
    if !s.signal.delivered {
      ClaimStep(free, t, again);
      var claimed := Step(free, Advance(t, []));
      assert claimed.threads[t := After(again)] == s.threads[t := After(again)];
      ClaimReachesTrip(claimed, t, again);
      ReachesOn(free, t, claimed, Settled(s, t, again));
    }
  }

  lemma ClaimStep(s: System, t: nat, again: bool)
    requires t in s.threads && s.threads[t] == NoCall(again) && !s.signal.delivered
    ensures Step(s, Advance(t, [])) ==
      s.(signal := Next(s.signal, ClaimEscalation),
         watch := s.watch.(claims := s.watch.claims + 1),
         threads := s.threads[t := Claimed(again)])
  {
  }

  lemma ClaimReachesTrip(s: System, t: nat, again: bool)
    requires t in s.threads && s.threads[t] == Claimed(again)
    ensures Reaches(s, t,
      s.(watch := s.watch.(escalated := true, pending := false, lock := None),
         threads := s.threads[t := After(again)], sigint := true))
  {
    var s1 := s.(watch := s.watch.(escalated := true, pending := false, lock := None),
                 threads := s.threads[t := Tripping(again)]);
    Tick(s, t);
    assert s.threads[t := After(again)] == s1.threads[t := After(again)];
    TickOn(s, t, s1);
  }

  /**
  Once the section is over, a deferred escalation does fire: left alone, the
  loop thread claims the delivery with a handoff and trips SIGINT.
  */
  lemma DeferredEscalationFires(s: System, t: nat)
    requires s.escalates && s.watch == Watch(false, true, false, None, s.watch.claims)
    requires s.signal.sections == 0 && s.signal.llmCalls == 0 && !s.signal.delivered
    requires t in s.threads && s.threads[t].Retry?
    ensures Reaches(s, t,
      s.(signal := s.signal.(delivered := true, handoff := true),
         watch := Watch(true, false, false, None, s.watch.claims + 1),
         threads := s.threads[t := Waiting], sigint := true))
  {
    Tick(s, t);
    var entering := s.(threads := s.threads[t := Entering(true)]);
    CallIsASchedule(entering, t, true);
    ReachesOn(s, t, entering, Settled(entering, t, true));
    SettledFires(s, entering, t);
  }

  lemma SettledFires(s: System, entering: System, t: nat)
    requires s.escalates && s.watch == Watch(false, true, false, None, s.watch.claims)
    requires s.signal.sections == 0 && s.signal.llmCalls == 0 && !s.signal.delivered
    requires t in s.threads && entering == s.(threads := s.threads[t := Entering(true)])
    ensures Settled(entering, t, true) ==
      s.(signal := s.signal.(delivered := true, handoff := true),
         watch := Watch(true, false, false, None, s.watch.claims + 1),
         threads := s.threads[t := Waiting], sigint := true)
  {
    assert entering.threads[t := Waiting] == s.threads[t := Waiting];
  }

  // Whole polls, stops and handlers as schedules

  lemma {:induction false} PublishAllFront(signal: State, items: seq<Item>)
    requires items != []
    ensures PublishAll(signal, items) ==
      PublishAll(Next(signal, Publish("interjection", items[0].text, items[0].callId)), items[1..])
  {
    var init := items[..|items| - 1];
    if init != [] {
      PublishAllFront(signal, init);
      assert items[1..][..|items| - 2] == init[1..];
    }
  }

  lemma PublishStep(s: System, t: nat, items: seq<Item>)
    requires t in s.threads && s.threads[t] == Publishing(items) && items != []
    ensures Step(s, Advance(t, [])) ==
      s.(signal := Next(s.signal, Publish("interjection", items[0].text, items[0].callId)),
         threads := s.threads[t := if |items| == 1 then Noting else Publishing(items[1..])])
  {
  }

  /** A thread that publishes does so item by item, and loses none. */
  lemma {:induction false} PublishingReaches(s: System, t: nat, items: seq<Item>)
    requires t in s.threads && s.threads[t] == Publishing(items) && items != []
    ensures Reaches(s, t, s.(signal := PublishAll(s.signal, items), threads := s.threads[t := Noting]))
    decreases |items|
  {
    PublishAllFront(s.signal, items);
    PublishStep(s, t, items);
    Tick(s, t);
    if |items| > 1 {
      var signal := Next(s.signal, Publish("interjection", items[0].text, items[0].callId));
      var s1 := s.(signal := signal, threads := s.threads[t := Publishing(items[1..])]);
      PublishingReaches(s1, t, items[1..]);
      assert s1.threads[t := Noting] == s.threads[t := Noting];
      ReachesOn(s, t, s1, s.(signal := PublishAll(s.signal, items), threads := s.threads[t := Noting]));
    }
  }

  lemma NotingSettles(s: System, t: nat)
    requires t in s.threads && s.threads[t].Noting? && s.watch.lock.None?
    ensures Reaches(s, t, Settled(s.(watch := s.watch.(pending := true)), t, false))
  {
    var s1 := s.(watch := s.watch.(pending := true), threads := s.threads[t := Entering(false)]);
    assert s1 == Step(s, Advance(t, []));
    Tick(s, t);
    CallIsASchedule(s1, t, false);
    ReachesOn(s, t, s1, Settled(s1, t, false));
    assert s1.threads[t := Retry] == s.threads[t := Retry];
  }

  lemma DrainStep(s: System, t: nat, drained: seq<Item>)
    requires t in s.threads && s.threads[t].Top? && !s.watch.stopping && drained != []
    ensures Step(s, Advance(t, drained)) == s.(threads := s.threads[t := Publishing(drained)])
  {
  }

  /** The sequential poll is one schedule of the interleaved machine, from the drain of `DrainStep` on. */
  lemma PollIsASchedule(s: System, t: nat, drained: seq<Item>)
    requires t in s.threads && s.threads[t].Top? && !s.watch.stopping && s.watch.lock.None? && drained != []
    ensures Reaches(s.(threads := s.threads[t := Publishing(drained)]), t,
      Settled(s.(signal := PublishAll(s.signal, drained), watch := s.watch.(pending := true)), t, false))
  {
    var s1 := s.(threads := s.threads[t := Publishing(drained)]);
    PublishingReaches(s1, t, drained);
    var s2 := s.(signal := PublishAll(s.signal, drained), threads := s.threads[t := Noting]);
    assert s1.threads[t := Noting] == s.threads[t := Noting];
    NotingSettles(s2, t);
    assert s2.threads[t := Retry] == s.threads[t := Retry];
    var settled := Settled(s2.(watch := s.watch.(pending := true)), t, false);
    assert settled == Settled(s.(signal := s2.signal, watch := s.watch.(pending := true)), t, false) by {
      SettledAt(s2, s.(signal := s2.signal), t);
    }
    ReachesOn(s1, t, s2, settled);
  }

  /** Where the deciding thread stood does not matter. */
  lemma SettledAt(s: System, s': System, t: nat)
    requires t in s.threads && s == s'.(threads := s.threads) && s.threads[t := Retry] == s'.threads[t := Retry]
    ensures Settled(s.(watch := s.watch.(pending := true)), t, false) ==
            Settled(s'.(watch := s'.watch.(pending := true)), t, false)
  {
  }

  lemma WaitingEnds(s: System, t: nat) returns (s': System)
    requires s.watch.stopping && t in s.threads && (s.threads[t].Waiting? || s.threads[t].Top?)
    ensures Reaches(s, t, s') && s'.threads == s.threads[t := Done] && s'.signal == s.signal
  {
    s' := s.(threads := s.threads[t := Done]);
    Tick(s, t);
    if s.threads[t].Waiting? {
      var top := s.(threads := s.threads[t := Top]);
      assert top.threads[t := Done] == s.threads[t := Done];
      TickOn(s, t, top);
    }
  }

  lemma RetryEnds(s: System, t: nat) returns (s': System)
    requires s.watch.stopping && s.watch.lock.None? && t in s.threads && s.threads[t].Retry?
    ensures Reaches(s, t, s') && s'.threads == s.threads[t := Done] && s'.signal == s.signal
  {
    var mid := s.(threads := s.threads[t := if s.watch.pending then Entering(true) else Waiting]);
    assert mid == Step(s, Advance(t, []));
    Tick(s, t);
    assert mid.threads[t := Done] == s.threads[t := Done];
    if s.watch.pending {
      s' := RetriedEnds(mid, t);
    } else {
      s' := WaitingEnds(mid, t);
    }
    ReachesOn(s, t, mid, s');
  }

  lemma SettledStopped(s: System, t: nat, again: bool)
    requires s.watch.stopping && s.watch.lock.None?
    ensures var s' := Settled(s, t, again);
            && s'.watch.stopping && s'.watch.lock.None?
            && s'.signal == s.signal && s'.threads == s.threads[t := After(again)]
  {
  }

  lemma RetriedEnds(s: System, t: nat) returns (s': System)
    requires s.watch.stopping && s.watch.lock.None? && t in s.threads && s.threads[t] == Entering(true)
    ensures Reaches(s, t, s') && s'.threads == s.threads[t := Done] && s'.signal == s.signal
  {
    CallIsASchedule(s, t, true);
    SettledStopped(s, t, true);
    var mid := Settled(s, t, true);
    s' := WaitingEnds(mid, t);
    ReachesOn(s, t, mid, s');
    assert mid.threads[t := Done] == s.threads[t := Done];
  }

  lemma EnteringEnds(s: System, t: nat) returns (s': System)
    requires s.watch.stopping && s.watch.lock.None? && t in s.threads && s.threads[t] == Entering(false)
    ensures Reaches(s, t, s') && s'.threads == s.threads[t := Done] && s'.signal == s.signal
  {
    CallIsASchedule(s, t, false);
    SettledStopped(s, t, false);
    var mid := Settled(s, t, false);
    s' := RetryEnds(mid, t);
    ReachesOn(s, t, mid, s');
    assert mid.threads[t := Done] == s.threads[t := Done];
  }

  /**
  A stopped loop ends: left alone at the top of its loop, its wait, its retry or at
  the door of an escalation, its thread runs out without touching the signal.
  */
  lemma StoppedLoopEnds(s: System, t: nat) returns (s': System)
    requires s.watch.stopping && s.watch.lock.None? && t in s.threads
    requires s.threads[t].Top? || s.threads[t].Waiting? || s.threads[t].Retry? || s.threads[t].Entering?
    ensures Reaches(s, t, s') && s'.threads == s.threads[t := Done] && s'.signal == s.signal
  {
    if s.threads[t].Retry? {
      s' := RetryEnds(s, t);
    } else if s.threads[t].Entering? {
      if s.threads[t].again {
        s' := RetriedEnds(s, t);
      } else {
        s' := EnteringEnds(s, t);
      }
    } else {
      s' := WaitingEnds(s, t);
    }
  }

  lemma BusyHandlerEnds(s: System, h: nat)
    requires h in s.threads && s.threads[h].HandlerLlm? && (s.signal.llmCalls > 0 || s.signal.sections > 0)
    ensures Reaches(s, h, s.(threads := s.threads[h := Done]))
  {
    Tick(s, h);
    if s.signal.llmCalls == 0 {
      var s1 := s.(threads := s.threads[h := HandlerSection]);
      assert s1 == Step(s, Advance(h, []));
      assert s1.threads[h := Done] == s.threads[h := Done];
      TickOn(s, h, s1);
    }
  }

  lemma HandlerSpends(s: System, h: nat)
    requires h in s.threads && s.threads[h].HandlerConsume?
    ensures Step(s, Advance(h, [])) == s.(signal := s.signal.(handoff := false), threads := s.threads[h := Done])
  {
  }

  lemma HandlerWinsClaim(s: System, h: nat)
    requires h in s.threads && s.threads[h].HandlerClaim? && !s.signal.delivered
    ensures Step(s, Advance(h, [])) == s.(signal := s.signal.(delivered := true), threads := s.threads[h := Done])
  {
  }

  lemma IdleHandlerEnds(s: System, h: nat)
    requires h in s.threads && s.threads[h].HandlerClaim?
    ensures Reaches(s, h,
      s.(signal := if !s.signal.delivered then s.signal.(delivered := true) else s.signal.(handoff := false),
         threads := s.threads[h := Done]))
  {
    Tick(s, h);
    if s.signal.delivered {
      HandlerLosesClaim(s, h);
      var consuming := s.(threads := s.threads[h := HandlerConsume]);
      HandlerSpends(consuming, h);
      assert consuming.threads[h := Done] == s.threads[h := Done];
      TickOn(s, h, consuming);
    } else {
      HandlerWinsClaim(s, h);
    }
  }

  lemma LookingHandlerEnds(s: System, h: nat)
    requires h in s.threads && s.threads[h].HandlerLlm? && s.signal.llmCalls == 0 && s.signal.sections == 0
    ensures Reaches(s, h,
      s.(signal := if !s.signal.delivered then s.signal.(delivered := true) else s.signal.(handoff := false),
         threads := s.threads[h := Done]))
  {
    HandlerLooksAround(s, h);
    var claiming := s.(threads := s.threads[h := HandlerClaim]);
    IdleHandlerEnds(claiming, h);
    assert claiming.threads[h := Done] == s.threads[h := Done];
    ReachesOn(s, h, claiming,
      s.(signal := if !s.signal.delivered then s.signal.(delivered := true) else s.signal.(handoff := false),
         threads := s.threads[h := Done]));
  }

  lemma HandlerPublishes(s: System, h: nat)
    requires h in s.threads && s.threads[h].HandlerPublish?
    ensures Step(s, Advance(h, [])) ==
      s.(signal := Next(s.signal, Publish("interrupt", "", "")), threads := s.threads[h := HandlerLlm])
  {
  }

  /** The sequential handler is one schedule of the interleaved machine. */
  lemma HandlerIsASchedule(s: System, h: nat)
    requires h in s.threads && s.threads[h].HandlerPublish?
    ensures Reaches(s, h, s.(signal := Handled(s.signal), threads := s.threads[h := Done]))
  {
    var published := Next(s.signal, Publish("interrupt", "", ""));
    var s1 := s.(signal := published, threads := s.threads[h := HandlerLlm]);
    HandlerPublishes(s, h);
    Tick(s, h);
    assert s1.threads[h := Done] == s.threads[h := Done];
    if published.llmCalls > 0 || published.sections > 0 {
      BusyHandlerEnds(s1, h);
    } else {
      LookingHandlerEnds(s1, h);
    }
    ReachesOn(s, h, s1, s.(signal := Handled(s.signal), threads := s.threads[h := Done]));
  }

  /** No thread is on its way to an escalation. */
  ghost predicate NoneEscalating(threads: map<nat, Pc>) {
    forall t :: t in threads ==> !threads[t].AwaitLock? && !InLock(threads[t]) && !threads[t].Tripping?
  }

  lemma IneligibleStep(s: System, m: Move)
    requires !s.escalates && NoneEscalating(s.threads) && s.watch.claims == 0
    ensures !Step(s, m).escalates && NoneEscalating(Step(s, m).threads) && Step(s, m).watch.claims == 0
  {
  }

  /** A watcher that did not opt in, or is not owned by the main thread, never claims and never trips SIGINT. */
  lemma {:induction false} IneligibleNeverEscalates(moves: seq<Move>)
    ensures var s := Run(false, moves); !s.escalates && NoneEscalating(s.threads) && s.watch.claims == 0
  {
    if moves != [] {
      IneligibleNeverEscalates(moves[..|moves| - 1]);
      IneligibleStep(Run(false, moves[..|moves| - 1]), moves[|moves| - 1]);
    }
  }

  /** A start after a stop has a fresh watcher and a new loop, whatever the earlier one did. */
  lemma RestartIsFresh(s: System, t: nat)
    requires s.owner.Stopped? && t !in s.threads
    ensures RunFrom(s, [StartClear, StartRearm, StartUnpend, StartSpawn(t)]) ==
      s.(watch := Watch(false, false, false, s.watch.lock, 0), threads := s.threads[t := Top], owner := Watching(t))
  {
    var moves := [StartClear, StartRearm, StartUnpend, StartSpawn(t)];
    assert moves[..3] == [StartClear, StartRearm, StartUnpend];
    assert moves[..3][..2] == [StartClear, StartRearm];
    assert [StartClear, StartRearm][..1] == [StartClear] && [StartClear][..0] == [];
    assert RunFrom(s, [StartClear]) == Step(s, StartClear);
    assert RunFrom(s, [StartClear, StartRearm]) == Step(Step(s, StartClear), StartRearm);
  }
}
