/**
Runs of the stop signal: any number of threads, handlers, watchers and leaving
scopes, in any interleaving of their critical sections. A run is a sequence of
`Action`s; the world keeps, beside the signal, a ledger of what was authorised
in each epoch (the life of one request) and of the requests dropped so far.
*/
module StopProtocol {
  import opened Options
  import opened StopSignals

  datatype Epoch = Epoch(attempts: nat, wins: nat, raises: nat)

  const OPENED := Epoch(0, 0, 0)

  datatype World = World(signal: State, closed: seq<Epoch>, current: Epoch, dropped: seq<Request>)

  function One(b: bool): nat {
    if b then 1 else 0
  }

  function Step(w: World, a: Action): World {
    var s := w.signal;
    var starts := StartsEpoch(s, a);
    World(
      Next(s, a),
      if starts then w.closed + [w.current] else w.closed,
      if starts then OPENED
      else Epoch(w.current.attempts + One(AttemptsClaim(s, a)),
                 w.current.wins + One(WinsClaim(s, a)),
                 w.current.raises + One(Authorises(s, a))),
      if (a.Clear? || a.Take?) && s.request.Some? then w.dropped + [s.request.value] else w.dropped)
  }

  function Run(actions: seq<Action>): World {
    if actions == [] then World(INITIAL, [], OPENED, [])
    else Step(Run(actions[..|actions| - 1]), actions[|actions| - 1])
  }

  /** All epochs of a run, the open one last. */
  function Epochs(actions: seq<Action>): seq<Epoch> {
    Run(actions).closed + [Run(actions).current]
  }

  /** What the two flags mean for the open epoch. */
  ghost predicate FlagsMatchLedger(s: State, e: Epoch) {
    && (s.handoff ==> s.delivered)
    && e.wins == One(s.delivered) == One(e.attempts > 0)
    && e.raises == One(s.delivered && !s.handoff)
  }

  /**
  In every epoch of every run exactly one of the callers that try to claim the
  delivery wins it, and at most one raise is authorised; the two flags of the
  signal are exactly the ledger of the open epoch.
  */
  lemma {:induction false} OneDeliveryPerEpoch(actions: seq<Action>)
    ensures forall e :: e in Epochs(actions) ==> e.raises <= e.wins == One(e.attempts > 0)
    ensures FlagsMatchLedger(Run(actions).signal, Run(actions).current)
  {
    if actions != [] {
      OneDeliveryPerEpoch(actions[..|actions| - 1]);
      forall e | e in Epochs(actions)
        ensures e.raises <= e.wins == One(e.attempts > 0)
      {
        assert e == Run(actions).current || e in Epochs(actions[..|actions| - 1]);
      }
    }
  }

  /**
  A leaving scope raises exactly on the main thread with a request pending, no LLM
  call and no section open, and no raise authorised for that request yet.
  */
  lemma LeavingRaisesIff(actions: seq<Action>, onMain: bool)
    ensures var w := Run(actions);
            Authorises(w.signal, LeaveSection(onMain)) <==>
              onMain && w.signal.request.Some? && w.signal.llmCalls == 0 && w.signal.sections == 0 &&
              w.current.raises == 0
  {
    OneDeliveryPerEpoch(actions);
    PendingIsSummary(actions);
  }

  /**
  When the outermost scope leaves on the main thread with a request pending and
  no LLM call in flight, exactly one raise has been authorised for that request,
  whatever interleaving of handler, watchers and scopes came before.
  */
  lemma NothingStrandedByDeferral(actions: seq<Action>)
    requires Run(actions).signal.request.Some?
    requires Run(actions).signal.llmCalls == 0 && Run(actions).signal.sections == 0
    ensures var w := Run(actions + [LeaveSection(true)]);
            w.current.raises == 1 && w.signal.event && w.signal.request == Run(actions).signal.request
  {
    var whole := actions + [LeaveSection(true)];
    assert whole[..|whole| - 1] == actions;
    OneDeliveryPerEpoch(whole);
    PendingIsSummary(actions);
  }

  // Scope counters

  function Count(actions: seq<Action>, x: Action): nat {
    if actions == [] then 0
    else Count(actions[..|actions| - 1], x) + One(actions[|actions| - 1] == x)
  }

  /** At every point of the run each exit had an enter before it, as context managers guarantee. */
  predicate Bracketed(actions: seq<Action>, enter: Action, leave: Action) {
    actions == [] ||
    (Bracketed(actions[..|actions| - 1], enter, leave) &&
     Count(actions, leave) <= Count(actions, enter))
  }

  /** A counter that enters and exits with the source's clamp at zero. */
  function Depth(actions: seq<Action>, enter: Action, leave: Action): nat {
    if actions == [] then 0
    else
      var d := Depth(actions[..|actions| - 1], enter, leave);
      var a := actions[|actions| - 1];
      if a == enter then d + 1 else if a == leave && d > 0 then d - 1 else d
  }

  /** The clamp is silent exactly on bracketed runs. */
  lemma DepthSnoc(init: seq<Action>, a: Action, enter: Action, leave: Action)
    ensures var d := Depth(init, enter, leave);
            Depth(init + [a], enter, leave) == if a == enter then d + 1 else if a == leave && d > 0 then d - 1 else d
  {
    assert (init + [a])[..|init|] == init;
  }

  lemma CountSnoc(init: seq<Action>, a: Action, x: Action)
    ensures Count(init + [a], x) == Count(init, x) + One(a == x)
  {
    assert (init + [a])[..|init|] == init;
  }

  lemma {:induction false} DepthIsOpenScopes(actions: seq<Action>, enter: Action, leave: Action)
    requires enter != leave
    ensures Depth(actions, enter, leave) >= Count(actions, enter) - Count(actions, leave)
    ensures Bracketed(actions, enter, leave) <==>
      Depth(actions, enter, leave) == Count(actions, enter) - Count(actions, leave)
  {
    if actions != [] {
      var init, last := actions[..|actions| - 1], actions[|actions| - 1];
      DepthIsOpenScopes(init, enter, leave);
      assert actions == init + [last];
      DepthSnoc(init, last, enter, leave);
      CountSnoc(init, last, enter);
      CountSnoc(init, last, leave);
    }
  }

  /**
  Both counters of the signal equal the number of open scopes exactly when no
  prefix of the run has left more scopes than it entered.
  */
  lemma {:induction false} CountersAreOpenScopes(actions: seq<Action>)
    ensures Bracketed(actions, EnterLlm, ExitLlm) <==>
      Run(actions).signal.llmCalls == Count(actions, EnterLlm) - Count(actions, ExitLlm)
    ensures Bracketed(actions, EnterSection, ExitSection) <==>
      Run(actions).signal.sections == Count(actions, EnterSection) - Count(actions, ExitSection)
  {
    CountersAreDepths(actions);
    DepthIsOpenScopes(actions, EnterLlm, ExitLlm);
    DepthIsOpenScopes(actions, EnterSection, ExitSection);
  }

  lemma StepMovesCounters(s: State, a: Action)
    ensures Next(s, a).llmCalls ==
      if a == EnterLlm then s.llmCalls + 1 else if a == ExitLlm && s.llmCalls > 0 then s.llmCalls - 1 else s.llmCalls
    ensures Next(s, a).sections ==
      if a == EnterSection then s.sections + 1
      else if a == ExitSection && s.sections > 0 then s.sections - 1
      else s.sections
  {
  }

  lemma {:induction false} CountersAreDepths(actions: seq<Action>)
    ensures Run(actions).signal.llmCalls == Depth(actions, EnterLlm, ExitLlm)
    ensures Run(actions).signal.sections == Depth(actions, EnterSection, ExitSection)
  {
    if actions != [] {
      var init := actions[..|actions| - 1];
      CountersAreDepths(init);
      StepMovesCounters(Run(init).signal, actions[|actions| - 1]);
    }
  }

  // Messages

  /** The publications since the last `Clear` or `Take`. */
  function SinceReset(actions: seq<Action>): (pubs: seq<Action>)
    ensures forall a :: a in pubs ==> a.Publish?
  {
    if actions == [] then []
    else
      var a := actions[|actions| - 1];
      if a.Clear? || a.Take? then []
      else if a.Publish? then SinceReset(actions[..|actions| - 1]) + [a]
      else SinceReset(actions[..|actions| - 1])
  }

  /** All non-empty texts published, in order. */
  function Texts(actions: seq<Action>): seq<string> {
    if actions == [] then []
    else
      var a := actions[|actions| - 1];
      Texts(actions[..|actions| - 1]) + if a.Publish? && a.text != "" then [a.text] else []
  }

  function CallIds(actions: seq<Action>): seq<string> {
    if actions == [] then []
    else
      var a := actions[|actions| - 1];
      CallIds(actions[..|actions| - 1]) + if a.Publish? && a.callId != "" then [a.callId] else []
  }

  /** The one request a batch of publications amounts to. */
  function Summary(pubs: seq<Action>): Option<Request>
    requires forall a :: a in pubs ==> a.Publish?
  {
    if pubs == [] then None else Some(Request(pubs[0].reason, Texts(pubs), CallIds(pubs)))
  }

  lemma SummarySnoc(pubs: seq<Action>, last: Action)
    requires last.Publish? && forall a :: a in pubs ==> a.Publish?
    ensures Summary(pubs + [last]) ==
      Some(Extend(if pubs == [] then Request(last.reason, [], []) else Summary(pubs).value, last.text, last.callId))
  {
    var all := pubs + [last];
    assert all[..|all| - 1] == pubs && all[|all| - 1] == last;
    assert Texts(all) == Texts(pubs) + NonEmpty(last.text);
    assert CallIds(all) == CallIds(pubs) + NonEmpty(last.callId);
    if pubs != [] {
      assert all[0] == pubs[0];
    }
  }

  /**
  The pending request is the summary of everything published since the last
  reset: the first publisher's reason and all non-empty texts in order. The
  event is set exactly when there is one.
  */
  lemma {:induction false} PendingIsSummary(actions: seq<Action>)
    ensures Run(actions).signal.request == Summary(SinceReset(actions))
    ensures Run(actions).signal.event <==> Run(actions).signal.request.Some?
  {
    if actions != [] {
      var init := actions[..|actions| - 1];
      PendingIsSummary(init);
      var last := actions[|actions| - 1];
      assert Run(actions).signal == Next(Run(init).signal, last);
      if last.Publish? {
        SummarySnoc(SinceReset(init), last);
      } else if last.Clear? || last.Take? {
        assert SinceReset(actions) == [];
      } else {
        assert SinceReset(actions) == SinceReset(init);
      }
    }
  }

  function DroppedTexts(dropped: seq<Request>): seq<string> {
    if dropped == [] then []
    else DroppedTexts(dropped[..|dropped| - 1]) + dropped[|dropped| - 1].texts
  }

  function PendingTexts(r: Option<Request>): seq<string> {
    if r.None? then [] else r.value.texts
  }

  /** One critical section moves texts from the pending request to the dropped ones, or adds its own. */
  lemma StepConserves(w: World, a: Action)
    ensures var w' := Step(w, a);
            DroppedTexts(w'.dropped) + PendingTexts(w'.signal.request) ==
            DroppedTexts(w.dropped) + PendingTexts(w.signal.request) + if a.Publish? then NonEmpty(a.text) else []
  {
    var w' := Step(w, a);
    if w'.dropped != w.dropped {
      assert w'.dropped[..|w'.dropped| - 1] == w.dropped;
    }
  }

  /**
  No message is lost, repeated or reordered: the texts of the requests taken or
  cleared so far, then those of the pending one, are all non-empty texts ever
  published. Without `Clear` the dropped requests are exactly the taken ones.
  */
  lemma {:induction false} MessagesConserved(actions: seq<Action>)
    ensures var w := Run(actions);
            DroppedTexts(w.dropped) + PendingTexts(w.signal.request) == Texts(actions)
  {
    if actions != [] {
      var init, a := actions[..|actions| - 1], actions[|actions| - 1];
      MessagesConserved(init);
      StepConserves(Run(init), a);
    }
  }

  function Takings(actions: seq<Action>): seq<Option<Request>> {
    if actions == [] then []
    else
      var init, a := actions[..|actions| - 1], actions[|actions| - 1];
      Takings(init) + if a.Take? then [Run(init).signal.request] else []
  }

  function Present(rs: seq<Option<Request>>): seq<Request> {
    if rs == [] then []
    else
      Present(rs[..|rs| - 1]) + if rs[|rs| - 1].Some? then [rs[|rs| - 1].value] else []
  }

  /** In a run without `Clear`, what `take()` handed out is all that left the signal. */
  lemma {:induction false} TakenIsDropped(actions: seq<Action>)
    requires Clear !in actions
    ensures Run(actions).dropped == Present(Takings(actions))
  {
    if actions != [] {
      var init := actions[..|actions| - 1];
      TakenIsDropped(init);
      var t := Takings(actions);
      if actions[|actions| - 1].Take? {
        assert t[..|t| - 1] == Takings(init) && t[|t| - 1] == Run(init).signal.request;
      } else {
        assert t == Takings(init);
      }
    }
  }
}
