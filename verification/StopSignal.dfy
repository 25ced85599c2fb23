/**
The cooperative stop signal of `src/tianluo/stop_signal.py`.

`Next` is the meaning of each critical section of the signal's lock, and
`Authorises` says which critical sections give their caller the right to raise
KeyboardInterrupt. The class below is the stateful object; every method is
proved to be one `Next` step.
*/
module StopSignals {
  import opened Options

  /** The contents of one published request. */
  datatype Request = Request(reason: string, texts: seq<string>, callIds: seq<string>)

  datatype State = State(
    request: Option<Request>,
    event: bool,
    llmCalls: nat,
    sections: nat,
    delivered: bool,
    handoff: bool)

  const INITIAL := State(None, false, 0, 0, false, false)

  /** One acquisition of the signal's lock, by any thread. */
  datatype Action =
    | Publish(reason: string, text: string, callId: string)
    | Clear
    | Take
    | EnterLlm
    | ExitLlm
    | EnterSection
    | ExitSection
    | Claim
    | ClaimEscalation
    | ConsumeHandoff
    | LeaveSection(onMain: bool)

  function NonEmpty(text: string): seq<string> {
    if text == "" then [] else [text]
  }

  /** A request with one more publication folded into it. */
  function Extend(r: Request, text: string, callId: string): Request {
    r.(texts := r.texts + NonEmpty(text), callIds := r.callIds + NonEmpty(callId))
  }

  /** The checks a leaving scope makes before it tries to raise. */
  predicate MayRaiseDeferred(s: State, onMain: bool) {
    onMain && s.event && s.llmCalls == 0 && s.sections == 0
  }

  function Next(s: State, a: Action): State {
    match a
    case Publish(reason, text, callId) =>
      var base := if s.request.None? then Request(reason, [], []) else s.request.value;
      var fresh' := s.request.None?;
      s.(request := Some(Extend(base, text, callId)),
         event := true,
         delivered := s.delivered && !fresh',
         handoff := s.handoff && !fresh')
    case Clear => s.(request := None, event := false, delivered := false, handoff := false)
    case Take => s.(request := None, event := false, delivered := false, handoff := false)
    case EnterLlm => s.(llmCalls := s.llmCalls + 1)
    case ExitLlm => s.(llmCalls := if s.llmCalls == 0 then 0 else s.llmCalls - 1)
    case EnterSection => s.(sections := s.sections + 1)
    case ExitSection => s.(sections := if s.sections == 0 then 0 else s.sections - 1)
    case Claim => s.(delivered := true)
    case ClaimEscalation => s.(delivered := true, handoff := s.handoff || !s.delivered)
    case ConsumeHandoff => s.(handoff := false)
    case LeaveSection(onMain) =>
      if !MayRaiseDeferred(s, onMain) then s
      else if !s.delivered then s.(delivered := true)
      else s.(handoff := false)
  }

  /** An undisturbed SIGINT handler: it publishes, and with nothing in flight claims or spends the handoff. */
  function Handled(s: State): State {
    var published := Next(s, Action.Publish("interrupt", "", ""));
    if published.llmCalls > 0 || published.sections > 0 then published
    else if !published.delivered then published.(delivered := true)
    else published.(handoff := false)
  }

  /** The critical section tries to become the delivery of the request. */
  predicate AttemptsClaim(s: State, a: Action) {
    match a
    case Claim => true
    case ClaimEscalation => true
    case LeaveSection(onMain) => MayRaiseDeferred(s, onMain)
    case _ => false
  }

  /** The critical section becomes the delivery of the request. */
  predicate WinsClaim(s: State, a: Action) {
    AttemptsClaim(s, a) && !s.delivered
  }

  /** The caller of the critical section goes on to raise. */
  predicate Authorises(s: State, a: Action) {
    match a
    case Claim => !s.delivered
    case ConsumeHandoff => s.handoff
    case LeaveSection(onMain) => MayRaiseDeferred(s, onMain) && (!s.delivered || s.handoff)
    case _ => false
  }

  /** The critical section ends the life of the request before it. */
  predicate StartsEpoch(s: State, a: Action) {
    a.Clear? || a.Take? || (a.Publish? && s.request.None?)
  }

  /** One published request, extended in place while it is pending. */
  class StopRequest {
    const reason: string
    var texts: seq<string>
    var callIds: seq<string>

    function View(): Request
      reads this
    {
      Request(reason, texts, callIds)
    }

    constructor (reason: string)
      ensures View() == Request(reason, [], [])
    {
      this.reason := reason;
      texts, callIds := [], [];
    }
  }

  class StopSignal {
    var request: StopRequest?
    var event: bool
    var llmCalls: nat
    var sections: nat
    var delivered: bool
    var handoff: bool

    function View(): State
      reads this, request
    {
      State(if request == null then None else Some(request.View()),
            event, llmCalls, sections, delivered, handoff)
    }

    constructor ()
      ensures View() == INITIAL
    {
      request, event, llmCalls, sections, delivered, handoff := null, false, 0, 0, false, false;
    }

    method EnterLlmCall()
      modifies this`llmCalls
      ensures View() == Next(old(View()), EnterLlm)
    {
      llmCalls := llmCalls + 1;
    }

    method ExitLlmCall()
      modifies this`llmCalls
      ensures View() == Next(old(View()), ExitLlm)
    {
      llmCalls := if llmCalls > 0 then llmCalls - 1 else 0;
    }

    method EnterUninterruptible()
      modifies this`sections
      ensures View() == Next(old(View()), EnterSection)
    {
      sections := sections + 1;
    }

    method ExitUninterruptible()
      modifies this`sections
      ensures View() == Next(old(View()), ExitSection)
    {
      sections := if sections > 0 then sections - 1 else 0;
    }

    /** Publishes a request or extends the pending one in place. */
    method Publish(reason: string, text: string, callId: string) returns (current: StopRequest)
      modifies this, request
      ensures View() == Next(old(View()), Action.Publish(reason, text, callId))
      ensures current == request
      ensures if old(request) == null then fresh(current) else current == old(request)
    {
      if request == null {
        request := new StopRequest(reason);
        delivered, handoff := false, false;
      }
      if text != "" {
        request.texts := request.texts + [text];
      }
      if callId != "" {
        request.callIds := request.callIds + [callId];
      }
      event := true;
      current := request;
      ghost var before := old(View()).request;
      ghost var base := if before.None? then Request(reason, [], []) else before.value;
      assert current.texts == base.texts + NonEmpty(text);
      assert current.callIds == base.callIds + NonEmpty(callId);
    }

    method Clear()
      modifies this
      ensures View() == Next(old(View()), Action.Clear)
    {
      request, delivered, handoff, event := null, false, false, false;
    }

    /** Hands the pending request over, unchanged, and resets the signal. */
    method Take() returns (taken: StopRequest?)
      modifies this
      ensures View() == Next(old(View()), Action.Take)
      ensures taken == old(request)
      ensures taken != null ==> unchanged(taken) && old(View()).request == Some(taken.View())
    {
      taken := request;
      request, delivered, handoff, event := null, false, false, false;
    }

    method ClaimInterruptDelivery() returns (won: bool)
      modifies this`delivered
      ensures View() == Next(old(View()), Claim)
      ensures won == Authorises(old(View()), Claim)
    {
      if delivered {
        return false;
      }
      delivered := true;
      won := true;
    }

    method ClaimEscalationDelivery() returns (won: bool)
      modifies this`delivered, this`handoff
      ensures View() == Next(old(View()), ClaimEscalation)
      ensures won == WinsClaim(old(View()), ClaimEscalation)
    {
      if delivered {
        return false;
      }
      delivered, handoff := true, true;
      won := true;
    }

    method ConsumeEscalationHandoff() returns (mine: bool)
      modifies this`handoff
      ensures View() == Next(old(View()), ConsumeHandoff)
      ensures mine == Authorises(old(View()), ConsumeHandoff)
    {
      if !handoff {
        return false;
      }
      handoff := false;
      mine := true;
    }

    /**
    A scope exit; `raised` stands for the KeyboardInterrupt it throws. It stays quiet
    while any call or section is open, and leaves the signal as it is.
    */
    method MaybeRaiseDeferredInterrupt(onMain: bool) returns (raised: bool)
      modifies this`delivered, this`handoff
      ensures View() == Next(old(View()), LeaveSection(onMain))
      ensures raised == Authorises(old(View()), LeaveSection(onMain))
      ensures old(event <==> request != null) && old(handoff ==> delivered) ==>
        && (raised <==>
              onMain && old(request) != null && old(llmCalls) == 0 && old(sections) == 0 &&
              (!old(delivered) || old(handoff)))
        && (raised ==> delivered && !handoff)
        && (!raised ==> View() == old(View()))
    {
      if !onMain {
        return false;
      }
      raised := false;
      if event && llmCalls == 0 && sections == 0 {
        raised := ClaimInterruptDelivery();
        if !raised {
          raised := ConsumeEscalationHandoff();
        }
      }
    }

    /**
    Ctrl-C or a tripped SIGINT, run to its end with no other thread in between.
    It raises exactly when nothing is in flight and the request it published or
    joined was not delivered yet, or was delivered on the handler's behalf.
    */
    method HandleSigint() returns (raised: bool)
      modifies this, request
      ensures View() == Handled(old(View()))
      ensures View().event
      ensures View().request == Some(if old(request) == null then Request("interrupt", [], []) else old(request.View()))
      ensures View().llmCalls == old(llmCalls) && View().sections == old(sections)
      ensures raised <==>
        old(llmCalls) == 0 && old(sections) == 0 &&
        (old(request) == null || !old(delivered) || old(handoff))
      ensures old(llmCalls) == 0 && old(sections) == 0 && old(handoff ==> delivered) ==>
        delivered && !handoff
      ensures old(llmCalls) > 0 || old(sections) > 0 ==>
        View() == Next(old(View()), Action.Publish("interrupt", "", ""))
    {
      ghost var pending := if request == null then Request("interrupt", [], []) else request.View();
      assert Extend(pending, "", "") == pending;
      var _ := Publish("interrupt", "", "");
      if llmCalls > 0 || sections > 0 {
        return false;
      }
      raised := ClaimInterruptDelivery();
      if !raised {
        raised := ConsumeEscalationHandoff();
      }
    }
  }
}
