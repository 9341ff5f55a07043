/**
 The one-shot loopback listener of the OAuth authorization. `wait` can be armed once; requests, abort,
 timeout, server errors and `close` then compete for its promise, which settles after the server has
 closed.
 */
module LoopbackListener {
  import opened Wrappers

  datatype Failure = Cancelled | TimedOut | ListenUnavailable | AlreadyArmed | InvalidRequest

  datatype Outcome = Accepted(target: string) | Failed(failure: Failure)

  datatype Server = Listening | ClosingDown | Down

  /**
   `state` is the expected OAuth state, `waiting` says that the resolve and reject functions of the
   armed promise are at hand, `guarded` that its timer and abort listener are set. `pending` holds the
   settlements that wait for the server to close, `settled` those made.
   */
  datatype Listener = Listener(
    armed: bool,
    closed: bool,
    state: Option<string>,
    waiting: bool,
    guarded: bool,
    server: Server,
    pending: seq<Outcome>,
    settled: seq<Outcome>)

  function Fresh(): Listener
  {
    Listener(false, false, None, false, false, Listening, [], [])
  }

  /** `authorization` is the state in the authorization URL, if the URL is acceptable. */
  function Wait(l: Listener, authorization: Option<string>, aborted: bool): (Listener, Option<Failure>)
  {
    if aborted then (l, Some(Cancelled))
    else if l.armed || l.closed then (l, Some(AlreadyArmed))
    else if authorization.None? then (l, Some(InvalidRequest))
    else (l.(state := authorization, armed := true, waiting := true, guarded := true), None)
  }

  /** `listening` is what the server says of itself; one that does not listen needs no closing. */
  function CloseServer(l: Listener, listening: bool): Listener
  {
    if l.closed then l
    else
      l.(closed := true, state := None, waiting := false, guarded := false,
         server := if listening then ClosingDown else Down)
  }

  function Disarmed(l: Listener): Listener
  {
    l.(waiting := false, guarded := false)
  }

  function SettleError(l: Listener, failure: Failure, listening: bool): Listener
  {
    if !l.waiting then l
    else
      var t := CloseServer(Disarmed(l), listening);
      t.(pending := t.pending + [Failed(failure)])
  }

  function Close(l: Listener, listening: bool): Listener
  {
    if l.closed then l
    else if l.waiting then SettleError(l, Cancelled, listening)
    else CloseServer(l, listening)
  }

  function ServerFails(l: Listener, listening: bool): Listener
  {
    if l.waiting then SettleError(l, ListenUnavailable, listening) else CloseServer(l, listening)
  }

  /** `carries` is the state that an otherwise well-formed callback request carries; the answer is the HTTP status. */
  function HandleRequest(l: Listener, carries: Option<string>, target: string, listening: bool): (Listener, int)
  {
    if !l.armed || l.state.None? || carries != l.state || !l.waiting then (l, 404)
    else
      var t := CloseServer(Disarmed(l), listening);
      (t.(pending := t.pending + [Accepted(target)]), 200)
  }

  /** The server has closed, and what waited for that runs. */
  function ServerCloses(l: Listener): Listener
  {
    if l.server.Listening? then l else l.(server := Down, settled := l.settled + l.pending, pending := [])
  }

  datatype Event =
    | WaitCalled(authorization: Option<string>, aborted: bool)
    | CloseCalled(listening: bool)
    | Requested(carries: Option<string>, target: string, listening: bool)
    | Aborts(listening: bool)
    | TimesOut(listening: bool)
    | ServerError(listening: bool)
    | ServerClosed

  function Step(l: Listener, e: Event): Listener
  {
    match e
    case WaitCalled(authorization, aborted) => Wait(l, authorization, aborted).0
    case CloseCalled(listening) => Close(l, listening)
    case Requested(carries, target, listening) => HandleRequest(l, carries, target, listening).0
    case Aborts(listening) => if l.guarded then SettleError(l, Cancelled, listening) else l
    case TimesOut(listening) => if l.guarded then SettleError(l, TimedOut, listening) else l
    case ServerError(listening) => ServerFails(l, listening)
    case ServerClosed => ServerCloses(l)
  }

  function Run(l: Listener, events: seq<Event>): Listener
  {
    if events == [] then l else Step(Run(l, events[..|events| - 1]), events[|events| - 1])
  }

  /** The listener object; `server`, `pending` and `settled` stand for what its promises do. */
  class DefaultListener {
    var armed: bool
    var closed: bool
    var state: Option<string>
    var waiting: bool
    var guarded: bool
    var server: Server
    var pending: seq<Outcome>
    var settled: seq<Outcome>

    constructor ()
      ensures View() == Fresh()
    {
      armed, closed, state, waiting, guarded := false, false, None, false, false;
      server, pending, settled := Listening, [], [];
    }

    function View(): Listener
      reads this
    {
      Listener(armed, closed, state, waiting, guarded, server, pending, settled)
    }

    ghost predicate Valid()
      reads this
    {
      Inv(View())
    }

    /** What competes for the armed promise cannot change what was decided. */
    ghost predicate Keeps(before: Listener)
      reads this
    {
      forall o :: Decided(before, o) ==> Decided(View(), o)
    }

    /** Arms the listener at most once, and only before it closes; a refused call changes nothing. */
    method WaitForCallback(authorization: Option<string>, aborted: bool) returns (refused: Option<Failure>)
      requires Valid()
      modifies this
      ensures Valid() && (View(), refused) == Wait(old(View()), authorization, aborted)
      ensures refused.None? <==> !aborted && authorization.Some? && !old(armed) && !old(closed)
      ensures if refused.None? then waiting && state == authorization && pending + settled == []
              else View() == old(View())
    {
      if aborted {
        return Some(Cancelled);
      }
      if armed || closed {
        return Some(AlreadyArmed);
      }
      if authorization.None? {
        return Some(InvalidRequest);
      }
      state := authorization;
      armed, waiting, guarded := true, true, true;
      return None;
    }

    method Shut(listening: bool)
      modifies this
      ensures View() == CloseServer(old(View()), listening)
    {
      if closed {
        return;
      }
      closed := true;
      state := None;
      waiting, guarded := false, false;
      server := if listening then ClosingDown else Down;
    }

    /** An abort, timeout or server error decides for a waiting promise, and changes nothing once it is decided. */
    method Reject(failure: Failure, listening: bool)
      requires Valid()
      modifies this
      ensures Valid() && View() == SettleError(old(View()), failure, listening)
      ensures old(waiting) ==> closed && Decided(View(), Failed(failure))
      ensures !old(waiting) ==> View() == old(View())
      ensures Keeps(old(View()))
    {
      if !waiting {
        return;
      }
      waiting, guarded := false, false;
      Shut(listening);
      pending := pending + [Failed(failure)];
    }

    /** Afterwards the server is closing or down, and an armed promise is decided: by the cancellation if it was still waiting. */
    method CloseListener(listening: bool)
      requires Valid()
      modifies this
      ensures Valid() && View() == Close(old(View()), listening)
      ensures closed && (armed ==> exists o :: Decided(View(), o))
      ensures old(waiting) ==> Decided(View(), Failed(Cancelled))
      ensures Keeps(old(View()))
    {
      if closed {
        if armed {
          SomethingDecided(View());
        }
        return;
      }
      if waiting {
        Reject(Cancelled, listening);
        return;
      }
      Shut(listening);
    }

    /** 200 exactly for the expected state while the promise waits, and then this callback decides. */
    method OnRequest(carries: Option<string>, target: string, listening: bool) returns (status: int)
      requires Valid()
      modifies this
      ensures Valid() && (View(), status) == HandleRequest(old(View()), carries, target, listening)
      ensures status == 200 <==> old(waiting) && carries == old(state)
      ensures status == 200 ==> closed && Decided(View(), Accepted(target))
      ensures status != 200 ==> status == 404 && View() == old(View())
      ensures Keeps(old(View()))
    {
      if !armed || state.None? || carries != state || !waiting {
        return 404;
      }
      waiting, guarded := false, false;
      Shut(listening);
      pending := pending + [Accepted(target)];
      return 200;
    }
  }

  /** A closed listener that was armed is decided. */
  lemma SomethingDecided(l: Listener)
    requires Inv(l) && l.closed && l.armed
    ensures exists o :: Decided(l, o)
  {
    assert |l.pending + l.settled| == 1;
    assert Decided(l, (l.pending + l.settled)[0]);
  }

  /** An armed promise is in exactly one place: still waiting, about to settle, or settled. */
  ghost predicate Inv(l: Listener)
  {
    && (if l.waiting then 1 else 0) + |l.pending| + |l.settled| == (if l.armed then 1 else 0)
    && (l.waiting <==> l.guarded)
    && (l.waiting ==> !l.closed)
    && (l.waiting <==> l.state.Some?)
    && (l.closed <==> !l.server.Listening?)
    && (l.pending != [] || l.settled != [] ==> l.closed)
    && (l.settled != [] ==> l.server.Down?)
  }

  lemma StepKeeps(l: Listener, e: Event)
    requires Inv(l)
    ensures Inv(Step(l, e))
  {
  }

  lemma {:induction false} RunKeeps(l: Listener, events: seq<Event>)
    requires Inv(l)
    ensures Inv(Run(l, events))
  {
    if events != [] {
      RunKeeps(l, events[..|events| - 1]);
      StepKeeps(Run(l, events[..|events| - 1]), events[|events| - 1]);
    }
  }

  /**
   In every interleaving the promise of `wait` settles at most once and only after the server has
   closed, and is never lost: once armed it is waiting, on its way, or settled.
   */
  lemma SettledOnce(events: seq<Event>)
    ensures var l := Run(Fresh(), events);
            && |l.settled| <= 1
            && (l.settled != [] ==> l.server.Down? && !l.waiting && l.pending == [])
            && (l.armed ==> l.waiting || l.pending != [] || l.settled != [])
            && (l.closed && l.armed ==> |l.pending + l.settled| == 1)
            && (!l.armed ==> l.settled == [])
  {
    RunKeeps(Fresh(), events);
  }

  /** When the server has closed, an armed promise has settled. */
  lemma ClosingSettles(events: seq<Event>)
    requires Run(Fresh(), events).closed
    ensures var l := ServerCloses(Run(Fresh(), events));
            l.pending == [] && |l.settled| == (if l.armed then 1 else 0)
  {
    RunKeeps(Fresh(), events);
  }

  ghost predicate Decided(l: Listener, outcome: Outcome)
  {
    l.pending + l.settled == [outcome]
  }

  lemma DecidedStays(l: Listener, e: Event, outcome: Outcome)
    requires Inv(l) && Decided(l, outcome)
    ensures Decided(Step(l, e), outcome)
  {
    assert !l.waiting && l.closed && l.state.None?;
    assert |l.pending + l.settled| == 1;
    if l.pending == [] {
      assert [] + l.settled == l.settled;
      assert l.settled + [] == l.settled;
    } else {
      assert l.settled == [] && [] + l.pending == l.pending;
      assert l.pending + [] == l.pending;
    }
  }

  /** Whatever comes first decides: a callback that was accepted is not overridden by anything that follows, nor an error by a late callback. */
  lemma {:induction false} FirstDecides(events: seq<Event>, later: seq<Event>, outcome: Outcome)
    requires Decided(Run(Fresh(), events), outcome)
    ensures Decided(Run(Run(Fresh(), events), later), outcome)
  {
    RunKeeps(Fresh(), events);
    if later != [] {
      FirstDecides(events, later[..|later| - 1], outcome);
      RunKeeps(Run(Fresh(), events), later[..|later| - 1]);
      DecidedStays(Run(Run(Fresh(), events), later[..|later| - 1]), later[|later| - 1], outcome);
    }
  }

  /** A request is answered with 200 exactly when it carries the expected state while the promise waits, and then it decides. */
  lemma AcceptedIffExpected(events: seq<Event>, carries: Option<string>, target: string, listening: bool)
    ensures var l := Run(Fresh(), events);
            var (after, status) := HandleRequest(l, carries, target, listening);
            && (status == 200 <==> l.waiting && carries == l.state)
            && (status == 200 ==> Decided(after, Accepted(target)))
            && (status != 200 ==> after == l)
  {
    RunKeeps(Fresh(), events);
  }

  /** While the promise waits, whatever comes decides it as what it is. */
  lemma DecidesAsWhatItIs(events: seq<Event>, listening: bool, target: string)
    requires Run(Fresh(), events).waiting
    ensures var l := Run(Fresh(), events);
            && Decided(Step(l, Aborts(listening)), Failed(Cancelled))
            && Decided(Step(l, TimesOut(listening)), Failed(TimedOut))
            && Decided(Step(l, ServerError(listening)), Failed(ListenUnavailable))
            && Decided(Step(l, CloseCalled(listening)), Failed(Cancelled))
            && Decided(Step(l, Requested(l.state, target, listening)), Accepted(target))
  {
    RunKeeps(Fresh(), events);
  }

  /** Waiting begins with a call that is not aborted, the first one, before any close, with a URL that carries a state. */
  lemma WaitIsAnswered(events: seq<Event>, authorization: Option<string>, aborted: bool)
    ensures var l := Run(Fresh(), events);
            var (after, refused) := Wait(l, authorization, aborted);
            && (refused == Some(Cancelled) <==> aborted)
            && (refused == Some(AlreadyArmed) <==> !aborted && (l.armed || l.closed))
            && (refused == Some(InvalidRequest) <==> !aborted && !l.armed && !l.closed && authorization.None?)
            && (refused.None? ==> after.waiting && after.state == authorization && after.settled + after.pending == [])
            && (refused.Some? ==> after == l)
  {
    RunKeeps(Fresh(), events);
  }
}
