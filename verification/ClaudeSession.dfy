/** One long-running provider session: a turn at a time, each with its own event
    channel, and six sources that race to end it. */
module ClaudeSessions {
  import opened Options

  datatype Cause =
    | TurnFailed
    | ResumeMismatch
    | TimedOut
    | Canceled
    | WriteFailed
    | SessionClosed
    | ProcessExited

  datatype Event = Ordinary(payload: string) | TurnDone(err: Option<Cause>)

  datatype Chan = Chan(sent: seq<Event>, closed: bool)

  datatype State = Ready | InFlight | Evicted | Closed

  /** The fields under the session's mutex, and every event channel made so far;
      a channel is named by its position. */
  datatype Session = Session(
    state: State,
    eventsCh: Option<nat>,
    chans: seq<Chan>,
    sessionID: string,
    resumeID: string,
    mismatch: bool)
  {
    predicate Healthy() {
      !state.Evicted? && !state.Closed?
    }

    /** Stream's critical section: refused unless the session is ready. */
    function Stream(): Session {
      if !state.Ready? then this
      else this.(state := InFlight, eventsCh := Some(|chans|), chans := chans + [Chan([], false)])
    }

    function Sent(ch: nat, ev: Event, close: bool): Session
      requires ch < |chans|
    {
      this.(chans := chans[ch := Chan(chans[ch].sent + [ev], chans[ch].closed || close)])
    }

    predicate Owned(ch: nat) {
      eventsCh == Some(ch) && ch < |chans|
    }

    function Emit(ch: nat, payload: string): Session {
      if !Owned(ch) then this else Sent(ch, Ordinary(payload), false)
    }

    function Result(ch: nat, isError: bool): Session {
      if !Owned(ch) then this
      else
        var err := if isError then Some(TurnFailed) else if mismatch then Some(ResumeMismatch) else None;
        Sent(ch, TurnDone(err), true).(eventsCh := None, state := if state.InFlight? then Ready else state)
    }

    /** The timeout and the cancellation of the turn that was given ch. */
    function Abort(ch: nat, cause: Cause): Session {
      if !Owned(ch) then this
      else Sent(ch, TurnDone(Some(cause)), true).(eventsCh := None, state := if state.InFlight? then Evicted else state)
    }

    /** Ends whatever turn is current, with no regard to who asks. */
    function EndCurrent(cause: Cause): Session {
      if eventsCh.None? || !Owned(eventsCh.value) then this.(eventsCh := None)
      else Sent(eventsCh.value, TurnDone(Some(cause)), true).(eventsCh := None)
    }

    /** The stdin write of some turn failed. */
    function FailTurn(): Session {
      EndCurrent(WriteFailed).(state := if state.InFlight? then Evicted else state)
    }

    function Close(): Session {
      if state.Closed? then this else EndCurrent(SessionClosed).(state := Closed)
    }

    function Eof(): Session {
      if state.Closed? then this else EndCurrent(ProcessExited).(state := Evicted)
    }

    function Init(id: string): Session {
      if sessionID != "" then this
      else this.(sessionID := id, mismatch := mismatch || (resumeID != "" && resumeID != id))
    }
  }

  function NewSession(resumeID: string): Session {
    Session(Ready, None, [], "", resumeID, false)
  }

  predicate NoDone(events: seq<Event>) {
    forall i :: 0 <= i < |events| ==> !events[i].TurnDone?
  }

  /** An open channel carries no terminal event; a closed one carries exactly
      one, and carries it last. */
  predicate GoodChan(c: Chan) {
    if c.closed
    then c.sent != [] && c.sent[|c.sent| - 1].TurnDone? && NoDone(c.sent[..|c.sent| - 1])
    else NoDone(c.sent)
  }

  /** The open channel is the current turn's and there is one exactly while a
      turn is in flight. */
  predicate Inv(s: Session) {
    && (s.eventsCh.Some? <==> s.state.InFlight?)
    && (s.eventsCh.Some? ==> s.eventsCh.value < |s.chans|)
    && forall c :: 0 <= c < |s.chans| ==> GoodChan(s.chans[c]) && (!s.chans[c].closed <==> s.eventsCh == Some(c))
  }

  // ----- The session as the source keeps it -----

  class ClaudeSession {
    const resumeID: string
    var state: State
    var eventsCh: Option<nat>
    var chans: seq<Chan>
    var sessionID: string
    var mismatch: bool

    ghost function View(): Session
      reads this
    {
      Session(state, eventsCh, chans, sessionID, resumeID, mismatch)
    }

    constructor (resumeID: string)
      ensures View() == NewSession(resumeID)
    {
      this.resumeID := resumeID;
      state, eventsCh, chans, sessionID, mismatch := Ready, None, [], "", false;
    }

    /** A send, which Go allows on an open channel only. */
    method Send(ch: nat, ev: Event, close: bool)
      requires ch < |chans| && !chans[ch].closed
      modifies this`chans
      ensures View() == old(View()).Sent(ch, ev, close)
    {
      chans := chans[ch := Chan(chans[ch].sent + [ev], close)];
    }

    method Stream() returns (ok: bool, ch: nat)
      requires Inv(View())
      modifies this
      ensures View() == old(View()).Stream()
      ensures ok == old(state).Ready? && (ok ==> ch == |old(chans)|)
    {
      ch := |chans|;
      if !state.Ready? { return false, ch; }
      chans := chans + [Chan([], false)];
      eventsCh := Some(ch);
      state := InFlight;
      return true, ch;
    }

    method EmitEvent(ch: nat, payload: string) returns (sent: bool)
      requires Inv(View())
      modifies this
      ensures View() == old(View()).Emit(ch, payload) && sent == old(View()).Owned(ch)
    {
      if eventsCh != Some(ch) { return false; }
      Send(ch, Ordinary(payload), false);
      return true;
    }

    method EmitResult(ch: nat, isError: bool)
      requires Inv(View())
      modifies this
      ensures View() == old(View()).Result(ch, isError)
    {
      var err := if isError then Some(TurnFailed) else None;
      if err.None? && mismatch {
        err := Some(ResumeMismatch);
      }
      if eventsCh != Some(ch) { return; }
      eventsCh := None;
      Send(ch, TurnDone(err), true);
      if state.InFlight? {
        state := Ready;
      }
    }

    method AbortTurn(ch: nat, cause: Cause)
      requires Inv(View())
      modifies this
      ensures View() == old(View()).Abort(ch, cause)
    {
      if eventsCh != Some(ch) { return; }
      eventsCh := None;
      if state.InFlight? {
        state := Evicted;
      }
      Send(ch, TurnDone(Some(cause)), true);
    }

    method FailTurn()
      requires Inv(View())
      modifies this
      ensures View() == old(View()).FailTurn()
    {
      var ch := eventsCh;
      eventsCh := None;
      if state.InFlight? {
        state := Evicted;
      }
      if ch.Some? {
        Send(ch.value, TurnDone(Some(WriteFailed)), true);
      }
    }

    method Close()
      requires Inv(View())
      modifies this
      ensures View() == old(View()).Close()
    {
      if state.Closed? { return; }
      var ch := eventsCh;
      eventsCh := None;
      state := Closed;
      if ch.Some? {
        Send(ch.value, TurnDone(Some(SessionClosed)), true);
      }
    }

    method HandleEOF()
      requires Inv(View())
      modifies this
      ensures View() == old(View()).Eof()
    {
      if state.Closed? { return; }
      var ch := eventsCh;
      eventsCh := None;
      if ch.Some? {
        Send(ch.value, TurnDone(Some(ProcessExited)), true);
      }
      state := Evicted;
    }

    method HandleInit(id: string)
      modifies this
      ensures View() == old(View()).Init(id)
    {
      if sessionID != "" { return; }
      sessionID := id;
      if resumeID != "" && resumeID != id {
        mismatch := true;
      }
    }
  }

  // ----- Every interleaving of the sources -----

  /** Callbacks name the channel they were created for, which may be long closed;
      a write failure only knows which turn it belongs to. */
  datatype Step =
    | Stream
    | Emit(ch: nat, payload: string)
    | Result(ch: nat, isError: bool)
    | Timeout(ch: nat)
    | Cancel(ch: nat)
    | WriteFails(ch: nat)
    | Close
    | Eof
    | Init(id: string)

  function Apply(s: Session, step: Step): Session {
    match step
    case Stream => s.Stream()
    case Emit(ch, payload) => s.Emit(ch, payload)
    case Result(ch, isError) => s.Result(ch, isError)
    case Timeout(ch) => s.Abort(ch, TimedOut)
    case Cancel(ch) => s.Abort(ch, Canceled)
    case WriteFails(_) => s.FailTurn()
    case Close => s.Close()
    case Eof => s.Eof()
    case Init(id) => s.Init(id)
  }

  function Run(s: Session, steps: seq<Step>): Session {
    if steps == [] then s else Apply(Run(s, steps[..|steps| - 1]), steps[|steps| - 1])
  }

  lemma SentKeepsChans(s: Session, ch: nat, ev: Event, close: bool)
    requires Inv(s) && s.Owned(ch) && close == ev.TurnDone?
    ensures var s' := s.Sent(ch, ev, close);
            |s'.chans| == |s.chans| && GoodChan(s'.chans[ch]) && s'.chans[ch].closed == close
  {
    var sent := s.chans[ch].sent;
    assert (sent + [ev])[..|sent|] == sent;
  }

  lemma StepKeepsInv(s: Session, step: Step)
    requires Inv(s)
    ensures Inv(Apply(s, step))
  {
    hide GoodChan;
    if s.eventsCh.Some? {
      var ch := s.eventsCh.value;
      match step
      case Emit(_, payload) => SentKeepsChans(s, ch, Ordinary(payload), false);
      case Result(_, isError) =>
        var err := if isError then Some(TurnFailed) else if s.mismatch then Some(ResumeMismatch) else None;
        SentKeepsChans(s, ch, TurnDone(err), true);
      case Timeout(_) => SentKeepsChans(s, ch, TurnDone(Some(TimedOut)), true);
      case Cancel(_) => SentKeepsChans(s, ch, TurnDone(Some(Canceled)), true);
      case WriteFails(_) => SentKeepsChans(s, ch, TurnDone(Some(WriteFailed)), true);
      case Close => SentKeepsChans(s, ch, TurnDone(Some(SessionClosed)), true);
      case Eof => SentKeepsChans(s, ch, TurnDone(Some(ProcessExited)), true);
      case _ =>
    } else if step.Stream? {
      assert GoodChan(Chan([], false)) by { GoodEmptyChan(); }
    }
  }

  lemma GoodEmptyChan()
    ensures GoodChan(Chan([], false))
  {
  }

  lemma {:induction false} EveryRunKeepsInv(resumeID: string, steps: seq<Step>)
    ensures Inv(Run(NewSession(resumeID), steps))
  {
    if steps != [] {
      hide Inv, Apply;
      EveryRunKeepsInv(resumeID, steps[..|steps| - 1]);
      StepKeepsInv(Run(NewSession(resumeID), steps[..|steps| - 1]), steps[|steps| - 1]);
    } else {
      assert Inv(NewSession(resumeID));
    }
  }

  function Dones(events: seq<Event>): nat {
    if events == [] then 0
    else Dones(events[..|events| - 1]) + if events[|events| - 1].TurnDone? then 1 else 0
  }

  lemma {:induction false} NoDoneCounts(events: seq<Event>)
    requires NoDone(events)
    ensures Dones(events) == 0
  {
    if events != [] { NoDoneCounts(events[..|events| - 1]); }
  }

  /** Whatever races, a turn's channel gets one terminal signal if it is closed
      and none while it is open, and it is open exactly while its turn is the one
      in flight. */
  lemma OneTerminalSignalPerTurn(resumeID: string, steps: seq<Step>, c: nat)
    requires c < |Run(NewSession(resumeID), steps).chans|
    ensures var s := Run(NewSession(resumeID), steps); var ch := s.chans[c];
            && Dones(ch.sent) == (if ch.closed then 1 else 0)
            && (ch.closed ==> ch.sent != [] && ch.sent[|ch.sent| - 1].TurnDone?)
            && (!ch.closed <==> s.state.InFlight? && s.eventsCh == Some(c))
  {
    EveryRunKeepsInv(resumeID, steps);
    var ch := Run(NewSession(resumeID), steps).chans[c];
    if ch.closed {
      NoDoneCounts(ch.sent[..|ch.sent| - 1]);
    } else {
      NoDoneCounts(ch.sent);
    }
  }

  /** A step only ever adds to the open channel; closed channels stay as they are. */
  predicate Extends(s: Session, s': Session) {
    && |s.chans| <= |s'.chans|
    && (forall c :: 0 <= c < |s.chans| ==> s.chans[c].sent <= s'.chans[c].sent)
    && (forall c :: 0 <= c < |s.chans| && s.chans[c].closed ==> s'.chans[c] == s.chans[c])
  }

  lemma StepExtends(s: Session, step: Step)
    requires Inv(s)
    ensures Extends(s, Apply(s, step))
  {
    hide GoodChan;
  }

  /** Nothing is sent on a channel after its close: what a closed channel holds is
      final in every continuation. */
  lemma {:induction false} ClosedChannelsAreFinal(s: Session, steps: seq<Step>)
    requires Inv(s)
    ensures Inv(Run(s, steps)) && Extends(s, Run(s, steps))
  {
    if steps != [] {
      hide Inv, Apply;
      var prefix, last := steps[..|steps| - 1], steps[|steps| - 1];
      ClosedChannelsAreFinal(s, prefix);
      StepKeepsInv(Run(s, prefix), last);
      StepExtends(Run(s, prefix), last);
    }
  }

  /** A timeout or cancellation that comes after its turn ended changes nothing,
      so it cannot reach a later turn. */
  lemma StaleAbortIsHarmless(s: Session, ch: nat, cause: Cause)
    requires Inv(s) && ch < |s.chans|
    ensures s.chans[ch].closed <==> s.Abort(ch, cause) == s
  {
    if !s.chans[ch].closed {
      assert |s.Abort(ch, cause).chans[ch].sent| == |s.chans[ch].sent| + 1;
    }
  }

  /** After the end of the process or a Close no channel is open, in every
      continuation, and the session never takes another turn. */
  lemma {:induction false} UnhealthyIsPermanent(s: Session, steps: seq<Step>)
    requires Inv(s) && !s.Healthy()
    ensures var s' := Run(s, steps);
            Inv(s') && !s'.Healthy() && s'.chans == s.chans && (forall c :: 0 <= c < |s'.chans| ==> s'.chans[c].closed)
  {
    hide GoodChan;
    if steps != [] {
      var prefix, last := steps[..|steps| - 1], steps[|steps| - 1];
      UnhealthyIsPermanent(s, prefix);
      StepKeepsInv(Run(s, prefix), last);
    }
  }

  lemma CloseAndEofEndEverything(s: Session)
    requires Inv(s)
    ensures !s.Close().Healthy() && !s.Eof().Healthy()
    ensures forall c :: 0 <= c < |s.chans| ==> s.Close().chans[c].closed && s.Eof().chans[c].closed
  {
    StepKeepsInv(s, Close);
    StepKeepsInv(s, Eof);
  }

  predicate EndedBadly(c: Chan) {
    c.sent != [] && c.sent[|c.sent| - 1] != TurnDone(None)
  }

  lemma MismatchEndsBadly(s: Session, step: Step, c: nat)
    requires Inv(s) && s.mismatch && (c < |s.chans| ==> !s.chans[c].closed)
    requires c < |Apply(s, step).chans| && Apply(s, step).chans[c].closed
    ensures EndedBadly(Apply(s, step).chans[c])
  {
    hide GoodChan;
  }

  /** A session that resumed under the wrong id never reports a clean turn: every
      channel that was open or is opened later ends with an error. */
  lemma {:induction false} MismatchNeverSucceeds(s: Session, steps: seq<Step>, c: nat)
    requires Inv(s) && s.mismatch
    requires c < |s.chans| ==> !s.chans[c].closed
    requires c < |Run(s, steps).chans| && Run(s, steps).chans[c].closed
    ensures EndedBadly(Run(s, steps).chans[c])
    decreases |steps|
  {
    hide Inv, Apply, EndedBadly;
    var prefix, last := steps[..|steps| - 1], steps[|steps| - 1];
    ClosedChannelsAreFinal(s, prefix);
    MismatchStays(s, prefix);
    var t := Run(s, prefix);
    if c < |t.chans| && t.chans[c].closed {
      StepExtends(t, last);
      MismatchNeverSucceeds(s, prefix, c);
    } else {
      MismatchEndsBadly(t, last, c);
    }
  }

  lemma {:induction false} MismatchStays(s: Session, steps: seq<Step>)
    requires s.mismatch
    ensures Run(s, steps).mismatch
  {
    if steps != [] { MismatchStays(s, steps[..|steps| - 1]); }
  }

  /** The id the pool persists is settled by the first init that carries one. */
  lemma {:induction false} SessionIDIsFinal(s: Session, steps: seq<Step>)
    requires s.sessionID != ""
    ensures Run(s, steps).sessionID == s.sessionID
  {
    if steps != [] { SessionIDIsFinal(s, steps[..|steps| - 1]); }
  }

  /** A failed write is not tied to its channel. It leaves the other turns alone
      exactly when no other turn is current at that moment. */
  lemma WriteFailureHitsOnlyItsTurn(s: Session, mine: nat)
    requires Inv(s)
    ensures (forall c :: 0 <= c < |s.chans| && c != mine ==> s.FailTurn().chans[c] == s.chans[c])
            <==> (s.eventsCh.None? || s.eventsCh == Some(mine))
  {
    if s.eventsCh.Some? {
      var c := s.eventsCh.value;
      assert |s.FailTurn().chans[c].sent| == |s.chans[c].sent| + 1;
    }
  }

  /** A run in which it does hit another turn: a stray result ends the first turn
      before its write returns, a second turn starts, and the first turn's write
      failure then ends the second. */
  lemma WriteFailureCanEndALaterTurn()
    ensures var s := Run(NewSession(""), [Stream, Result(0, false), Stream, WriteFails(0)]);
            |s.chans| == 2 && s.chans[0].sent == [TurnDone(None)] && s.chans[1].sent == [TurnDone(Some(WriteFailed))]
  {
    var s0 := NewSession("");
    var steps := [Stream, Result(0, false), Stream, WriteFails(0)];
    assert steps[..3] == [Stream, Result(0, false), Stream];
    assert steps[..3][..2] == [Stream, Result(0, false)];
    assert steps[..3][..2][..1] == [Stream];
    assert steps[..3][..2][..1][..0] == [];
    assert Run(s0, steps[..3][..2][..1]) == s0.Stream();
    assert Run(s0, steps[..3][..2]) == s0.Stream().Result(0, false);
    assert Run(s0, steps[..3]) == s0.Stream().Result(0, false).Stream();
  }

  // ----- What a session says of each turn -----

  /** The id the first init of a run carried. */
  function FirstInit(steps: seq<Step>): Option<string> {
    if steps == [] then None
    else
      var prefix, last := FirstInit(steps[..|steps| - 1]), steps[|steps| - 1];
      if prefix.Some? then prefix else if last.Init? then Some(last.id) else None
  }

  /** The session was to resume a conversation and its first init told of another, or
      of none. */
  predicate WrongResume(resumeID: string, steps: seq<Step>) {
    resumeID != "" && FirstInit(steps).Some? && FirstInit(steps).value != resumeID
  }

  /** The session notices exactly that. */
  lemma {:induction false} MismatchIff(resumeID: string, steps: seq<Step>)
    ensures var s := Run(NewSession(resumeID), steps);
            && s.resumeID == resumeID && (s.mismatch <==> WrongResume(resumeID, steps))
            && (FirstInit(steps).None? ==> s.sessionID == "")
            && (resumeID != "" && FirstInit(steps) == Some(resumeID) ==> s.sessionID == resumeID)
  {
    if steps != [] { MismatchIff(resumeID, steps[..|steps| - 1]); }
  }

  predicate Open(s: Session, c: nat) {
    c < |s.chans| && !s.chans[c].closed
  }

  /** What a step that ends turn c reports of it. */
  function Report(resumeID: string, before: seq<Step>, step: Step): Option<Cause> {
    match step
    case Result(_, isError) =>
      if isError then Some(TurnFailed) else if WrongResume(resumeID, before) then Some(ResumeMismatch) else None
    case Timeout(_) => Some(TimedOut)
    case Cancel(_) => Some(Canceled)
    case WriteFails(_) => Some(WriteFailed)
    case Close => Some(SessionClosed)
    case _ => Some(ProcessExited)
  }

  /** The step is one that may end turn c. */
  predicate MayEnd(step: Step, c: nat) {
    match step
    case Result(ch, _) => ch == c
    case Timeout(ch) => ch == c
    case Cancel(ch) => ch == c
    case WriteFails(_) => true
    case Close => true
    case Eof => true
    case _ => false
  }

  /** What one step does to one turn's channel. */
  lemma StepOnChannel(s: Session, step: Step, c: nat, resumeID: string, before: seq<Step>)
    requires Inv(s) && c < |s.chans| && (s.mismatch <==> WrongResume(resumeID, before))
    ensures var t := Apply(s, step);
            && c < |t.chans|
            && (!Open(s, c) ==> t.chans[c] == s.chans[c])
            && (Open(s, c) && MayEnd(step, c) ==>
                  t.chans[c] == Chan(s.chans[c].sent + [TurnDone(Report(resumeID, before, step))], true))
            && (Open(s, c) && !MayEnd(step, c) ==>
                  t.chans[c] == Chan(s.chans[c].sent + (if step.Emit? && step.ch == c then [Ordinary(step.payload)]
                                                        else []), false))
  {
    hide GoodChan;
    if !MayEnd(step, c) && !(step.Emit? && step.ch == c) { assert s.chans[c].sent + [] == s.chans[c].sent; }
  }

  lemma NewChannelIsEmpty(s: Session, step: Step, c: nat)
    requires |s.chans| <= c < |Apply(s, step).chans|
    ensures step.Stream? && Apply(s, step).chans[c] == Chan([], false)
  {
  }

  /** What was emitted for turn c while it was open. */
  function Emitted(s: Session, steps: seq<Step>, c: nat): seq<Event> {
    if steps == [] then []
    else
      var prefix, last := steps[..|steps| - 1], steps[|steps| - 1];
      Emitted(s, prefix, c) + if last.Emit? && last.ch == c && Open(Run(s, prefix), c) then [Ordinary(last.payload)]
      else []
  }

  lemma {:induction false} NothingForALaterTurn(s: Session, steps: seq<Step>, c: nat)
    requires Inv(s) && c >= |Run(s, steps).chans|
    ensures Emitted(s, steps, c) == []
  {
    hide Inv, Apply;
    if steps != [] {
      var prefix := steps[..|steps| - 1];
      ClosedChannelsAreFinal(s, prefix);
      StepExtends(Run(s, prefix), steps[|steps| - 1]);
      NothingForALaterTurn(s, prefix, c);
    }
  }

  /** In every run the channel of a turn carries what was emitted for it while it was
      open, in order and complete; and if it is closed, a step that may end the turn
      closed it, and the terminal event reports that step: a result as the provider
      gave it, unless the session had resumed a wrong conversation, and any other end
      by its cause. */
  lemma {:induction false} EveryChannelTellsItsTurn(resumeID: string, steps: seq<Step>, c: nat) returns (i: nat)
    requires c < |Run(NewSession(resumeID), steps).chans|
    ensures var ch := Run(NewSession(resumeID), steps).chans[c];
            var said := Emitted(NewSession(resumeID), steps, c);
            if !ch.closed then ch.sent == said
            else
              && i < |steps| && MayEnd(steps[i], c) && Open(Run(NewSession(resumeID), steps[..i]), c)
              && ch.sent == said + [TurnDone(Report(resumeID, steps[..i], steps[i]))]
  {
    hide Inv, Apply, Report, WrongResume;
    var start := NewSession(resumeID);
    var n := |steps| - 1;
    var prefix, last := steps[..n], steps[n];
    var s := Run(start, prefix);
    EveryRunKeepsInv(resumeID, prefix);
    MismatchIff(resumeID, prefix);
    i := n;
    if c < |s.chans| {
      StepOnChannel(s, last, c, resumeID, prefix);
      var j := EveryChannelTellsItsTurn(resumeID, prefix, c);
      if s.chans[c].closed {
        i := j;
        assert prefix[..j] == steps[..j];
      }
    } else {
      NewChannelIsEmpty(s, last, c);
      assert Inv(start) by { EveryRunKeepsInv(resumeID, []); }
      NothingForALaterTurn(start, prefix, c);
    }
  }

  /** So once a session that was to resume has had its first init, and it told of
      another conversation, every turn that is open or comes later ends with an error. */
  lemma WrongResumeNeverSucceeds(resumeID: string, steps: seq<Step>, more: seq<Step>, c: nat)
    requires WrongResume(resumeID, steps) && !ClosedAlready(Run(NewSession(resumeID), steps), c)
    requires ClosedAlready(Run(NewSession(resumeID), steps + more), c)
    ensures EndedBadly(Run(NewSession(resumeID), steps + more).chans[c])
  {
    hide Run, Emitted;
    var all := steps + more;
    var i := EveryChannelTellsItsTurn(resumeID, all, c);
    if i < |steps| {
      assert all[..i] == steps[..i] && steps[i] == all[i];
      EndedEarlier(resumeID, steps, c, i);
    } else {
      assert all[..i] == steps + more[..i - |steps|];
      FirstInitStays(steps, more[..i - |steps|]);
    }
  }

  /** And a session whose first init was right never reports a mismatch. */
  lemma RightResumeNeverMismatches(resumeID: string, steps: seq<Step>, c: nat)
    requires !WrongResume(resumeID, steps) && ClosedAlready(Run(NewSession(resumeID), steps), c)
    ensures var sent := Run(NewSession(resumeID), steps).chans[c].sent;
            sent != [] && sent[|sent| - 1] != TurnDone(Some(ResumeMismatch))
  {
    hide Run, Emitted;
    var i := EveryChannelTellsItsTurn(resumeID, steps, c);
    assert steps == steps[..i] + steps[i..];
    FirstInitStays(steps[..i], steps[i..]);
  }

  predicate ClosedAlready(s: Session, c: nat) {
    c < |s.chans| && s.chans[c].closed
  }

  lemma {:induction false} EndedEarlier(resumeID: string, steps: seq<Step>, c: nat, i: nat)
    requires i < |steps| && MayEnd(steps[i], c) && Open(Run(NewSession(resumeID), steps[..i]), c)
    ensures ClosedAlready(Run(NewSession(resumeID), steps), c)
  {
    hide Inv, Apply, Report, WrongResume, MayEnd;
    var n := |steps| - 1;
    var s := Run(NewSession(resumeID), steps[..n]);
    EveryRunKeepsInv(resumeID, steps[..n]);
    MismatchIff(resumeID, steps[..n]);
    if i < n {
      assert steps[..n][..i] == steps[..i];
      EndedEarlier(resumeID, steps[..n], c, i);
    }
    StepOnChannel(s, steps[n], c, resumeID, steps[..n]);
  }

  lemma {:induction false} FirstInitStays(a: seq<Step>, b: seq<Step>)
    ensures FirstInit(a).Some? ==> FirstInit(a + b) == FirstInit(a)
  {
    if b == [] {
      assert a + b == a;
    } else {
      assert (a + b)[..|a + b| - 1] == a + b[..|b| - 1];
      FirstInitStays(a, b[..|b| - 1]);
    }
  }

  // ----- When a session takes a turn -----

  /** The turn ended by a result of its own, good or bad. */
  predicate ByResult(c: Chan) {
    c.sent != [] && c.sent[|c.sent| - 1] in {TurnDone(None), TurnDone(Some(TurnFailed)), TurnDone(Some(ResumeMismatch))}
  }

  /** No turn so far ended in another way. */
  predicate AllByResult(s: Session) {
    forall c :: 0 <= c < |s.chans| && s.chans[c].closed ==> ByResult(s.chans[c])
  }

  /** Neither Close nor the end of the process has come. */
  predicate Undisturbed(steps: seq<Step>) {
    Close !in steps && Eof !in steps
  }

  lemma StepHarms(s: Session, step: Step, c: nat)
    requires Inv(s) && s.Owned(c)
    ensures var t := Apply(s, step);
            && |t.chans| == |s.chans| && (forall d :: 0 <= d < |s.chans| && d != c ==> t.chans[d] == s.chans[d])
            && (t.Healthy() <==> !t.chans[c].closed || ByResult(t.chans[c]))
  {
    hide GoodChan;
  }

  lemma QuietStep(s: Session, step: Step)
    requires Inv(s) && s.eventsCh.None?
    ensures var t := Apply(s, step);
            && t.chans == (if step.Stream? && s.state.Ready? then s.chans + [Chan([], false)] else s.chans)
            && (t.Healthy() <==> s.Healthy() && !step.Close? && !step.Eof?)
  {
    hide GoodChan;
  }

  lemma StepHealth(s: Session, steps: seq<Step>, step: Step)
    requires Inv(s) && (s.Healthy() <==> Undisturbed(steps) && AllByResult(s))
    ensures Apply(s, step).Healthy() <==> Undisturbed(steps + [step]) && AllByResult(Apply(s, step))
  {
    hide Apply, Session.Healthy, ByResult, GoodChan;
    var t := Apply(s, step);
    assert Undisturbed(steps + [step]) <==> Undisturbed(steps) && step != Close && step != Eof;
    if s.eventsCh.Some? {
      var c := s.eventsCh.value;
      StepHarms(s, step, c);
      InFlightIsHealthy(s);
      if step.Close? || step.Eof? { EndsAreNotResults(s, step, c); }
      assert AllByResult(t) <==> !t.chans[c].closed || ByResult(t.chans[c]) by {
        forall d | 0 <= d < |t.chans| && d != c ensures t.chans[d] == s.chans[d] { }
      }
    } else {
      QuietStep(s, step);
      assert AllByResult(t) <==> AllByResult(s) by {
        forall d | 0 <= d < |s.chans| ensures t.chans[d] == s.chans[d] { }
      }
    }
    hide AllByResult, Undisturbed;
  }

  lemma InFlightIsHealthy(s: Session)
    requires Inv(s) && s.eventsCh.Some?
    ensures s.Healthy()
  {
  }

  lemma EndsAreNotResults(s: Session, step: Step, c: nat)
    requires Inv(s) && s.Owned(c) && (step.Close? || step.Eof?)
    ensures Apply(s, step).chans[c].closed && !ByResult(Apply(s, step).chans[c])
  {
    hide GoodChan;
  }

  /** In every run: a session takes a new turn exactly when none is open, every turn so
      far ended by its own result, and neither Close nor the end of the process has
      come. */
  lemma {:induction false} TakesATurnIff(resumeID: string, steps: seq<Step>)
    ensures var s := Run(NewSession(resumeID), steps);
            && (s.Healthy() <==> Undisturbed(steps) && AllByResult(s))
            && (|Apply(s, Stream).chans| == |s.chans| + 1 <==>
                Undisturbed(steps) && AllByResult(s) && forall c :: 0 <= c < |s.chans| ==> s.chans[c].closed)
  {
    var start := NewSession(resumeID);
    if steps != [] {
      var prefix := steps[..|steps| - 1];
      TakesATurnIff(resumeID, prefix);
      EveryRunKeepsInv(resumeID, prefix);
      assert steps == prefix + [steps[|steps| - 1]];
      StepHealth(Run(start, prefix), prefix, steps[|steps| - 1]);
    }
    EveryRunKeepsInv(resumeID, steps);
    hide AllByResult, Undisturbed, Run;
    ReadyTakesATurn(Run(start, steps));
  }

  lemma ReadyTakesATurn(s: Session)
    requires Inv(s)
    ensures |Apply(s, Stream).chans| == |s.chans| + 1 <==>
            s.Healthy() && forall c :: 0 <= c < |s.chans| ==> s.chans[c].closed
  {
    hide GoodChan;
  }
}
