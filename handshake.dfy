/** The buffer handshake between `default_ws_handler_cb` and `player_task`,
    followed step by step over the shared event group. The WebSocket buffer
    has one owner at a time: the receiver while it waits for or fills a
    message (`WS_READY_FOR_DATA` set, or its `lock` held), the player task
    once `WS_DATA_EVENT` is set, the UI while it holds a track parsed from
    the buffer, and the task again once the UI answers with
    `WS_DATA_CONSUMED`. A system step is one callback, one iteration of the
    task, one answer of the UI or one request the UI raises. */
module Handshake {
  import opened Common
  import opened EventBits
  import W = WsReceiver
  import C = Coordinator
  import HttpEngine

  /** Which queued events the UI answers with `DATA_PROCESSED_EVENT`.
      `AcksEveryTrack` is the UI of main.c and display.c, which answers every
      track it takes, the one the enable branch parsed from the player state
      included; `AcksSessionTracks` answers only tracks parsed from the
      WebSocket buffer. */
  datatype Ui = AcksEveryTrack | AcksSessionTracks

  predicate Answered(a: C.Action, ui: Ui)
  {
    match ui
    case AcksEveryTrack => a.PublishTrack?
    case AcksSessionTracks => a == C.PublishTrack(true)
  }

  /** How many of the queued events in `acts` the UI will answer. */
  function Queued(acts: seq<C.Action>, ui: Ui): nat
    decreases |acts|
  {
    if acts == [] then 0 else (if Answered(acts[0], ui) then 1 else 0) + Queued(acts[1..], ui)
  }

  /** The event group and receiver lock, the task's state, and the number
      of answers the UI still owes. */
  datatype Sys = Sys(gate: W.Gate, task: C.TaskState, owed: nat)

  /** One step of the system: a copied frame reaches the callback, the task
      wakes up and runs one iteration with `env` as the results of its
      calls, the UI answers a queued event, or the UI raises a bit through
      `spotify_dispatch_event`. */
  datatype SysEvent = Frame(last: bool) | Wake(env: C.Env) | Ack | Raise(b: Bit)

  /** The state after an event, or `None` when the event cannot happen now:
      the frame blocks on `WS_READY_FOR_DATA`, the task is not running or
      has no waited bit to wake for, or the UI owes no answer. */
  function Next(s: Sys, e: SysEvent, ui: Ui): Option<Sys>
  {
    match e
    case Frame(last) =>
      (match W.Admit(s.gate, last)
       case None => None
       case Some(g) => Some(s.(gate := g)))
    case Wake(env) =>
      var got := s.gate.bits * WaitedBits;
      if got == {} || !s.task.mode.Running? then None
      else
        var r := C.Step(s.task, got, env);
        Some(Sys(W.Gate(s.gate.bits - WaitedBits + C.PlayerTask.Readied(r.actions), s.gate.lock),
                 r.state, s.owed + Queued(r.actions, ui)))
    case Ack =>
      if s.owed == 0 then None
      else Some(s.(gate := s.gate.(bits := s.gate.bits + {WsDataConsumed}), owed := s.owed - 1))
    case Raise(b) =>
      Some(s.(gate := s.gate.(bits := s.gate.bits + {b})))
  }

  /** A frame is written into the buffer while it still holds a complete
      message the task has not taken. */
  predicate Overwrites(s: Sys, e: SysEvent)
  {
    e.Frame? && WsData in s.gate.bits && W.Admit(s.gate, e.last).Some?
  }

  /** No event of `es` overwrites an unread message; an event that cannot
      happen leaves the state as it was. */
  predicate Safe(s: Sys, es: seq<SysEvent>, ui: Ui)
    decreases |es|
  {
    es == [] ||
    match Next(s, es[0], ui)
    case None => Safe(s, es[1..], ui)
    case Some(s1) => !Overwrites(s, es[0]) && Safe(s1, es[1..], ui)
  }

  /** A player waiting to be enabled: the UI has raised `ENABLE_PLAYER`. */
  const Start: Sys := Sys(W.Gate({EnablePlayer}, false), C.TaskState(false, true, C.Running), 0)

  /** Every call of an iteration succeeds and the player reports a track. */
  const AllOk: C.Env :=
    C.Env(C.Reply(EspOk, StatusOk), EspOk, C.Reply(EspOk, StatusOk), C.Reply(EspOk, StatusOk), EspOk, true, EspOk)

  /** Enabling, then a connection-id message in two frames with the UI's
      answer to the enable-time track arriving between them, then a
      one-frame message. */
  const SpuriousAckTrace: seq<SysEvent> := [Wake(AllOk), Frame(false), Ack, Wake(AllOk), Frame(true), Frame(true)]

  /** Enabling with the UI as written: the ready token is set and the
      enable-time track is owed an answer. */
  lemma EnableOwesAnswer()
    ensures Next(Start, Wake(AllOk), AcksEveryTrack)
            == Some(Sys(W.Gate({WsReadyForData}, false), C.TaskState(true, true, C.Running), 1))
  {
    var ui := AcksEveryTrack;
    assert {EnablePlayer} * WaitedBits == {EnablePlayer};
    assert {EnablePlayer} * PlayerBits == {};
    var enable := C.Step(Start.task, {EnablePlayer}, AllOk);
    assert enable.actions == [C.FetchToken, C.SendCommand(HttpEngine.GetState), C.PublishTrack(false), C.StartSession, C.SetReady];
    assert Queued(enable.actions[4..], ui) == 0;
    assert Queued(enable.actions[3..], ui) == 0;
    assert Queued(enable.actions[2..], ui) == 1;
    assert Queued(enable.actions[1..], ui) == 1;
    assert {EnablePlayer} - WaitedBits + {WsReadyForData} == {WsReadyForData};
  }

  /** An answer taken while a message is being received sets the ready
      token again. */
  lemma AnswerReadies(t: C.TaskState, ui: Ui)
    requires t.mode.Running?
    ensures Next(Sys(W.Gate({WsDataConsumed}, true), t, 0), Wake(AllOk), ui)
            == Some(Sys(W.Gate({WsReadyForData}, true), t, 0))
  {
    assert {WsDataConsumed} * WaitedBits == {WsDataConsumed};
    assert {WsDataConsumed} * PlayerBits == {};
    assert Queued([C.SetReady], ui) == 0;
    assert {WsDataConsumed} - WaitedBits + {WsReadyForData} == {WsReadyForData};
  }

  /** An event that happens and leads to an unsafe run makes the run
      from before it unsafe. */
  lemma UnsafeBefore(s: Sys, e: SysEvent, es: seq<SysEvent>, ui: Ui, s1: Sys)
    requires Next(s, e, ui) == Some(s1) && !Safe(s1, es, ui)
    ensures !Safe(s, [e] + es, ui)
  {
    assert ([e] + es)[1..] == es;
  }

  /** With the UI as written, the answer to the enable-time track hands the
      buffer back while the first message is still being received, so the
      second message is admitted over the first before the task reads it. */
  lemma SpuriousAckOverwritesAsWritten()
    ensures !Safe(Start, SpuriousAckTrace, AcksEveryTrack)
  {
    var ui := AcksEveryTrack;
    var task := C.TaskState(true, true, C.Running);
    var s1 := Sys(W.Gate({WsReadyForData}, false), task, 1);
    var s2 := Sys(W.Gate({}, true), task, 1);
    var s3 := Sys(W.Gate({WsDataConsumed}, true), task, 0);
    var s4 := Sys(W.Gate({WsReadyForData}, true), task, 0);
    var s5 := Sys(W.Gate({WsReadyForData, WsData}, false), task, 0);
    assert !Safe(s5, [Frame(true)], ui) by {
      assert Overwrites(s5, Frame(true));
    }
    assert Next(s4, Frame(true), ui) == Some(s5) by {
      assert {WsReadyForData} + {WsData} == {WsReadyForData, WsData};
    }
    UnsafeBefore(s4, Frame(true), [Frame(true)], ui, s5);
    AnswerReadies(task, ui);
    UnsafeBefore(s3, Wake(AllOk), [Frame(true), Frame(true)], ui, s4);
    assert Next(s2, Ack, ui) == Some(s3) by {
      assert s2.gate.bits + {WsDataConsumed} == {WsDataConsumed};
    }
    UnsafeBefore(s2, Ack, [Wake(AllOk), Frame(true), Frame(true)], ui, s3);
    assert Next(s1, Frame(false), ui) == Some(s2) by {
      assert {WsReadyForData} - {WsReadyForData} == {};
    }
    UnsafeBefore(s1, Frame(false), [Ack, Wake(AllOk), Frame(true), Frame(true)], ui, s2);
    EnableOwesAnswer();
    UnsafeBefore(Start, Wake(AllOk), [Frame(false), Ack, Wake(AllOk), Frame(true), Frame(true)], ui, s1);
  }

  /** The bits the UI and the WebSocket client raise to start or end a
      session. */
  const Lifecycle: set<Bit> := {EnablePlayer, DisablePlayer, WsDisconnect}

  /** The holders of the buffer: the ready token, the receiver's lock, an
      unread message, an answer not yet taken by the task, and the answers
      the UI still owes. */
  function Owners(s: Sys): nat
  {
    (if WsReadyForData in s.gate.bits then 1 else 0) + (if s.gate.lock then 1 else 0)
      + (if WsData in s.gate.bits then 1 else 0) + (if WsDataConsumed in s.gate.bits then 1 else 0)
      + s.owed
  }

  /** A running session: the buffer has at most one owner and no session
      is being started or ended. */
  predicate InSession(s: Sys)
  {
    Owners(s) <= 1 && s.gate.bits * Lifecycle == {}
  }

  /** Inside a session the UI raises only playback commands. */
  predicate SessionEvent(e: SysEvent)
  {
    e.Raise? ==> e.b in PlayerBits
  }

  /** What an iteration gives the buffer to: the ready token, and the
      answers the UI will owe. */
  function Handed(acts: seq<C.Action>, ui: Ui): nat
  {
    (if C.SetReady in acts then 1 else 0) + Queued(acts, ui)
  }

  /** An iteration inside a session passes the buffer on to at most one
      new owner, and only when it took an unread message or an answer. */
  lemma StepHandsOn(t: C.TaskState, got: set<Bit>, env: C.Env)
    requires EnablePlayer !in got && DisablePlayer !in got && WsDisconnect !in got
    ensures Handed(C.Step(t, got, env).actions, AcksSessionTracks)
            <= if WsData in got || WsDataConsumed in got then 1 else 0
  {
    var ui := AcksSessionTracks;
    var cmds := got * PlayerBits;
    if cmds != {} {
      if t.enabled && |cmds| <= 1 {
        var acts := C.CommandActions(C.CommandOf(C.OnlyBit(cmds)), env);
        NoAnswerOwedIn(acts);
      }
    } else if WsData in got {
      var d := C.DataStep(t, env);
      if t.firstMsg {
        NoAnswerOwedIn(d.actions);
      } else {
        assert d.actions == [C.PublishTrack(true)];
        assert Queued(d.actions, ui) == 1;
      }
    } else if WsDataConsumed in got {
      assert Queued([C.SetReady], ui) == 0;
    }
  }

  /** When only tracks from the buffer are answered, every step of a
      session keeps a single owner, and no frame is admitted over an
      unread message. */
  lemma SessionStep(s: Sys, e: SysEvent)
    requires InSession(s) && SessionEvent(e)
    ensures !Overwrites(s, e)
    ensures Next(s, e, AcksSessionTracks).Some? ==> InSession(Next(s, e, AcksSessionTracks).value)
  {
    if e.Wake? && Next(s, e, AcksSessionTracks).Some? {
      var got := s.gate.bits * WaitedBits;
      StepHandsOn(s.task, got, e.env);
    }
  }

  /** Inside a session whose UI answers only tracks from the buffer, no
      message is ever overwritten before the task reads it, whatever the
      order of frames, iterations, answers and commands. */
  lemma {:induction false} SessionNeverOverwrites(s: Sys, es: seq<SysEvent>)
    requires InSession(s) && forall j :: 0 <= j < |es| ==> SessionEvent(es[j])
    ensures Safe(s, es, AcksSessionTracks)
    decreases |es|
  {
    if es != [] {
      SessionStep(s, es[0]);
      match Next(s, es[0], AcksSessionTracks)
      case None =>
        SessionNeverOverwrites(s, es[1..]);
      case Some(s1) =>
        SessionNeverOverwrites(s1, es[1..]);
    }
  }

  /** Enabling the player, whatever its calls return, leaves a state with
      at most one owner of the buffer when the enable-time track is not
      answered. */
  lemma EnableStartsSession(env: C.Env)
    ensures Next(Start, Wake(env), AcksSessionTracks).Some?
    ensures InSession(Next(Start, Wake(env), AcksSessionTracks).value)
  {
    assert {EnablePlayer} * WaitedBits == {EnablePlayer};
    assert {EnablePlayer} * PlayerBits == {};
    var r := C.Step(Start.task, {EnablePlayer}, env);
    assert r == C.EnableStep(C.TaskState(true, true, Start.task.mode), env);
    NoAnswerOwedIn(r.actions);
  }

  /** Enabling the player starts a session that no run of session events
      can break; the trace that breaks the UI as written is among them. */
  lemma {:induction false} EnabledSessionNeverOverwrites(env: C.Env, es: seq<SysEvent>)
    requires forall j :: 0 <= j < |es| ==> SessionEvent(es[j])
    ensures Safe(Start, [Wake(env)] + es, AcksSessionTracks)
    ensures Safe(Start, SpuriousAckTrace, AcksSessionTracks)
  {
    EnableStartsSession(env);
    assert ([Wake(env)] + es)[1..] == es;
    SessionNeverOverwrites(Next(Start, Wake(env), AcksSessionTracks).value, es);
    var t := SpuriousAckTrace;
    EnableStartsSession(AllOk);
    SessionNeverOverwrites(Next(Start, Wake(AllOk), AcksSessionTracks).value, t[1..]);
  }

  lemma NoAnswerOwedIn(acts: seq<C.Action>)
    requires forall j :: 0 <= j < |acts| ==> acts[j] != C.PublishTrack(true)
    ensures Queued(acts, AcksSessionTracks) == 0
    decreases |acts|
  {
    if acts != [] {
      NoAnswerOwedIn(acts[1..]);
    }
  }
}
