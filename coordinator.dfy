/** One iteration of `player_task` in spotify_client.c. The task waits for
    any of its bits, takes (and clears) every waited bit that is set, and
    handles exactly one kind of request in a fixed priority: a playback
    command, then enabling (or a lost WebSocket session), then disabling,
    then a complete WebSocket message, then the UI's acknowledgement. The
    results of the calls an iteration makes (HTTP requests, starting the
    session, the connection id parser) are inputs; what it does is a list
    of actions. */
module Coordinator {
  import opened Common
  import opened EventBits
  import HttpEngine

  /** What a request returned: its error code and the status it reported. */
  datatype Reply = Reply(err: int, status: int)

  /** The results of the calls one iteration may make, in order: the first
      `player_cmd`, the token fetch, the replayed `player_cmd`, the player
      state request, `esp_websocket_client_start`, whether the first message
      held a connection id, and `confirm_ws_session`. */
  datatype Env = Env(first: Reply, token: int, replay: Reply, state: Reply, wsStart: int, connId: bool, confirm: int)

  /** Still looping, stopped by a failed `ESP_ERROR_CHECK` or `assert`, or
      left the loop through `break`. */
  datatype Mode = Running | Aborted | Exited

  datatype TaskState = TaskState(enabled: bool, firstMsg: bool, mode: Mode)

  /** What an iteration does, in order. `PublishTrack(fromSession)` parses a
      track (from the state response or from the WebSocket buffer) and
      queues it for the UI; `SetReady` sets `WS_READY_FOR_DATA`. */
  datatype Action =
    | SendCommand(cmd: HttpEngine.Command)
    | FetchToken
    | PublishTrack(fromSession: bool)
    | PublishNoPlayer
    | StartSession
    | CloseSession
    | ConfirmSession
    | SetReady

  datatype StepResult = StepResult(state: TaskState, actions: seq<Action>)

  /** The command a single command bit stands for. */
  function CommandOf(b: Bit): (c: HttpEngine.Command)
    requires b in PlayerBits
    ensures !c.UnknownCommand? && !c.ChangeVolume? && !c.GetState?
  {
    match b
    case DoPlay => HttpEngine.Play
    case DoPause => HttpEngine.Pause
    case DoPauseUnpause => HttpEngine.PauseUnpause
    case DoPrevious => HttpEngine.Previous
    case DoNext => HttpEngine.Next
  }

  /** The command bit of a one-element set of command bits. */
  function OnlyBit(cmds: set<Bit>): (b: Bit)
    requires |cmds| == 1 && cmds <= PlayerBits
    ensures b in cmds
  {
    OneCommandBit(cmds);
    if DoPlay in cmds then DoPlay
    else if DoPause in cmds then DoPause
    else if DoPauseUnpause in cmds then DoPauseUnpause
    else if DoPrevious in cmds then DoPrevious
    else DoNext
  }

  lemma OneCommandBit(cmds: set<Bit>)
    requires |cmds| == 1 && cmds <= PlayerBits
    ensures DoPlay in cmds || DoPause in cmds || DoPauseUnpause in cmds || DoPrevious in cmds || DoNext in cmds
  {
    assert cmds != {};
    var x :| x in cmds;
    assert x in PlayerBits;
  }

  /** The command branch (spotify_client.c:460-484): one command, sent
      once, and on a 401 answer refreshed and sent once more. */
  function CommandActions(cmd: HttpEngine.Command, env: Env): (a: seq<Action>)
    ensures |a| > 0 && a[0] == SendCommand(cmd)
    ensures forall j :: 0 <= j < |a| ==> a[j].SendCommand? || a[j].FetchToken?
  {
    [SendCommand(cmd)]
      + if env.first.err == EspOk && env.first.status == StatusUnauthorized then
          [FetchToken] + (if env.token == EspOk then [SendCommand(cmd)] else [])
        else []
  }

  /** The enable branch after the state check (spotify_client.c:496-538). */
  function EnableStep(s: TaskState, env: Env): (r: StepResult)
    ensures r.state.enabled == s.enabled && r.state.firstMsg == s.firstMsg
    ensures |r.actions| > 0 && r.actions[0] == FetchToken
    ensures StartSession in r.actions <==>
      env.token == EspOk && env.state.err == EspOk
      && (env.state.status == StatusOk || env.state.status == StatusNoContent)
    ensures StartSession in r.actions ==> r.state == s
    ensures StartSession !in r.actions ==> r.state.mode != Running
    ensures SetReady in r.actions <==> StartSession in r.actions && env.wsStart == EspOk
    ensures PublishTrack(true) !in r.actions
  {
    if env.token != EspOk then StepResult(s.(mode := Aborted), [FetchToken])
    else if env.state.err != EspOk then StepResult(s.(mode := Aborted), [FetchToken, SendCommand(HttpEngine.GetState)])
    else if env.state.status != StatusOk && env.state.status != StatusNoContent then
      StepResult(s.(mode := Exited), [FetchToken, SendCommand(HttpEngine.GetState)])
    else
      StepResult(s, [FetchToken, SendCommand(HttpEngine.GetState),
                     if env.state.status == StatusOk then PublishTrack(false) else PublishNoPlayer,
                     StartSession]
                    + (if env.wsStart == EspOk then [SetReady] else []))
  }

  /** The message branch (spotify_client.c:545-566): the first message of a
      session carries the connection id to confirm, every later one a
      track. */
  function DataStep(s: TaskState, env: Env): (r: StepResult)
    ensures !r.state.firstMsg && r.state.enabled == s.enabled
    ensures SetReady in r.actions <==> s.firstMsg && env.connId && env.confirm == EspOk
    ensures PublishTrack(true) in r.actions <==> !s.firstMsg
    ensures s.firstMsg && !(env.connId && env.confirm == EspOk) ==> r.state.mode == Aborted
    ensures !(s.firstMsg && !(env.connId && env.confirm == EspOk)) ==> r.state.mode == s.mode
  {
    if s.firstMsg then
      if !env.connId then StepResult(s.(firstMsg := false, mode := Aborted), [])
      else if env.confirm != EspOk then StepResult(s.(firstMsg := false, mode := Aborted), [ConfirmSession])
      else StepResult(s.(firstMsg := false), [ConfirmSession, SetReady])
    else StepResult(s, [PublishTrack(true)])
  }

  /** One iteration of the loop, given the bits it took. */
  function Step(s: TaskState, got: set<Bit>, env: Env): (r: StepResult)
    ensures got * PlayerBits != {} ==> r.state == s && SetReady !in r.actions
    ensures r.state.enabled ==> s.enabled || EnablePlayer in got
    ensures s.enabled && !r.state.enabled ==> DisablePlayer in got
    ensures SetReady in r.actions ==> got * {EnablePlayer, WsDisconnect, WsData, WsDataConsumed} != {}
    ensures PublishTrack(true) in r.actions ==> WsData in got && !s.firstMsg
    ensures r.state.mode == s.mode || r.state.mode != Running
  {
    var cmds := got * PlayerBits;
    if cmds != {} then
      if !s.enabled || |cmds| > 1 then StepResult(s, [])
      else StepResult(s, CommandActions(CommandOf(OnlyBit(cmds)), env))
    else if EnablePlayer in got || WsDisconnect in got then
      if EnablePlayer in got && s.enabled then StepResult(s, [])
      else EnableStep(TaskState(s.enabled || EnablePlayer in got, true, s.mode), env)
    else if DisablePlayer in got then StepResult(s.(enabled := false), [CloseSession])
    else if WsData in got then DataStep(s, env)
    else if WsDataConsumed in got then StepResult(s, [SetReady])
    else StepResult(s, [])
  }

  /** How often an action list sends a playback command. */
  function Sends(acts: seq<Action>): nat
  {
    if acts == [] then 0
    else Sends(acts[..|acts| - 1]) + (if acts[|acts| - 1].SendCommand? then 1 else 0)
  }

  /** A command is dropped, and the other bits taken with it are lost,
      while the player is disabled or when more than one command bit is
      set. */
  lemma CommandDropped(s: TaskState, got: set<Bit>, env: Env)
    requires got * PlayerBits != {} && (!s.enabled || |got * PlayerBits| > 1)
    ensures Step(s, got, env) == StepResult(s, [])
  {
  }

  /** A lone command bit of an enabled player is carried out, whatever
      other bits came with it. */
  lemma CommandAccepted(s: TaskState, b: Bit, others: set<Bit>, env: Env)
    requires s.enabled && b in PlayerBits && others * PlayerBits == {}
    ensures Step(s, {b} + others, env) == StepResult(s, CommandActions(CommandOf(b), env))
  {
    assert ({b} + others) * PlayerBits == {b};
  }

  /** A command is sent once; it is sent a second time exactly when the
      first answer was a 401 over a working connection and the token
      refresh succeeded. */
  lemma CommandReplayedOnce(cmd: HttpEngine.Command, env: Env)
    ensures var a := CommandActions(cmd, env);
      && |a| > 0 && a[0] == SendCommand(cmd)
      && 1 <= Sends(a) <= 2
      && (Sends(a) == 2 <==>
            env.first.err == EspOk && env.first.status == StatusUnauthorized && env.token == EspOk)
      && (FetchToken in a <==> env.first.err == EspOk && env.first.status == StatusUnauthorized)
  {
    var a := CommandActions(cmd, env);
    assert [SendCommand(cmd)][..0] == [];
    if env.first.err == EspOk && env.first.status == StatusUnauthorized {
      assert a[..1] == [SendCommand(cmd)];
      if env.token == EspOk {
        assert a == [SendCommand(cmd), FetchToken, SendCommand(cmd)];
        assert a[..2] == [SendCommand(cmd), FetchToken];
        assert a[..2][..1] == [SendCommand(cmd)];
        assert Sends(a[..1]) == 1 && Sends(a[..2]) == 1;
        assert Sends(a) == 2;
      } else {
        assert a == [SendCommand(cmd), FetchToken];
        assert a[..1] == [SendCommand(cmd)];
        assert Sends(a) == Sends(a[..1]);
      }
    } else {
      assert a == [SendCommand(cmd)];
    }
  }

  /** Enabling an enabled player does nothing, even when a lost session
      was reported in the same wake-up. */
  lemma EnableWhileEnabledIgnored(s: TaskState, got: set<Bit>, env: Env)
    requires s.enabled && EnablePlayer in got && got * PlayerBits == {}
    ensures Step(s, got, env) == StepResult(s, [])
  {
  }

  /** With no device attached (204) enabling queues "no player" and starts
      the session; with a device (200) it queues the current track. */
  lemma EnablePublishesPlayerState(s: TaskState, env: Env)
    requires !s.enabled && s.mode == Running
    requires env.token == EspOk && env.state.err == EspOk && env.wsStart == EspOk
    requires env.state.status == StatusOk || env.state.status == StatusNoContent
    ensures var r := Step(s, {EnablePlayer}, env);
      && r.state == TaskState(true, true, Running)
      && r.actions == [FetchToken, SendCommand(HttpEngine.GetState),
                       if env.state.status == StatusOk then PublishTrack(false) else PublishNoPlayer,
                       StartSession, SetReady]
  {
    assert {EnablePlayer} * PlayerBits == {};
  }

  /** Any other player state status leaves the task loop. */
  lemma EnableUnexpectedStatusExits(s: TaskState, env: Env)
    requires !s.enabled
    requires env.token == EspOk && env.state.err == EspOk
    requires env.state.status != StatusOk && env.state.status != StatusNoContent
    ensures Step(s, {EnablePlayer}, env).state.mode == Exited
  {
    assert {EnablePlayer} * PlayerBits == {};
  }

  /** Disabling closes the session; the close reports a disconnect, and
      that disconnect runs the enable branch again although the player is
      now disabled: a new session is started for a disabled player. */
  lemma DisableThenCloseRestartsSession(s: TaskState, env: Env)
    requires s.enabled && s.mode == Running
    requires env.token == EspOk && env.state == Reply(EspOk, StatusNoContent)
    ensures var r1 := Step(s, {DisablePlayer}, env);
      && r1.actions == [CloseSession] && !r1.state.enabled
      && var r2 := Step(r1.state, {WsDisconnect}, env);
         && !r2.state.enabled && r2.state.mode == Running && StartSession in r2.actions
  {
    assert {DisablePlayer} * PlayerBits == {};
    assert {WsDisconnect} * PlayerBits == {};
    var r2 := Step(s.(enabled := false), {WsDisconnect}, env);
    assert r2.actions[3] == StartSession;
  }

  /** The WebSocket buffer goes back to the receiver right after the first
      message of a session (the connection id), but after a track only once
      the UI acknowledges it. */
  lemma BufferHandBack(s: TaskState, env: Env)
    requires s.mode == Running && env.connId && env.confirm == EspOk
    ensures var r := Step(s, {WsData}, env);
      && (s.firstMsg ==> r.actions == [ConfirmSession, SetReady] && !r.state.firstMsg)
      && (!s.firstMsg ==> r.actions == [PublishTrack(true)] && r.state == s)
    ensures Step(s, {WsDataConsumed}, env) == StepResult(s, [SetReady])
  {
    assert {WsData} * PlayerBits == {};
    assert {WsDataConsumed} * PlayerBits == {};
  }

  /** Only one request is handled per wake-up although every waited bit is
      cleared: a message that arrives together with a command is never
      published, and its buffer is never handed back. */
  lemma CommandHidesMessage(s: TaskState, b: Bit, env: Env)
    requires s.enabled && b in PlayerBits
    ensures var r := Step(s, {b, WsData}, env);
      PublishTrack(true) !in r.actions && SetReady !in r.actions
  {
    assert {b, WsData} * PlayerBits == {b};
  }

  /** The task's local variables and what it has done so far. */
  class PlayerTask {
    var enabled: bool
    var firstMsg: bool
    var mode: Mode
    var actions: seq<Action>

    constructor ()
      ensures !enabled && firstMsg && mode == Running && actions == []
    {
      enabled := false;
      firstMsg := true;
      mode := Running;
      actions := [];
    }

    function State(): TaskState
      reads this
    {
      TaskState(enabled, firstMsg, mode)
    }

    /** Records an action; `SetReady` also sets the bit. */
    method Do(group: EventGroup, a: Action)
      modifies this, group
      ensures actions == old(actions) + [a]
      ensures enabled == old(enabled) && firstMsg == old(firstMsg) && mode == old(mode)
      ensures group.bits == old(group.bits) + (if a == SetReady then {WsReadyForData} else {})
    {
      actions := actions + [a];
      if a == SetReady {
        group.SetBits({WsReadyForData});
      }
    }

    /** The set-bits effect of an action list. */
    static function Readied(acts: seq<Action>): set<Bit>
    {
      if SetReady in acts then {WsReadyForData} else {}
    }

    /** The command branch after both checks passed. */
    method RunCommand(group: EventGroup, cmd: HttpEngine.Command, env: Env)
      modifies this, group
      ensures State() == old(State())
      ensures actions == old(actions) + CommandActions(cmd, env)
      ensures group.bits == old(group.bits) + Readied(CommandActions(cmd, env))
    {
      Do(group, SendCommand(cmd));
      if env.first.err == EspOk && env.first.status == StatusUnauthorized {
        Do(group, FetchToken);
        if env.token == EspOk {
          Do(group, SendCommand(cmd));
        }
      }
    }

    /** The enable branch once `enabled` and `first_msg` are set. */
    method RunEnable(group: EventGroup, env: Env)
      modifies this, group
      ensures var r := EnableStep(old(State()), env);
        State() == r.state && actions == old(actions) + r.actions
        && group.bits == old(group.bits) + Readied(r.actions)
    {
      Do(group, FetchToken);
      if env.token != EspOk {
        mode := Aborted;
        return;
      }
      Do(group, SendCommand(HttpEngine.GetState));
      if env.state.err != EspOk {
        mode := Aborted;
        return;
      }
      if env.state.status == StatusOk {
        Do(group, PublishTrack(false));
      } else if env.state.status == StatusNoContent {
        Do(group, PublishNoPlayer);
      } else {
        mode := Exited;
        return;
      }
      Do(group, StartSession);
      if env.wsStart == EspOk {
        Do(group, SetReady);
      }
    }

    /** The message branch. */
    method RunData(group: EventGroup, env: Env)
      modifies this, group
      ensures var r := DataStep(old(State()), env);
        State() == r.state && actions == old(actions) + r.actions
        && group.bits == old(group.bits) + Readied(r.actions)
    {
      if firstMsg {
        firstMsg := false;
        if !env.connId {
          mode := Aborted;
          return;
        }
        Do(group, ConfirmSession);
        if env.confirm != EspOk {
          mode := Aborted;
          return;
        }
        Do(group, SetReady);
      } else {
        Do(group, PublishTrack(true));
      }
    }

    /** One pass of the `while (1)` loop, woken with some waited bit set. */
    method Iterate(group: EventGroup, env: Env)
      requires mode == Running && group.bits * WaitedBits != {}
      modifies this, group
      ensures var r := Step(old(State()), old(group.bits) * WaitedBits, env);
        && State() == r.state && actions == old(actions) + r.actions
        && group.bits == old(group.bits) - WaitedBits + Readied(r.actions)
    {
      var got := group.TakeBits(WaitedBits);
      var cmds := got * PlayerBits;
      if cmds != {} {
        if !enabled || |cmds| > 1 {
          return;
        }
        RunCommand(group, CommandOf(OnlyBit(cmds)), env);
      } else if EnablePlayer in got || WsDisconnect in got {
        if EnablePlayer in got {
          if enabled {
            return;
          }
          enabled := true;
        }
        firstMsg := true;
        RunEnable(group, env);
      } else if DisablePlayer in got {
        enabled := false;
        Do(group, CloseSession);
      } else if WsData in got {
        RunData(group, env);
      } else if WsDataConsumed in got {
        Do(group, SetReady);
      }
    }
  }
}
