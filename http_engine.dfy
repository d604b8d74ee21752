/** The request side of spotify_client.c: the shared retry counter
    `s_retries`, the perform-and-retry loop every request runs, the
    command-to-request mapping of `player_cmd` with its retry on 403, the
    token emptiness test, the status `spotify_play_context_uri` reports and
    the result rules of `fetch_album_cover`. A request's network outcomes
    are an input sequence; running out of them is reported as `Pending`. */
module HttpEngine {
  import opened Common

  /** `RETRIES_ERR_CONN`: retries allowed after a transport failure. */
  const RetriesErrConn: nat := 3

  datatype Method = Get | Post | Put

  /** The method and endpoint the shared HTTP client is set to. */
  datatype Request = Request(verb: Method, endpoint: string)

  const ApiBase: string := "https://api.spotify.com/v1"
  const PlayerPath: string := "/me/player"
  const PlayUrl: string := ApiBase + PlayerPath + "/play"
  const PauseUrl: string := ApiBase + PlayerPath + "/pause"
  const PreviousUrl: string := ApiBase + PlayerPath + "/previous"
  const NextUrl: string := ApiBase + PlayerPath + "/next"
  const StateUrl: string := ApiBase + PlayerPath + "?market=from_token&additional_types=episode"

  /** One call of `esp_http_client_perform`: a transport failure with its
      (nonzero) error code, or a response with its status and announced
      content length. */
  datatype PerformResult =
    | TransportError(err: int)
    | Response(status: int, contentLength: int)

  /** The end of one request's retry loop: answered, given up after the
      retries ran out (with the last transport error), or still waiting for
      outcomes not supplied. `next` is the index of the first unused
      outcome. */
  datatype AttemptResult =
    | Answered(status: int, contentLength: int, next: nat)
    | GaveUp(err: int, next: nat)
    | Pending(retries: nat)

  /** The `retry:` loop shared by every request, from outcome `i` on with
      `retries` failures already counted: a response ends it (and resets the
      counter); a transport failure retries while `++s_retries <= 3` and
      gives up (resetting the counter) otherwise. */
  function Attempt(retries: nat, outs: seq<PerformResult>, i: nat): (r: AttemptResult)
    requires i <= |outs|
    decreases |outs| - i
    ensures !r.Pending? ==> i < r.next <= |outs|
    ensures !r.Pending? && retries <= RetriesErrConn ==> r.next - i <= RetriesErrConn + 1 - retries
    ensures r.Pending? ==> r.retries <= if retries > RetriesErrConn then retries else RetriesErrConn
    ensures r.GaveUp? ==> outs[r.next - 1].TransportError? && r.err == outs[r.next - 1].err
    ensures r.Answered? ==> outs[r.next - 1] == Response(r.status, r.contentLength)
  {
    if i == |outs| then Pending(retries)
    else match outs[i]
      case Response(s, len) => Answered(s, len, i + 1)
      case TransportError(e) =>
        if retries + 1 <= RetriesErrConn then Attempt(retries + 1, outs, i + 1)
        else GaveUp(e, i + 1)
  }

  /** Four outcomes always settle a request that starts with a fresh
      counter: at most four performs, three of them retries. */
  lemma {:induction false} FourOutcomesSuffice(retries: nat, outs: seq<PerformResult>, i: nat)
    requires retries <= RetriesErrConn && i <= |outs| && |outs| - i >= RetriesErrConn + 1 - retries
    ensures !Attempt(retries, outs, i).Pending?
    decreases |outs| - i
  {
    if outs[i].TransportError? && retries + 1 <= RetriesErrConn {
      FourOutcomesSuffice(retries + 1, outs, i + 1);
    }
  }

  /** Every outcome before the one that settles the request was a
      transport failure: the loop never skips a response. */
  lemma {:induction false} RetriesOnlyTransportErrors(retries: nat, outs: seq<PerformResult>, i: nat)
    requires i <= |outs|
    ensures var r := Attempt(retries, outs, i);
      !r.Pending? ==> forall k :: i <= k < r.next - 1 ==> outs[k].TransportError?
    decreases |outs| - i
  {
    if i < |outs| && outs[i].TransportError? && retries + 1 <= RetriesErrConn {
      RetriesOnlyTransportErrors(retries + 1, outs, i + 1);
    }
  }

  /** `PlayerCommand_t`; `UnknownCommand` stands for any other value. */
  datatype Command =
    | Pause | Play | PauseUnpause | Previous | Next | ChangeVolume | GetState
    | UnknownCommand(code: int)

  /** The `switch` of `player_cmd`: the request a command sends, given the
      cached playing flag and the request the client was last set to.
      `ChangeVolume` sets nothing and so resends the last request; an
      unknown command sends nothing. */
  function Resolve(cmd: Command, isPlaying: bool, last: Request): (r: Option<Request>)
    ensures r.None? <==> cmd.UnknownCommand?
    ensures cmd.ChangeVolume? ==> r == Some(last)
    ensures r.Some? && !cmd.ChangeVolume? ==>
      (r.value.verb == Put <==> cmd.Pause? || cmd.Play? || cmd.PauseUnpause?)
      && (r.value.verb == Post <==> cmd.Previous? || cmd.Next?)
      && (r.value.verb == Get <==> cmd.GetState?)
  {
    match cmd
    case Pause => Some(Request(Put, PauseUrl))
    case Play => Some(Request(Put, PlayUrl))
    case PauseUnpause => Some(Request(Put, if isPlaying then PauseUrl else PlayUrl))
    case Previous => Some(Request(Post, PreviousUrl))
    case Next => Some(Request(Post, NextUrl))
    case ChangeVolume => Some(last)
    case GetState => Some(Request(Get, StateUrl))
    case UnknownCommand(_) => None
  }

  /** The toggle sends what the direct command for the current playing
      state sends: pause while playing, play otherwise. */
  lemma ToggleAgreesWithDirect(isPlaying: bool, last: Request)
    ensures Resolve(PauseUnpause, isPlaying, last) == Resolve(if isPlaying then Pause else Play, isPlaying, last)
  {
  }

  /** The toggle's switch on 403: pause becomes play, anything else pause. */
  function Flip(req: Request): (r: Request)
    ensures r.verb == req.verb
    ensures req.endpoint == PauseUrl ==> r.endpoint == PlayUrl
    ensures req.endpoint == PlayUrl ==> r.endpoint == PauseUrl
  {
    req.(endpoint := if req.endpoint == PauseUrl then PlayUrl else PauseUrl)
  }

  /** Flipping the toggle's request gives what the toggle sends in the
      other playing state, and flipping twice restores it. */
  lemma FlipSwapsToggle(isPlaying: bool, last: Request)
    ensures Flip(Resolve(PauseUnpause, isPlaying, last).value) == Resolve(PauseUnpause, !isPlaying, last).value
    ensures Flip(Flip(Resolve(PauseUnpause, isPlaying, last).value)) == Resolve(PauseUnpause, isPlaying, last).value
  {
  }

  /** How `player_cmd` ends: the error it returns, the status it reports,
      the request the client is left set to and the retry counter; or still
      waiting for outcomes. */
  datatype CmdResult =
    | Done(err: int, status: int, req: Request, retries: nat)
    | CmdPending

  /** The retry loop of `player_cmd` from outcome `i` on. `sCode` is the
      status of the last answered perform; it survives a retry, so a
      request that gives up reports (and acts on) the stale one. */
  function RunCmd(toggle: bool, req: Request, sCode: int, retries: nat, outs: seq<PerformResult>, i: nat): (r: CmdResult)
    requires i <= |outs|
    ensures r.Done? ==> r.retries == 0
    ensures r.Done? && !toggle ==> r.req == req
    ensures r.Done? && toggle ==> r.status != StatusForbidden
    decreases |outs| - i
  {
    var a := Attempt(retries, outs, i);
    if a.Pending? then CmdPending
    else
      var code := if a.Answered? then a.status else sCode;
      var err := if a.Answered? then EspOk else a.err;
      if code == StatusForbidden && toggle then RunCmd(toggle, Flip(req), code, 0, outs, a.next)
      else Done(err, code, req, 0)
  }

  /** `player_cmd(cmd, NULL, &status)`. */
  function PlayerCmdSpec(cmd: Command, isPlaying: bool, last: Request, retries: nat, outs: seq<PerformResult>): (r: CmdResult)
    ensures r.Done? && Resolve(cmd, isPlaying, last).Some? ==> r.retries == 0
    ensures r.Done? && Resolve(cmd, isPlaying, last).Some? && !cmd.PauseUnpause? ==> r.req == Resolve(cmd, isPlaying, last).value
    ensures r.Done? && cmd.PauseUnpause? ==> r.status != StatusForbidden
  {
    match Resolve(cmd, isPlaying, last)
    case None => Done(EspFail, 0, last, retries)
    case Some(req) => RunCmd(cmd.PauseUnpause?, req, 0, retries, outs, 0)
  }

  /** An unknown command fails with status 0 and touches nothing. */
  lemma UnknownCommandFails(code: int, isPlaying: bool, last: Request, retries: nat, outs: seq<PerformResult>)
    ensures PlayerCmdSpec(UnknownCommand(code), isPlaying, last, retries, outs) == Done(EspFail, 0, last, retries)
  {
  }

  /** A toggle refused with 403 is sent again to the other endpoint, and
      what that second answer says is reported. */
  lemma ToggleForbiddenRetriesOther(isPlaying: bool, last: Request, len: int, status: int, len2: int)
    requires status != StatusForbidden
    ensures PlayerCmdSpec(PauseUnpause, isPlaying, last, 0, [Response(StatusForbidden, len), Response(status, len2)])
      == Done(EspOk, status, Resolve(PauseUnpause, !isPlaying, last).value, 0)
  {
    var outs := [Response(StatusForbidden, len), Response(status, len2)];
    var req := Resolve(PauseUnpause, isPlaying, last).value;
    assert Attempt(0, outs, 0) == Answered(StatusForbidden, len, 1);
    assert Attempt(0, outs, 1) == Answered(status, len2, 2);
    FlipSwapsToggle(isPlaying, last);
    assert RunCmd(true, Flip(req), StatusForbidden, 0, outs, 1) == Done(EspOk, status, Flip(req), 0);
  }

  /** Any other command answered with 403 reports the 403 and stops. */
  lemma OtherForbiddenReturned(cmd: Command, isPlaying: bool, last: Request, len: int, rest: seq<PerformResult>)
    requires !cmd.PauseUnpause? && !cmd.UnknownCommand?
    ensures PlayerCmdSpec(cmd, isPlaying, last, 0, [Response(StatusForbidden, len)] + rest)
      == Done(EspOk, StatusForbidden, Resolve(cmd, isPlaying, last).value, 0)
  {
    assert Attempt(0, [Response(StatusForbidden, len)] + rest, 0) == Answered(StatusForbidden, len, 1);
  }

  /** The 403 retry of the toggle has no bound: as long as the server keeps
      refusing, the command never returns. */
  lemma {:induction false} ToggleRetryUnbounded(req: Request, sCode: int, retries: nat, outs: seq<PerformResult>, i: nat)
    requires i <= |outs|
    requires forall k :: i <= k < |outs| ==> outs[k].Response? && outs[k].status == StatusForbidden
    ensures RunCmd(true, req, sCode, retries, outs, i) == CmdPending
    decreases |outs| - i
  {
    if i < |outs| {
      ToggleRetryUnbounded(Flip(req), StatusForbidden, 0, outs, i + 1);
    }
  }

  /** A toggle that was refused, then lost the connection four times,
      still holds the stale 403, so it flips a second time and ends up
      resending its first request. */
  lemma StaleForbiddenFlipsAgain(isPlaying: bool, last: Request, len: int, e: int, status: int, len2: int)
    requires status != StatusForbidden
    ensures var outs := [Response(StatusForbidden, len)] + Repeat(TransportError(e), 4) + [Response(status, len2)];
      PlayerCmdSpec(PauseUnpause, isPlaying, last, 0, outs) == Done(EspOk, status, Resolve(PauseUnpause, isPlaying, last).value, 0)
  {
    var outs := [Response(StatusForbidden, len)] + Repeat(TransportError(e), 4) + [Response(status, len2)];
    var req := Resolve(PauseUnpause, isPlaying, last).value;
    assert Attempt(0, outs, 0) == Answered(StatusForbidden, len, 1);
    assert outs[1] == outs[2] == outs[3] == outs[4] == TransportError(e);
    assert Attempt(3, outs, 4) == GaveUp(e, 5);
    assert Attempt(2, outs, 3) == GaveUp(e, 5);
    assert Attempt(1, outs, 2) == GaveUp(e, 5);
    assert Attempt(0, outs, 1) == GaveUp(e, 5);
    assert Attempt(0, outs, 5) == Answered(status, len2, 6);
    FlipSwapsToggle(isPlaying, last);
    assert RunCmd(true, req, StatusForbidden, 0, outs, 5) == Done(EspOk, status, req, 0);
    assert RunCmd(true, Flip(req), StatusForbidden, 0, outs, 1) == Done(EspOk, status, req, 0);
  }

  /** The shared HTTP client: the static retry counter and the request the
      client is set to. */
  class ApiClient {
    var retries: nat
    var request: Request

    /** A fresh client: no failures counted and no endpoint set yet. */
    constructor ()
      ensures retries == 0 && request == Request(Get, [])
    {
      retries := 0;
      request := Request(Get, []);
    }

    /** `http_retries_available`: counts one more failure and allows a
        retry while at most three were counted; otherwise resets the
        counter and fails. */
    method RetriesAvailable() returns (err: int)
      modifies this
      ensures request == old(request)
      ensures old(retries) + 1 <= RetriesErrConn ==> err == EspOk && retries == old(retries) + 1
      ensures old(retries) + 1 > RetriesErrConn ==> err == EspFail && retries == 0
    {
      retries := retries + 1;
      if retries <= RetriesErrConn {
        return EspOk;
      }
      retries := 0;
      return EspFail;
    }

    /** The `retry:` loop from outcome `i` on. */
    method Perform(outs: seq<PerformResult>, i: nat) returns (r: AttemptResult)
      requires i <= |outs|
      modifies this
      ensures r == Attempt(old(retries), outs, i) && request == old(request)
      ensures r.Pending? ==> retries == r.retries
      ensures !r.Pending? ==> retries == 0
    {
      var j := i;
      while true
        invariant i <= j <= |outs| && request == old(request)
        invariant Attempt(retries, outs, j) == Attempt(old(retries), outs, i)
        decreases |outs| - j
      {
        if j == |outs| {
          return Pending(retries);
        }
        match outs[j]
        case Response(s, len) =>
          retries := 0;
          return Answered(s, len, j + 1);
        case TransportError(e) =>
          var ok := RetriesAvailable();
          if ok != EspOk {
            return GaveUp(e, j + 1);
          }
          j := j + 1;
      }
    }

    /** `player_cmd(cmd, NULL, &status)` with `isPlaying` the cached
        track's playing flag. */
    method PlayerCmd(cmd: Command, isPlaying: bool, outs: seq<PerformResult>) returns (r: CmdResult)
      modifies this
      ensures r == PlayerCmdSpec(cmd, isPlaying, old(request), old(retries), outs)
      ensures r.Done? ==> request == r.req && retries == r.retries
    {
      var resolved := Resolve(cmd, isPlaying, request);
      if resolved.None? {
        return Done(EspFail, 0, request, retries);
      }
      request := resolved.value;
      var sCode := 0;
      var i := 0;
      while true
        invariant i <= |outs|
        invariant RunCmd(cmd.PauseUnpause?, request, sCode, retries, outs, i)
          == PlayerCmdSpec(cmd, isPlaying, old(request), old(retries), outs)
        decreases |outs| - i
      {
        var a := Perform(outs, i);
        if a.Pending? {
          return CmdPending;
        }
        var err := if a.Answered? then EspOk else a.err;
        if a.Answered? {
          sCode := a.status;
        }
        if sCode == StatusForbidden && cmd.PauseUnpause? {
          request := Flip(request);
          i := a.next;
          continue;
        }
        return Done(err, sCode, request, retries);
      }
    }
  }

  /** `BearerPrefix`: what the token buffer holds before any token. */
  const BearerPrefix: string := "Bearer "

  /** `access_token_empty`: the token string is as long as the prefix. */
  predicate AccessTokenEmpty(value: string)
    ensures |value| >= |BearerPrefix| && value[..|BearerPrefix|] == BearerPrefix ==>
      (AccessTokenEmpty(value) <==> value == BearerPrefix)
  {
    |value| == |BearerPrefix|
  }

  /** A token buffer holding `"Bearer "` and a credential counts as empty
      exactly when the credential is. */
  lemma TokenEmptyIffNoCredential(credential: string)
    ensures AccessTokenEmpty(BearerPrefix + credential) <==> credential == []
  {
  }

  /** What a request reports: its error code and the status code written
      to the caller's `status_code`. */
  datatype Reply = Reply(err: int, status: int)

  /** `spotify_play_context_uri` as written: the status read after a
      successful perform lands in an inner variable that shadows the one
      reported, so the reported status is always 0. */
  function PlayContextUriAsWritten(tokenEmpty: bool, tokenErr: int, retries: nat, outs: seq<PerformResult>): (r: Option<Reply>)
    ensures r.Some? ==> r.value.status == 0
  {
    if tokenEmpty && tokenErr != EspOk then Some(Reply(tokenErr, 0))
    else match Attempt(retries, outs, 0)
      case Pending(_) => None
      case Answered(_, _, _) => Some(Reply(EspOk, 0))
      case GaveUp(e, _) => Some(Reply(e, 0))
  }

  /** `spotify_play_context_uri` reporting the status it read. */
  function PlayContextUri(tokenEmpty: bool, tokenErr: int, retries: nat, outs: seq<PerformResult>): (r: Option<Reply>)
    ensures tokenEmpty && tokenErr != EspOk ==> r == Some(Reply(tokenErr, 0))
    ensures !(tokenEmpty && tokenErr != EspOk) ==> (r.None? <==> Attempt(retries, outs, 0).Pending?)
    ensures r.Some? && r.value.status != 0 ==> r.value.err == EspOk
    ensures !(tokenEmpty && tokenErr != EspOk) && Attempt(retries, outs, 0).Answered? ==>
      r == Some(Reply(EspOk, Attempt(retries, outs, 0).status))
  {
    if tokenEmpty && tokenErr != EspOk then Some(Reply(tokenErr, 0))
    else match Attempt(retries, outs, 0)
      case Pending(_) => None
      case Answered(s, _, _) => Some(Reply(EspOk, s))
      case GaveUp(e, _) => Some(Reply(e, 0))
  }

  /** With the shadowing removed the caller learns the server's answer
      whenever the request was answered; as written it never does, and the
      two agree on everything else. */
  lemma PlayContextStatusReported(tokenEmpty: bool, tokenErr: int, retries: nat, outs: seq<PerformResult>)
    requires !(tokenEmpty && tokenErr != EspOk)
    ensures var a := Attempt(retries, outs, 0);
      && (a.Answered? ==> PlayContextUri(tokenEmpty, tokenErr, retries, outs) == Some(Reply(EspOk, a.status)))
      && (!a.Answered? ==> PlayContextUri(tokenEmpty, tokenErr, retries, outs) == PlayContextUriAsWritten(tokenEmpty, tokenErr, retries, outs))
  {
  }

  /** A refused play request (404: no active device) is reported as
      status 0 as written. */
  lemma PlayContextStatusLostAsWritten(len: int)
    ensures PlayContextUriAsWritten(false, EspOk, 0, [Response(404, len)]) == Some(Reply(EspOk, 0))
    ensures PlayContextUri(false, EspOk, 0, [Response(404, len)]) == Some(Reply(EspOk, 404))
  {
    assert Attempt(0, [Response(404, len)], 0) == Answered(404, len, 1);
  }

  /** The value `fetch_album_cover` returns: the bytes received when the
      cover was answered with 200 and announced no more than fits, ESP_FAIL
      when there is no output buffer, no cover URL, a refusal, an oversized
      image or no connection. */
  function AlbumCoverResult(hasBuffer: bool, hasUrl: bool, a: AttemptResult, receivedSize: nat, bufSize: nat): (r: int)
    requires hasBuffer && hasUrl ==> !a.Pending?
    ensures r != EspFail <==>
      hasBuffer && hasUrl && a.Answered? && a.status == StatusOk && a.contentLength <= bufSize
    ensures r != EspFail ==> r == receivedSize
  {
    if !hasBuffer || !hasUrl then EspFail
    else match a
      case Answered(status, len, _) =>
        if len > bufSize then EspFail
        else if status != StatusOk then EspFail
        else receivedSize
      case GaveUp(_, _) => EspFail
  }
}
