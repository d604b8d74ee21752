/** The FreeRTOS event group that connects the UI, the WebSocket callback
    and the player task of spotify_client.c. Bit values live in a header
    outside this model, so a group's state is the set of bits that are set;
    `n & (n - 1) != 0` ("more than one bit of `n`") becomes a cardinality
    test. */
module EventBits {
  import opened Common

  datatype Bit =
    | EnablePlayer | DisablePlayer
    | WsData | WsDisconnect | WsDataConsumed | WsConnect | WsReadyForData
    | DoPlay | DoPause | DoPauseUnpause | DoPrevious | DoNext

  /** `player_bits` of `player_task`. */
  const PlayerBits: set<Bit> := {DoPlay, DoPause, DoPrevious, DoNext, DoPauseUnpause}

  /** The bits `player_task` waits for (and clears on wake-up). */
  const WaitedBits: set<Bit> := {EnablePlayer, DisablePlayer, WsData, WsDisconnect, WsDataConsumed} + PlayerBits

  /** `SendEvent_t`: what the UI may ask of the client. `OtherEvent` stands
      for any value outside the eight named ones. */
  datatype SendEvent =
    | EnablePlayerEvent | DisablePlayerEvent | DataProcessedEvent
    | DoPlayEvent | DoPauseEvent | PauseUnpauseEvent | DoNextEvent | DoPreviousEvent
    | OtherEvent(code: int)

  /** The playback commands among the events. */
  predicate IsCommand(e: SendEvent)
  {
    e.DoPlayEvent? || e.DoPauseEvent? || e.PauseUnpauseEvent? || e.DoNextEvent? || e.DoPreviousEvent?
  }

  /** The bit `spotify_dispatch_event` sets for an event, if any. */
  function BitFor(e: SendEvent): (b: Option<Bit>)
    ensures b.Some? <==> !e.OtherEvent?
    ensures b.Some? ==> (b.value in PlayerBits <==> IsCommand(e))
    ensures b.Some? ==> b.value in WaitedBits
  {
    match e
    case EnablePlayerEvent => Some(EnablePlayer)
    case DisablePlayerEvent => Some(DisablePlayer)
    case DataProcessedEvent => Some(WsDataConsumed)
    case DoPlayEvent => Some(DoPlay)
    case DoPauseEvent => Some(DoPause)
    case PauseUnpauseEvent => Some(DoPauseUnpause)
    case DoNextEvent => Some(DoNext)
    case DoPreviousEvent => Some(DoPrevious)
    case OtherEvent(_) => None
  }

  /** Distinct events set distinct bits, so the player task can tell every
      request apart. */
  lemma BitForInjective(a: SendEvent, b: SendEvent)
    requires BitFor(a).Some? && BitFor(a) == BitFor(b)
    ensures a == b
  {
    match a
    case EnablePlayerEvent =>
    case DisablePlayerEvent =>
    case DataProcessedEvent =>
    case DoPlayEvent =>
    case DoPauseEvent =>
    case PauseUnpauseEvent =>
    case DoNextEvent =>
    case DoPreviousEvent =>
  }

  /** An event group. */
  class EventGroup {
    var bits: set<Bit>

    constructor ()
      ensures bits == {}
    {
      bits := {};
    }

    /** `xEventGroupSetBits`. */
    method SetBits(b: set<Bit>)
      modifies this
      ensures bits == old(bits) + b
    {
      bits := bits + b;
    }

    /** `xEventGroupWaitBits(group, waited, pdTRUE, pdFALSE, ...)` once some
        waited bit is set: returns the waited bits that are set and clears
        them. */
    method TakeBits(waited: set<Bit>) returns (got: set<Bit>)
      modifies this
      ensures got == old(bits) * waited && bits == old(bits) - waited
    {
      got := bits * waited;
      bits := bits - waited;
    }
  }

  /** `spotify_dispatch_event`: fails before initialisation (no group) and
      for an unknown event; otherwise sets the event's bit. */
  method Dispatch(group: EventGroup?, e: SendEvent) returns (err: int)
    modifies group
    ensures group == null ==> err == EspFail
    ensures group != null && BitFor(e).None? ==> err == EspFail && group.bits == old(group.bits)
    ensures group != null && BitFor(e).Some? ==> err == EspOk && group.bits == old(group.bits) + {BitFor(e).value}
  {
    if group == null {
      return EspFail;
    }
    err := EspOk;
    match e
    case EnablePlayerEvent => group.SetBits({EnablePlayer});
    case DisablePlayerEvent => group.SetBits({DisablePlayer});
    case DataProcessedEvent => group.SetBits({WsDataConsumed});
    case DoPlayEvent => group.SetBits({DoPlay});
    case DoPauseEvent => group.SetBits({DoPause});
    case PauseUnpauseEvent => group.SetBits({DoPauseUnpause});
    case DoNextEvent => group.SetBits({DoNext});
    case DoPreviousEvent => group.SetBits({DoPrevious});
    case OtherEvent(_) => err := EspFail;
  }
}
