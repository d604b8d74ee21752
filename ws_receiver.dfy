/** `default_ws_handler_cb` of handler_callbacks.c: it reassembles the text
    and binary frames of one WebSocket message (RFC 6455 section 5.2) into
    the shared receive buffer at each frame's payload offset, NUL-terminates
    the message when its last bytes arrive and raises `WS_DATA_EVENT`. Before
    the first frame of a message it waits for `WS_READY_FOR_DATA`, the
    player task's sign that the buffer is free; a static `lock` remembers
    that the wait is done until the message is complete. */
module WsReceiver {
  import opened Common
  import opened EventBits
  import HttpHandlers

  /** Opcodes of RFC 6455 section 5.2 the callback tells apart. */
  const OpText: int := 0x1
  const OpBinary: int := 0x2
  const OpPong: int := 0xA

  /** The WebSocket client's events. A data event carries the frame's
      opcode, where its bytes go in the message (`payloadOffset`), the
      message length and the bytes themselves. */
  datatype WsEvent =
    | WsConnected
    | WsDisconnected
    | WsClosed
    | WsFrame(opcode: int, payloadOffset: nat, payloadLen: nat, bytes: seq<char>)
    | WsError

  /** How one callback ends: it returned, it is still blocked waiting for
      `WS_READY_FOR_DATA`, or the buffer-size `assert` stopped the program. */
  datatype Outcome = Handled | Waiting | Aborted

  /** A frame whose bytes are copied: text or binary. Pong and every other
      opcode (continuation and control frames included) are not copied. */
  predicate Copied(opcode: int)
  {
    opcode == OpText || opcode == OpBinary
  }

  /** The part of the event group and the lock that frames work on. */
  datatype Gate = Gate(bits: set<Bit>, lock: bool)

  /** The lock/ready decision for one copied frame; `last` says that the
      frame ends the message. `None`: the callback blocks, because no
      message is in progress and the buffer has not been handed back. */
  function Admit(g: Gate, last: bool): (r: Option<Gate>)
    ensures r.None? <==> !g.lock && WsReadyForData !in g.bits
    ensures r.Some? ==> (r.value.lock <==> !last)
    ensures r.Some? ==> (WsData in r.value.bits <==> last || WsData in g.bits)
    ensures r.Some? ==> (WsReadyForData in r.value.bits <==> g.lock && WsReadyForData in g.bits)
    ensures r.Some? ==> r.value.bits - {WsData, WsReadyForData} == g.bits - {WsData, WsReadyForData}
  {
    if !g.lock && WsReadyForData !in g.bits then None
    else
      var taken := if g.lock then g.bits else g.bits - {WsReadyForData};
      if last then Some(Gate(taken + {WsData}, false)) else Some(Gate(taken, true))
  }

  /** The frames of one message, admitted in turn with nothing else touching
      the group in between. */
  function AdmitAll(g: Gate, lasts: seq<bool>): Option<Gate>
    decreases |lasts|
  {
    if lasts == [] then Some(g)
    else match Admit(g, lasts[0])
      case None => None
      case Some(g1) => AdmitAll(g1, lasts[1..])
  }

  /** The end flags of a message of `k + 1` frames. */
  function MessageLasts(k: nat): (r: seq<bool>)
    ensures |r| == k + 1 && r[k] && forall j :: 0 <= j < k ==> !r[j]
  {
    Repeat(false, k) + [true]
  }

  lemma {:induction false} HeldFrames(g: Gate, k: nat)
    requires g.lock
    ensures AdmitAll(g, MessageLasts(k)) == Some(Gate(g.bits + {WsData}, false))
  {
    var m := MessageLasts(k);
    if k > 0 {
      assert m[1..] == MessageLasts(k - 1);
      HeldFrames(g, k - 1);
    }
  }

  /** A message of any number of frames, received while the buffer is
      free, takes the ready token exactly once, holds the lock to its end,
      and finishes unlocked with `WS_DATA_EVENT` set. */
  lemma {:induction false} MessageTakesOneReady(g: Gate, k: nat)
    requires !g.lock && WsReadyForData in g.bits
    ensures AdmitAll(g, MessageLasts(k)) == Some(Gate(g.bits - {WsReadyForData} + {WsData}, false))
  {
    var m := MessageLasts(k);
    if k > 0 {
      assert m[1..] == MessageLasts(k - 1);
      HeldFrames(Gate(g.bits - {WsReadyForData}, true), k - 1);
    }
  }

  /** A message that starts while the buffer is still owned by the player
      task blocks at its first frame. */
  lemma MessageWaitsForBuffer(g: Gate, k: nat)
    requires !g.lock && WsReadyForData !in g.bits
    ensures AdmitAll(g, MessageLasts(k)).None?
  {
  }

  /** `memcpy(buf + off, bytes, |bytes|)` on the buffer's contents. */
  function Write(buf: seq<char>, off: nat, bytes: seq<char>): (r: seq<char>)
    requires off + |bytes| <= |buf|
    ensures |r| == |buf| && r[off..off + |bytes|] == bytes
    ensures r[..off] == buf[..off] && r[off + |bytes|..] == buf[off + |bytes|..]
  {
    buf[..off] + bytes + buf[off + |bytes|..]
  }

  /** The parts of a message laid end to end. */
  function Concat(parts: seq<seq<char>>): seq<char>
    decreases |parts|
  {
    if parts == [] then [] else parts[0] + Concat(parts[1..])
  }

  /** Writing the frames of a message in order, each at the offset where
      the previous one ended. */
  function WriteAll(buf: seq<char>, off: nat, parts: seq<seq<char>>): (r: seq<char>)
    requires off + |Concat(parts)| <= |buf|
    ensures |r| == |buf|
    decreases |parts|
  {
    if parts == [] then buf
    else WriteAll(Write(buf, off, parts[0]), off + |parts[0]|, parts[1..])
  }

  /** Frames written at consecutive offsets reassemble the message. */
  lemma {:induction false} Reassembled(buf: seq<char>, off: nat, parts: seq<seq<char>>)
    requires off + |Concat(parts)| <= |buf|
    ensures var r := WriteAll(buf, off, parts);
      && r[off..off + |Concat(parts)|] == Concat(parts)
      && r[..off] == buf[..off]
      && r[off + |Concat(parts)|..] == buf[off + |Concat(parts)|..]
    decreases |parts|
  {
    if parts != [] {
      var w := Write(buf, off, parts[0]);
      var n := off + |parts[0]|;
      Reassembled(w, n, parts[1..]);
      var r := WriteAll(w, n, parts[1..]);
      var total := |Concat(parts)|;
      assert r[off..n] == w[off..n] by {
        assert r[..n] == w[..n];
      }
      assert r[off..off + total] == r[off..n] + r[n..n + |Concat(parts[1..])|];
    }
  }

  lemma {:induction false} ConcatAppend(a: seq<seq<char>>, b: seq<seq<char>>)
    ensures Concat(a + b) == Concat(a) + Concat(b)
    decreases |a|
  {
    if a != [] {
      assert (a + b)[1..] == a[1..] + b;
      ConcatAppend(a[1..], b);
    } else {
      assert a + b == b;
    }
  }

  /** In a message of nonempty frames laid end to end, only the last frame
      reaches the payload length, so `WS_DATA_EVENT` is raised once per
      message. */
  lemma OnlyLastCompletes(parts: seq<seq<char>>, k: nat)
    requires k < |parts| && forall j :: 0 <= j < |parts| ==> parts[j] != []
    ensures |Concat(parts[..k])| + |parts[k]| == |Concat(parts)| <==> k == |parts| - 1
  {
    assert parts == parts[..k] + ([parts[k]] + parts[k + 1..]);
    ConcatAppend(parts[..k], [parts[k]] + parts[k + 1..]);
    assert ([parts[k]] + parts[k + 1..])[1..] == parts[k + 1..];
    if k < |parts| - 1 {
      assert Concat(parts[k + 1..]) == parts[k + 1] + Concat(parts[k + 2..]);
    } else {
      assert parts[k + 1..] == [];
    }
  }

  /** The callback's static `lock`. */
  class Receiver {
    var lock: bool

    constructor ()
      ensures !lock
    {
      lock := false;
    }

    /** `default_ws_handler_cb` with `buf` the shared receive buffer. The
        client delivers each frame inside its message. */
    method Handle(group: EventGroup, buf: array<char>, evt: WsEvent) returns (outcome: Outcome)
      requires evt.WsFrame? ==> evt.payloadOffset + |evt.bytes| <= evt.payloadLen
      modifies this, group, buf
      ensures (evt.WsConnected? || evt.WsDisconnected? || evt.WsClosed?) ==>
        && outcome == Handled && lock == old(lock) && buf[..] == old(buf[..])
        && group.bits == old(group.bits) + {if evt.WsConnected? then WsConnect else WsDisconnect}
      ensures (evt.WsError? || (evt.WsFrame? && !Copied(evt.opcode))) ==>
        outcome == Handled && lock == old(lock) && buf[..] == old(buf[..]) && group.bits == old(group.bits)
      ensures evt.WsFrame? && Copied(evt.opcode) ==>
        var last := evt.payloadOffset + |evt.bytes| == evt.payloadLen;
        var admitted := Admit(Gate(old(group.bits), old(lock)), last);
        && (admitted.None? ==>
              outcome == Waiting && lock == old(lock) && buf[..] == old(buf[..]) && group.bits == old(group.bits))
        && (admitted.Some? && evt.payloadLen + 1 > buf.Length ==> outcome == Aborted)
        && (admitted.Some? && evt.payloadLen + 1 <= buf.Length ==>
              && outcome == Handled
              && Gate(group.bits, lock) == admitted.value
              && var copied := Write(old(buf[..]), evt.payloadOffset, evt.bytes);
                 buf[..] == if last then copied[evt.payloadLen := '\0'] else copied)
    {
      outcome := Handled;
      match evt
      case WsConnected =>
        group.SetBits({WsConnect});
      case WsDisconnected =>
        group.SetBits({WsDisconnect});
      case WsClosed =>
        group.SetBits({WsDisconnect});
      case WsError =>
      case WsFrame(opcode, offset, payloadLen, bytes) =>
        if opcode == OpPong {
          return Handled;
        }
        if Copied(opcode) {
          if !lock {
            if WsReadyForData !in group.bits {
              return Waiting;
            }
            var _ := group.TakeBits({WsReadyForData});
            lock := true;
          }
          if payloadLen + 1 > buf.Length {
            return Aborted;
          }
          HttpHandlers.CopyAt(buf, offset, bytes);
          if offset + |bytes| == payloadLen {
            buf[payloadLen] := '\0';
            lock := false;
            group.SetBits({WsData});
          }
        }
    }
  }
}
