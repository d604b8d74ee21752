/** The two HTTP response consumers of handler_callbacks.c. Each keeps a
    static write cursor (`output_len`) across the events of one response and
    writes into the buffer that `http_data_t` hands to it. */
module HttpHandlers {
  import opened Common
  import TrimCopy

  /** The events the ESP-IDF HTTP client delivers to a handler. `chunked`
      is what `esp_http_client_is_chunked_response` reports, `tlsError` whether
      `esp_tls_get_and_clear_last_error` reported an error at disconnect. */
  datatype HttpEvent =
    | OnData(data: seq<char>, chunked: bool)
    | OnFinish
    | Disconnected(tlsError: bool)
    | OnHeader
    | OnError
    | OnRedirect

  /** `http_data_t`: the response buffer and the size last reported. */
  class HttpData {
    var buffer: array<char>
    var receivedSize: nat

    constructor (capacity: nat)
      ensures fresh(buffer) && buffer.Length == capacity && receivedSize == 0
    {
      buffer := new char[capacity](_ => '\0');
      receivedSize := 0;
    }
  }

  /** `memcpy(buf + at, data, |data|)`. */
  method CopyAt(buf: array<char>, at: nat, data: seq<char>)
    requires at + |data| <= buf.Length
    modifies buf
    ensures buf[..] == old(buf[..at]) + data + old(buf[at + |data|..])
  {
    var i := 0;
    while i < |data|
      invariant 0 <= i <= |data|
      invariant buf[..] == old(buf[..at]) + data[..i] + old(buf[at + i..])
    {
      buf[at + i] := data[i];
      i := i + 1;
      assert data[..i] == data[..i - 1] + [data[i - 1]];
    }
    assert data[..i] == data;
  }

  /** `output_len` after one data event of `json_http_handler_cb` as written:
      the trim copy is offered all `size - outputLen` remaining bytes. */
  function JsonLenAfterDataAsWritten(outputLen: nat, size: nat, data: seq<char>): (n: nat)
    requires outputLen <= size
    ensures outputLen <= n <= size
  {
    outputLen + |TrimCopy.Trimmed(data, size - outputLen)|
  }

  /** As written, one response of `size` non-whitespace bytes fills the whole
      buffer, so the finish event's `buffer[output_len] = 0` stores at index
      `size`, one past the last element. */
  lemma JsonFinishOverrunsAsWritten(size: nat)
    requires size > 0
    ensures JsonLenAfterDataAsWritten(0, size, Repeat('x', size)) == size
  {
    var chunk := Repeat('x', size);
    TrimCopy.MinifiedCopiedUnchanged(chunk, size, size);
    assert chunk[..size] == chunk;
  }

  /** `json_http_handler_cb` with one byte kept back for the terminating NUL:
      each data event trims the chunk into the room left before the last byte,
      so the NUL stored at finish always lies inside the buffer. */
  class JsonHandler {
    var outputLen: nat

    constructor ()
      ensures outputLen == 0
    {
      outputLen := 0;
    }

    /** The response accumulated so far. */
    function Contents(http: HttpData): seq<char>
      reads this, http, http.buffer
      requires outputLen <= http.buffer.Length
    {
      http.buffer[..outputLen]
    }

    method Handle(http: HttpData, evt: HttpEvent)
      requires outputLen < http.buffer.Length
      modifies this, http, http.buffer
      ensures http.buffer == old(http.buffer) && outputLen < http.buffer.Length
      ensures evt.OnData? ==>
        && Contents(http) == old(Contents(http)) + TrimCopy.Trimmed(evt.data, http.buffer.Length - 1 - old(outputLen))
        && http.receivedSize == outputLen
        && http.buffer[outputLen..] == old(http.buffer[..])[outputLen..]
      ensures (evt.OnFinish? || evt == Disconnected(true)) ==>
        && outputLen == 0 && http.receivedSize == old(http.receivedSize)
        && http.buffer[..] == old(http.buffer[..])[old(outputLen) := '\0']
      ensures !(evt.OnData? || evt.OnFinish? || evt == Disconnected(true)) ==>
        && outputLen == old(outputLen) && http.receivedSize == old(http.receivedSize)
        && http.buffer[..] == old(http.buffer[..])
    {
      match evt
      case OnData(data, _) =>
        var stored := TrimCopy.MemcpyTrimmed(http.buffer, outputLen, http.buffer.Length - 1 - outputLen, data);
        outputLen := outputLen + stored;
        http.receivedSize := outputLen;
        assert http.buffer[..outputLen] == old(http.buffer[..outputLen]) + http.buffer[old(outputLen)..outputLen];
      case OnFinish =>
        http.buffer[outputLen] := '\0';
        outputLen := 0;
      case Disconnected(tlsError) =>
        if tlsError {
          http.buffer[outputLen] := '\0';
          outputLen := 0;
        }
      case _ =>
    }
  }

  /** `esp_http_client_event_handler`, the raw copier used for album art:
      it copies `min(data_len, buffer_size - output_len)` bytes, stores nothing
      for chunked responses and rewinds on finish and on every disconnect. */
  class RawHandler {
    var outputLen: nat

    constructor ()
      ensures outputLen == 0
    {
      outputLen := 0;
    }

    function Contents(http: HttpData): seq<char>
      reads this, http, http.buffer
      requires outputLen <= http.buffer.Length
    {
      http.buffer[..outputLen]
    }

    method Handle(http: HttpData, evt: HttpEvent)
      requires outputLen <= http.buffer.Length
      modifies this, http, http.buffer
      ensures http.buffer == old(http.buffer) && outputLen <= http.buffer.Length
      ensures (evt.OnData? && !evt.chunked) ==>
        var n := if |evt.data| < http.buffer.Length - old(outputLen) then |evt.data| else http.buffer.Length - old(outputLen);
        && Contents(http) == old(Contents(http)) + evt.data[..n]
        && http.receivedSize == outputLen
        && http.buffer[outputLen..] == old(http.buffer[..])[outputLen..]
      ensures (evt.OnFinish? || evt.Disconnected?) ==>
        outputLen == 0 && http.receivedSize == old(http.receivedSize) && http.buffer[..] == old(http.buffer[..])
      ensures !((evt.OnData? && !evt.chunked) || evt.OnFinish? || evt.Disconnected?) ==>
        outputLen == old(outputLen) && http.receivedSize == old(http.receivedSize) && http.buffer[..] == old(http.buffer[..])
    {
      match evt
      case OnData(data, chunked) =>
        if chunked {
          return;
        }
        var copyLen := if |data| < http.buffer.Length - outputLen then |data| else http.buffer.Length - outputLen;
        if copyLen != 0 {
          CopyAt(http.buffer, outputLen, data[..copyLen]);
        }
        outputLen := outputLen + copyLen;
        http.receivedSize := outputLen;
      case OnFinish =>
        outputLen := 0;
      case Disconnected(_) =>
        outputLen := 0;
      case _ =>
    }
  }
}
