/** `playlists_handler_cb` of spotify_client.c: the response to the playlist
    request is too large to hold, so the handler skips everything up to the
    `"items"` key and then cuts the array that follows into its top-level
    objects, one at a time, by counting braces. Each object is stored (with
    the same whitespace elision as the trim copy) at the front of the shared
    buffer and handed on as one playlist. The key flag, the brace depth and
    the write cursor live across data events. */
module PlaylistSlicer {
  import opened Common
  import TrimCopy
  import HttpHandlers

  /** The key the handler looks for, quotes included. */
  const ItemsKey: seq<char> := "\"items\""

  /** The key occurs in `s` starting at index `j`. */
  predicate KeyAt(s: seq<char>, j: nat)
  {
    j + |ItemsKey| <= |s| && s[j..j + |ItemsKey|] == ItemsKey
  }

  /** `memmem(s, |s|, ItemsKey, 7)` searching from index `from`: the first
      occurrence, if any. */
  function FindKey(s: seq<char>, from: nat): (r: Option<nat>)
    decreases |s| - from
    ensures r.Some? ==> from <= r.value && KeyAt(s, r.value)
    ensures r.Some? ==> forall j :: from <= j < r.value ==> !KeyAt(s, j)
    ensures r.None? ==> forall j :: from <= j ==> !KeyAt(s, j)
  {
    if from + |ItemsKey| > |s| then None
    else if s[from..from + |ItemsKey|] == ItemsKey then Some(from)
    else FindKey(s, from + 1)
  }

  /** The part of a data chunk the brace scanner reads: all of it once the
      key has been seen, otherwise what follows the first key in the chunk,
      and nothing at all when the chunk does not hold the key. */
  function Window(inItems: bool, data: seq<char>): (w: Option<seq<char>>)
    ensures inItems ==> w == Some(data)
    ensures !inItems && w.Some? ==> exists j: nat :: KeyAt(data, j) && w.value == data[j + |ItemsKey|..]
    ensures !inItems && w.None? <==> !inItems && forall j :: !KeyAt(data, j)
  {
    if inItems then Some(data)
    else match FindKey(data, 0)
      case None => None
      case Some(k) => Some(data[k + |ItemsKey|..])
  }

  /** Scanner state: the buffer contents, the write cursor
      (`received_size`), the brace depth (`brace_count`), the objects emitted
      so far and whether the store guard has failed (the `assert` that
      stops the program). */
  datatype Scan = Scan(buf: seq<char>, size: nat, depth: int, items: seq<seq<char>>, failed: bool)

  /** The opening-brace part of one byte (spotify_client.c:916-924): a `{`
      deepens the nesting and, at depth 0, rewinds the cursor to start a new
      element. */
  function Enter(c: char, s: Scan): (r: Scan)
    ensures r.buf == s.buf && r.items == s.items && r.failed == s.failed && r.size <= s.size
    ensures r.depth == s.depth + (if c == '{' then 1 else 0)
  {
    if c == '{' then s.(size := if s.depth == 0 then 0 else s.size, depth := s.depth + 1) else s
  }

  /** The store part (spotify_client.c:925-929): inside an element the byte
      is stored at the cursor, unless the guard finds no room for it and the
      NUL that may follow. */
  function Store(c: char, s: Scan): (r: Scan)
    requires s.size <= |s.buf|
    ensures |r.buf| == |s.buf| && r.size <= |r.buf| && r.depth == s.depth && r.items == s.items
    ensures r.failed <==> s.failed || (s.depth > 0 && s.size + 1 >= |s.buf|)
    ensures !r.failed && r.depth > 0 ==> r.size < |r.buf|
  {
    if s.failed || s.depth <= 0 then s
    else if s.size + 1 >= |s.buf| then s.(failed := true)
    else s.(buf := s.buf[s.size := c], size := s.size + 1)
  }

  /** The closing-brace part (spotify_client.c:930-944): a `}` that brings
      the depth back to 0 terminates the stored element, appends it to the
      list and rewinds the cursor. */
  function Leave(c: char, s: Scan): (r: Scan)
    requires s.size <= |s.buf|
    requires !s.failed && s.depth > 0 ==> s.size < |s.buf|
    ensures |r.buf| == |s.buf| && r.size <= |r.buf| && r.failed == s.failed
    ensures s.items <= r.items && |r.items| <= |s.items| + 1
  {
    if s.failed || c != '}' then s
    else if s.depth - 1 == 0 then Scan(s.buf[s.size := '\0'], 0, 0, s.items + [s.buf[..s.size]], false)
    else s.(depth := s.depth - 1)
  }

  /** One byte of the loop at spotify_client.c:899-945: a byte the elision
      rules skip changes nothing, any other goes through the three parts. */
  function Step(src: seq<char>, i: nat, s: Scan): (r: Scan)
    requires i < |src| && s.size <= |s.buf|
    ensures |r.buf| == |s.buf| && r.size <= |r.buf|
    ensures s.items <= r.items && (s.failed ==> r == s)
  {
    if s.failed || TrimCopy.Dropped(src, i, s.buf[..s.size]) then s
    else Leave(src[i], Store(src[i], Enter(src[i], s)))
  }

  /** The element boundaries of one byte that is not skipped: outside an
      element nothing is stored, a `{` at depth 0 restarts the stored text
      at `{`, and the `}` that closes an element appends the stored text
      with that brace, terminates it with NUL and rewinds the cursor. */
  lemma StepBoundaries(src: seq<char>, i: nat, s: Scan)
    requires i < |src| && s.size <= |s.buf| && !s.failed
    requires !TrimCopy.Dropped(src, i, s.buf[..s.size])
    ensures var r := Step(src, i, s);
      && (s.depth < 0 || (s.depth == 0 && src[i] != '{') ==>
            r.buf == s.buf && r.size == s.size && r.items == s.items && !r.failed)
      && (s.depth == 0 && src[i] == '{' && |s.buf| >= 2 ==>
            r.size == 1 && r.buf[0] == '{' && r.depth == 1 && r.items == s.items)
      && (s.depth == 1 && src[i] == '}' && s.size + 1 < |s.buf| ==>
            && r.items == s.items + [s.buf[..s.size] + ['}']]
            && r.buf[s.size + 1] == '\0' && r.size == 0 && r.depth == 0)
      && (s.depth > 0 && s.size + 1 >= |s.buf| ==> r.failed)
  {
    var c := src[i];
    if s.depth == 1 && c == '}' && s.size + 1 < |s.buf| {
      assert s.buf[s.size := c][..s.size + 1] == s.buf[..s.size] + [c];
    }
  }

  /** The state after the first `n` bytes of `src`. */
  function Run(src: seq<char>, n: nat, s0: Scan): (r: Scan)
    requires n <= |src| && s0.size <= |s0.buf|
    ensures |r.buf| == |s0.buf| && r.size <= |r.buf| && s0.items <= r.items
  {
    if n == 0 then s0 else Step(src, n - 1, Run(src, n - 1, s0))
  }

  /** Once the guard has failed the program has stopped: nothing after it
      changes the state. */
  lemma {:induction false} FailureStops(src: seq<char>, i: nat, n: nat, s0: Scan)
    requires i <= n <= |src| && s0.size <= |s0.buf|
    requires Run(src, i, s0).failed
    ensures Run(src, n, s0) == Run(src, i, s0)
  {
    if n > i {
      FailureStops(src, i, n - 1, s0);
    }
  }

  /** How a byte moves the brace depth. */
  function Delta(c: char): int
  {
    if c == '{' then 1 else if c == '}' then -1 else 0
  }

  /** The depth after reading `s` from depth `d`. */
  function DepthAfter(d: int, s: seq<char>): int
  {
    if s == [] then d else DepthAfter(d, s[..|s| - 1]) + Delta(s[|s| - 1])
  }

  /** How many closing braces in `s`, read from depth `d`, bring the depth
      back from 1 to 0: the top-level elements that end in `s`. */
  function Closes(d: int, s: seq<char>): nat
  {
    if s == [] then 0
    else Closes(d, s[..|s| - 1]) + (if s[|s| - 1] == '}' && DepthAfter(d, s[..|s| - 1]) == 1 then 1 else 0)
  }

  /** One playlist is emitted per top-level element that closes, and the
      depth follows the braces alone: whitespace elision never touches a
      brace. */
  lemma {:induction false} EmitsOnePerElement(src: seq<char>, n: nat, s0: Scan)
    requires n <= |src| && s0.size <= |s0.buf| && !s0.failed
    ensures var r := Run(src, n, s0);
      !r.failed ==> r.depth == DepthAfter(s0.depth, src[..n]) && |r.items| == |s0.items| + Closes(s0.depth, src[..n])
  {
    if n > 0 {
      EmitsOnePerElement(src, n - 1, s0);
      assert src[..n][..n - 1] == src[..n - 1];
    }
  }

  /** Depth is additive over the concatenation of chunks. */
  lemma {:induction false} DepthAfterAppend(d: int, a: seq<char>, b: seq<char>)
    ensures DepthAfter(d, a + b) == DepthAfter(DepthAfter(d, a), b)
    decreases |b|
  {
    if b != [] {
      assert (a + b)[..|a + b| - 1] == a + b[..|b| - 1];
      DepthAfterAppend(d, a, b[..|b| - 1]);
    } else {
      assert a + b == a;
    }
  }

  /** The count does not depend on where the response was cut into chunks:
      the elements closed in `a + b` are those closed in `a` and those closed
      in `b` read from the depth `a` left behind. */
  lemma {:induction false} ClosesAppend(d: int, a: seq<char>, b: seq<char>)
    ensures Closes(d, a + b) == Closes(d, a) + Closes(DepthAfter(d, a), b)
    decreases |b|
  {
    if b != [] {
      assert (a + b)[..|a + b| - 1] == a + b[..|b| - 1];
      ClosesAppend(d, a, b[..|b| - 1]);
      DepthAfterAppend(d, a, b[..|b| - 1]);
    } else {
      assert a + b == a;
    }
  }

  /** Brace balance of a stored text. */
  function Net(s: seq<char>): int
  {
    if s == [] then 0 else Net(s[..|s| - 1]) + Delta(s[|s| - 1])
  }

  /** Every nonempty prefix of `s` has more opening than closing braces. */
  predicate Open(s: seq<char>)
  {
    s == [] || (Open(s[..|s| - 1]) && Net(s) > 0)
  }

  /** A single top-level element: balanced as a whole and open at every
      point before its last byte. */
  predicate Element(s: seq<char>)
  {
    |s| >= 2 && Open(s[..|s| - 1]) && Net(s) == 0
  }

  /** What the scanner keeps true: inside an element the stored text is
      the open part of that element, at the depth it reached. */
  predicate Inv(s: Scan)
  {
    && s.size <= |s.buf|
    && (!s.failed && s.depth > 0 ==> Net(s.buf[..s.size]) == s.depth && Open(s.buf[..s.size]))
    && forall k :: 0 <= k < |s.items| ==> Element(s.items[k])
  }

  /** An element starts with `{` and ends with `}`. */
  lemma {:induction false} ElementShape(s: seq<char>)
    requires Element(s)
    ensures s[0] == '{' && s[|s| - 1] == '}'
  {
    var p := s[..|s| - 1];
    OpenStartsWithBrace(p);
    assert s == p + [s[|s| - 1]];
    NetSnoc(p, s[|s| - 1]);
    assert s[0] == p[0];
  }

  lemma {:induction false} OpenStartsWithBrace(p: seq<char>)
    requires p != [] && Open(p)
    ensures p[0] == '{'
    decreases |p|
  {
    if |p| == 1 {
      assert Net(p) == Net(p[..0]) + Delta(p[0]);
    } else {
      OpenStartsWithBrace(p[..|p| - 1]);
    }
  }

  lemma NetSnoc(p: seq<char>, c: char)
    ensures Net(p + [c]) == Net(p) + Delta(c) && (p + [c])[..|p|] == p
  {
    assert (p + [c])[..|p + [c]| - 1] == p;
  }

  /** One step keeps the invariant. */
  lemma StepKeepsInv(src: seq<char>, i: nat, s: Scan)
    requires i < |src| && Inv(s)
    ensures Inv(Step(src, i, s))
  {
    if !(s.failed || TrimCopy.Dropped(src, i, s.buf[..s.size])) {
      var c := src[i];
      var e := Enter(c, s);
      var t := Store(c, e);
      if !t.failed && e.depth > 0 {
        var p := e.buf[..e.size];
        assert t.buf[..t.size] == p + [c];
        NetSnoc(p, c);
        if c == '{' && s.depth == 0 {
          assert p == [];
        }
        assert Net(p + [c]) == (if c == '{' then e.depth else e.depth + Delta(c));
        var r := Leave(c, t);
        assert r == Step(src, i, s);
        if c == '}' && t.depth == 1 {
          assert p != [];
          assert Element(p + [c]);
        } else if r.depth > 0 {
          assert r.buf[..r.size] == p + [c];
          assert Net(p + [c]) == r.depth;
          assert Open(p + [c]);
        }
        assert Inv(r);
      }
    }
  }

  /** Every playlist the scanner emits is exactly one top-level element. */
  lemma {:induction false} RunKeepsInv(src: seq<char>, n: nat, s0: Scan)
    requires n <= |src| && Inv(s0)
    ensures Inv(Run(src, n, s0))
  {
    if n > 0 {
      RunKeepsInv(src, n - 1, s0);
      StepKeepsInv(src, n - 1, Run(src, n - 1, s0));
    }
  }

  /** The handler's static variables and the list it appends to. */
  class Slicer {
    var inItems: bool
    var braceCount: int
    var playlists: seq<seq<char>>

    constructor ()
      ensures !inItems && braceCount == 0 && playlists == []
    {
      inItems := false;
      braceCount := 0;
      playlists := [];
    }

    /** The scanner state this handler and `http` hold. */
    function Snap(http: HttpHandlers.HttpData): Scan
      reads this, http, http.buffer
    {
      Scan(http.buffer[..], http.receivedSize, braceCount, [], false)
    }

    /** The handler's variables and `http` hold the scanner state `s`, with
        the list extended by the objects `s` emitted. */
    predicate Holds(http: HttpHandlers.HttpData, base: seq<seq<char>>, s: Scan)
      reads this, http, http.buffer
    {
      && !s.failed && http.buffer[..] == s.buf && http.receivedSize == s.size
      && braceCount == s.depth && playlists == base + s.items
    }

    /** `playlists_handler_cb`. `aborted` says the store guard stopped the
        program; the state is then of no further interest. */
    method Handle(http: HttpHandlers.HttpData, evt: HttpHandlers.HttpEvent) returns (aborted: bool)
      requires http.receivedSize <= http.buffer.Length
      modifies this, http, http.buffer
      ensures http.buffer == old(http.buffer)
      ensures evt.OnData? && Window(old(inItems), evt.data).None? ==>
        && !aborted && inItems == old(inItems) && braceCount == old(braceCount) && playlists == old(playlists)
        && http.receivedSize == old(http.receivedSize) && http.buffer[..] == old(http.buffer[..])
      ensures evt.OnData? && Window(old(inItems), evt.data).Some? ==>
        var src := Window(old(inItems), evt.data).value;
        var r := Run(src, |src|, old(Snap(http)));
        && inItems && aborted == r.failed
        && (!r.failed ==>
              && http.buffer[..] == r.buf && http.receivedSize == r.size
              && braceCount == r.depth && playlists == old(playlists) + r.items)
      ensures (evt.OnFinish? || evt.Disconnected?) ==>
        && !aborted && !inItems && braceCount == 0 && http.receivedSize == 0
        && playlists == old(playlists) && http.buffer[..] == old(http.buffer[..])
      ensures !(evt.OnData? || evt.OnFinish? || evt.Disconnected?) ==>
        && !aborted && inItems == old(inItems) && braceCount == old(braceCount) && playlists == old(playlists)
        && http.receivedSize == old(http.receivedSize) && http.buffer[..] == old(http.buffer[..])
    {
      aborted := false;
      match evt
      case OnData(data, _) =>
        var w := Window(inItems, data);
        if w.None? {
          return;
        }
        inItems := true;
        aborted := Scanner(http, w.value);
      case OnFinish =>
        http.receivedSize, inItems, braceCount := 0, false, 0;
      case Disconnected(_) =>
        http.receivedSize, inItems, braceCount := 0, false, 0;
      case _ =>
    }

    /** The brace count and cursor update of spotify_client.c:916-924. */
    method EnterByte(http: HttpHandlers.HttpData, c: char, ghost base: seq<seq<char>>, ghost s: Scan)
      requires Holds(http, base, s)
      modifies this, http
      ensures http.buffer == old(http.buffer) && inItems == old(inItems)
      ensures Holds(http, base, Enter(c, s))
    {
      if c == '{' {
        if braceCount == 0 {
          http.receivedSize := 0;
        }
        braceCount := braceCount + 1;
      }
    }

    /** The guarded store of spotify_client.c:925-929; `full` says the guard
        failed. */
    method StoreByte(http: HttpHandlers.HttpData, c: char, ghost base: seq<seq<char>>, ghost s: Scan) returns (full: bool)
      requires Holds(http, base, s) && s.size <= |s.buf|
      modifies http, http.buffer
      ensures http.buffer == old(http.buffer)
      ensures full == Store(c, s).failed
      ensures !full ==> Holds(http, base, Store(c, s))
    {
      if braceCount > 0 {
        if http.receivedSize + 1 >= http.buffer.Length {
          return true;
        }
        http.buffer[http.receivedSize] := c;
        http.receivedSize := http.receivedSize + 1;
      }
      return false;
    }

    /** The element end of spotify_client.c:930-944. */
    method LeaveByte(http: HttpHandlers.HttpData, c: char, ghost base: seq<seq<char>>, ghost s: Scan)
      requires Holds(http, base, s) && s.size <= |s.buf| && (s.depth > 0 ==> s.size < |s.buf|)
      modifies this, http, http.buffer
      ensures http.buffer == old(http.buffer) && inItems == old(inItems)
      ensures Holds(http, base, Leave(c, s))
    {
      if c == '}' {
        braceCount := braceCount - 1;
        if braceCount == 0 {
          http.buffer[http.receivedSize] := '\0';
          playlists := playlists + [http.buffer[..http.receivedSize]];
          http.receivedSize := 0;
        }
      }
    }

    /** The byte loop of the data event. */
    method Scanner(http: HttpHandlers.HttpData, src: seq<char>) returns (aborted: bool)
      requires http.receivedSize <= http.buffer.Length
      modifies this, http, http.buffer
      ensures http.buffer == old(http.buffer) && inItems == old(inItems)
      ensures var r := Run(src, |src|, old(Snap(http)));
        && aborted == r.failed
        && (!r.failed ==>
              && http.buffer[..] == r.buf && http.receivedSize == r.size
              && braceCount == r.depth && playlists == old(playlists) + r.items)
    {
      ghost var s0 := Snap(http);
      ghost var base := playlists;
      var i := 0;
      while i < |src|
        invariant 0 <= i <= |src|
        invariant http.buffer == old(http.buffer) && inItems == old(inItems) && base == old(playlists)
        invariant Holds(http, base, Run(src, i, s0))
      {
        ghost var s := Run(src, i, s0);
        var c := src[i];
        if IsSpace(c) {
          var prev := if i > 0 then src[i - 1] else '\0';
          var next := if i < |src| - 1 then src[i + 1] else '\0';
          if prev == ',' && next == '"' {
            i := i + 1;
            continue;
          }
          if prev == ':' && http.receivedSize > 1 {
            if http.buffer[http.receivedSize - 2] == '"' {
              i := i + 1;
              continue;
            }
          }
          if Structural(prev) || Structural(next) {
            i := i + 1;
            continue;
          }
        }
        assert !TrimCopy.Dropped(src, i, s.buf[..s.size]);
        EnterByte(http, c, base, s);
        var full := StoreByte(http, c, base, Enter(c, s));
        if full {
          assert Run(src, i + 1, s0).failed;
          FailureStops(src, i + 1, |src|, s0);
          return true;
        }
        LeaveByte(http, c, base, Store(c, Enter(c, s)));
        i := i + 1;
      }
      return false;
    }
  }
}
