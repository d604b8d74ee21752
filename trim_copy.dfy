/** The whitespace-eliding copy `memcpy_trimmed` of handler_callbacks.c: it
    copies one response chunk into a bounded destination, drops whitespace the
    JSON reader does not need, and stops once the destination is full. The
    decision for each byte looks at its neighbours in the chunk (a missing
    neighbour reads as NUL) and at the byte stored two places back. */
module TrimCopy {
  import opened Common

  /** The chunk byte before index `i`, or NUL at the start of the chunk. */
  function Before(src: seq<char>, i: nat): char
    requires i < |src|
  {
    if i > 0 then src[i - 1] else '\0'
  }

  /** The chunk byte after index `i`, or NUL at the end of the chunk. */
  function After(src: seq<char>, i: nat): char
    requires i < |src|
  {
    if i + 1 < |src| then src[i + 1] else '\0'
  }

  /** Whether `src[i]` is skipped, given what has been stored so far (`out`):
      it is whitespace and it sits between `,` and `"`, or follows a `:` whose
      stored predecessor is `"`, or has a space, quote, bracket, brace or the
      chunk edge beside it. Nothing here knows about string literals. */
  predicate Dropped(src: seq<char>, i: nat, out: seq<char>)
    requires i < |src|
  {
    && IsSpace(src[i])
    && (|| (Before(src, i) == ',' && After(src, i) == '"')
        || (Before(src, i) == ':' && |out| > 1 && out[|out| - 2] == '"')
        || Structural(Before(src, i))
        || Structural(After(src, i)))
  }

  /** What has been stored after the first `n` bytes of `src` were read into
      a destination of `cap` bytes. */
  function TrimmedPrefix(src: seq<char>, n: nat, cap: nat): (out: seq<char>)
    requires n <= |src|
    ensures |out| <= n && |out| <= cap
  {
    if n == 0 then []
    else
      var o := TrimmedPrefix(src, n - 1, cap);
      if Dropped(src, n - 1, o) || |o| >= cap then o else o + [src[n - 1]]
  }

  /** What `memcpy_trimmed(dest, cap, src, |src|)` stores. */
  function Trimmed(src: seq<char>, cap: nat): (r: seq<char>)
    ensures |r| <= |src| && |r| <= cap
  {
    TrimmedPrefix(src, |src|, cap)
  }

  /** Once the destination is full nothing more is stored, so stopping early
      (the `return` on overflow) gives the same result as reading on. */
  lemma {:induction false} Saturated(src: seq<char>, i: nat, n: nat, cap: nat)
    requires i <= n <= |src|
    requires |TrimmedPrefix(src, i, cap)| >= cap
    ensures TrimmedPrefix(src, n, cap) == TrimmedPrefix(src, i, cap)
  {
    if n > i {
      Saturated(src, i, n - 1, cap);
    }
  }

  /** `memcpy_trimmed(dest + start, destSize, src, |src|)`: writes the trimmed
      chunk at `dest[start..]`, never more than `destSize` bytes, and returns
      how many bytes it stored. */
  method MemcpyTrimmed(dest: array<char>, start: nat, destSize: nat, src: seq<char>) returns (stored: nat)
    requires start + destSize <= dest.Length
    modifies dest
    ensures stored <= destSize
    ensures dest[start..start + stored] == Trimmed(src, destSize)
    ensures forall k :: 0 <= k < dest.Length && !(start <= k < start + stored) ==> dest[k] == old(dest[k])
  {
    stored := 0;
    var i := 0;
    while i < |src|
      invariant 0 <= i <= |src|
      invariant stored <= destSize
      invariant dest[start..start + stored] == TrimmedPrefix(src, i, destSize)
      invariant forall k :: 0 <= k < dest.Length && !(start <= k < start + stored) ==> dest[k] == old(dest[k])
    {
      ghost var o := TrimmedPrefix(src, i, destSize);
      if IsSpace(src[i]) {
        var prev := if i > 0 then src[i - 1] else '\0';
        var next := if i < |src| - 1 then src[i + 1] else '\0';
        if prev == ',' && next == '"' {
          i := i + 1;
          continue;
        }
        if prev == ':' && stored > 1 {
          assert dest[start + stored - 2] == o[|o| - 2];
          if dest[start + stored - 2] == '"' {
            i := i + 1;
            continue;
          }
        }
        if Structural(prev) || Structural(next) {
          i := i + 1;
          continue;
        }
      }
      assert !Dropped(src, i, o);
      if stored > destSize - 1 {
        Saturated(src, i, |src|, destSize);
        return;
      }
      dest[start + stored] := src[i];
      stored := stored + 1;
      i := i + 1;
    }
  }

  /** `a` can be obtained from `b` by deleting elements. */
  predicate Subsequence(a: seq<char>, b: seq<char>)
    decreases |b|
  {
    if a == [] then true
    else if b == [] then false
    else (a[|a| - 1] == b[|b| - 1] && Subsequence(a[..|a| - 1], b[..|b| - 1]))
         || Subsequence(a, b[..|b| - 1])
  }

  /** The trimmed copy is the chunk with some bytes deleted: nothing is
      invented and nothing is reordered. */
  lemma {:induction false} TrimmedIsSubsequence(src: seq<char>, n: nat, cap: nat)
    requires n <= |src|
    ensures Subsequence(TrimmedPrefix(src, n, cap), src[..n])
  {
    if n > 0 {
      var o := TrimmedPrefix(src, n - 1, cap);
      TrimmedIsSubsequence(src, n - 1, cap);
      assert src[..n][..n - 1] == src[..n - 1];
      if !(Dropped(src, n - 1, o) || |o| >= cap) {
        var a := o + [src[n - 1]];
        assert a[..|a| - 1] == o;
      }
    }
  }

  /** The non-whitespace bytes of `s`, in order. */
  function NonSpace(s: seq<char>): (r: seq<char>)
    ensures |r| <= |s|
  {
    if s == [] then []
    else NonSpace(s[..|s| - 1]) + (if IsSpace(s[|s| - 1]) then [] else [s[|s| - 1]])
  }

  /** Only whitespace is ever skipped: the non-whitespace bytes of the copy
      are a prefix of those of the chunk, and all of them while the
      destination has room left. */
  lemma {:induction false} TrimmedKeepsNonSpace(src: seq<char>, n: nat, cap: nat)
    requires n <= |src|
    ensures NonSpace(TrimmedPrefix(src, n, cap)) <= NonSpace(src[..n])
    ensures |TrimmedPrefix(src, n, cap)| < cap ==> NonSpace(TrimmedPrefix(src, n, cap)) == NonSpace(src[..n])
  {
    if n > 0 {
      var o := TrimmedPrefix(src, n - 1, cap);
      var c := src[n - 1];
      TrimmedKeepsNonSpace(src, n - 1, cap);
      assert src[..n][..n - 1] == src[..n - 1];
      assert NonSpace(src[..n]) == NonSpace(src[..n - 1]) + (if IsSpace(c) then [] else [c]);
      if !(Dropped(src, n - 1, o) || |o| >= cap) {
        var a := o + [c];
        assert a[..|a| - 1] == o;
        assert NonSpace(a) == NonSpace(o) + (if IsSpace(c) then [] else [c]);
      }
    }
  }

  /** A chunk without whitespace that fits is copied unchanged, so minified
      JSON passes through as it is. */
  lemma {:induction false} MinifiedCopiedUnchanged(src: seq<char>, n: nat, cap: nat)
    requires n <= |src| <= cap
    requires forall k :: 0 <= k < |src| ==> !IsSpace(src[k])
    ensures TrimmedPrefix(src, n, cap) == src[..n]
  {
    if n > 0 {
      MinifiedCopiedUnchanged(src, n - 1, cap);
      assert src[..n] == src[..n - 1] + [src[n - 1]];
    }
  }

  /** A whitespace byte at either edge of a chunk is always skipped, because
      the missing neighbour reads as NUL and `strchr` matches NUL. */
  lemma ChunkEdgeWhitespaceDropped(src: seq<char>, i: nat, out: seq<char>)
    requires i < |src| && (i == 0 || i == |src| - 1)
    requires IsSpace(src[i])
    ensures Dropped(src, i, out)
  {
  }

  /** The space after the colon of a property name is removed ... */
  lemma ColonSpaceRemoved()
    ensures Trimmed("{\"a\": 1}", 16) == "{\"a\":1}"
  {
    var s := "{\"a\": 1}";
    assert TrimmedPrefix(s, 1, 16) == "{";
    assert TrimmedPrefix(s, 2, 16) == "{\"";
    assert TrimmedPrefix(s, 3, 16) == "{\"a";
    assert TrimmedPrefix(s, 4, 16) == "{\"a\"";
    assert TrimmedPrefix(s, 5, 16) == "{\"a\":";
    assert TrimmedPrefix(s, 6, 16) == "{\"a\":";
    assert TrimmedPrefix(s, 7, 16) == "{\"a\":1";
    assert TrimmedPrefix(s, 8, 16) == "{\"a\":1}";
  }

  /** ... but keep a space after a comma that precedes a number, so spaced
      input can still contain whitespace outside string literals. */
  lemma SpaceBeforeNumberKept()
    ensures Trimmed("[1, 2]", 8) == "[1, 2]"
  {
    var s := "[1, 2]";
    assert TrimmedPrefix(s, 1, 8) == "[";
    assert TrimmedPrefix(s, 2, 8) == "[1";
    assert TrimmedPrefix(s, 3, 8) == "[1,";
    assert TrimmedPrefix(s, 4, 8) == "[1, ";
    assert TrimmedPrefix(s, 5, 8) == "[1, 2";
    assert TrimmedPrefix(s, 6, 8) == "[1, 2]";
  }
}
