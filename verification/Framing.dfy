/** Newline framing: how a byte stream falls into lines, whatever pieces it arrives in. */
module Framing {
  newtype Byte = b: int | 0 <= b < 256

  type Bytes = seq<Byte>

  const NL: Byte := 10
  const NUL: Byte := 0

  /** Position of the first `b`, or the length if there is none. */
  function IndexOf(s: Bytes, b: Byte): (n: nat)
    ensures n <= |s| && b !in s[..n]
    ensures n < |s| ==> s[n] == b
    ensures b in s <==> n < |s|
  {
    if s == [] || s[0] == b then 0
    else
      assert s == [s[0]] + s[1..];
      1 + IndexOf(s[1..], b)
  }

  /** The first `b` of the whole is the first of `more`, if there is none before. */
  lemma {:induction false} IndexPast(front: Bytes, more: Bytes, b: Byte)
    requires b !in front
    ensures IndexOf(front + more, b) == |front| + IndexOf(more, b)
  {
    if front == [] {
      assert front + more == more;
    } else {
      assert (front + more)[1..] == front[1..] + more;
      IndexPast(front[1..], more, b);
    }
  }

  /** The complete lines of `s`, without their newlines, and what follows the last newline. */
  function Split(s: Bytes): (r: (seq<Bytes>, Bytes))
    ensures NL !in r.1
  {
    var n := IndexOf(s, NL);
    if n == |s| then ([], s)
    else
      var (lines, rest) := Split(s[n + 1..]);
      ([s[..n]] + lines, rest)
  }

  /** Every frame followed by a newline. */
  function Flatten(frames: seq<Bytes>): Bytes {
    if frames == [] then [] else frames[0] + [NL] + Flatten(frames[1..])
  }

  ghost predicate Framed(frames: seq<Bytes>) {
    forall i | 0 <= i < |frames| :: NL !in frames[i]
  }

  lemma {:induction false} FlattenAppend(a: seq<Bytes>, b: seq<Bytes>)
    ensures Flatten(a + b) == Flatten(a) + Flatten(b)
  {
    if a == [] {
      assert a + b == b;
    } else {
      FlattenAppend(a[1..], b);
      assert (a + b)[1..] == a[1..] + b;
    }
  }

  lemma {:induction false} FirstIndex(s: Bytes, k: nat)
    requires k < |s| && s[k] == NL && forall i | 0 <= i < k :: s[i] != NL
    ensures IndexOf(s, NL) == k
  {
    if k > 0 {
      FirstIndex(s[1..], k - 1);
    }
  }

  /** A line in front is the first line. */
  lemma SplitCons(f: Bytes, more: Bytes)
    requires NL !in f
    ensures Split(f + [NL] + more) == ([f] + Split(more).0, Split(more).1)
  {
    var s := f + [NL] + more;
    FirstIndex(s, |f|);
    assert s[..|f|] == f && s[|f| + 1..] == more;
  }

  lemma FlattenCons(f: Bytes, fs: seq<Bytes>, tail: Bytes)
    ensures Flatten([f] + fs) + tail == f + [NL] + (Flatten(fs) + tail)
  {
    assert ([f] + fs)[1..] == fs;
  }

  /** Writing frames and splitting gives the frames back. */
  lemma {:induction false} SplitFlatten(frames: seq<Bytes>, tail: Bytes)
    requires Framed(frames) && NL !in tail
    ensures Split(Flatten(frames) + tail) == (frames, tail)
  {
    if frames == [] {
      assert Flatten(frames) + tail == tail;
    } else {
      var f, fs := frames[0], frames[1..];
      SplitFlatten(fs, tail);
      FlattenCons(f, fs, tail);
      SplitCons(f, Flatten(fs) + tail);
      assert frames == [f] + fs;
    }
  }

  lemma CutAtNewline(s: Bytes) returns (f: Bytes, more: Bytes)
    requires NL in s
    ensures s == f + [NL] + more && NL !in f && |more| < |s|
    ensures Split(s) == ([f] + Split(more).0, Split(more).1)
  {
    var n := IndexOf(s, NL);
    f, more := s[..n], s[n + 1..];
    assert s == f + [NL] + more;
    SplitCons(f, more);
  }

  /** Splitting and writing gives the bytes back. */
  lemma {:induction false} FlattenSplit(s: Bytes)
    ensures Flatten(Split(s).0) + Split(s).1 == s
    ensures Framed(Split(s).0)
    decreases |s|
  {
    if NL in s {
      var f, more := CutAtNewline(s);
      FlattenSplit(more);
      assert ([f] + Split(more).0)[1..] == Split(more).0;
      assert Flatten(Split(s).0) == f + [NL] + Flatten(Split(more).0);
    }
  }

  lemma NothingToCut(s: Bytes)
    requires NL !in s
    ensures Split(s) == ([], s)
  {
  }

  lemma Assoc<T>(a: seq<T>, b: seq<T>, c: seq<T>)
    ensures a + (b + c) == a + b + c
  {
  }

  /** The same two goes with the first line of the first set aside. */
  lemma SplitConsAppend(f: Bytes, more: Bytes, b: Bytes, lm: seq<Bytes>, lb: seq<Bytes>, rb: Bytes)
    requires NL !in f && Split(more + b) == (lm + lb, rb)
    ensures Split(f + [NL] + more + b) == ([f] + lm + lb, rb)
  {
    Assoc(f + [NL], more, b);
    SplitCons(f, more + b);
    Assoc([f], lm, lb);
  }

  /** Splitting in two goes: the rest of the first goes in front of the second. */
  lemma {:induction false} SplitAppend(a: Bytes, b: Bytes)
    ensures var (la, ra) := Split(a); var (lb, rb) := Split(ra + b);
            Split(a + b) == (la + lb, rb)
    decreases |a|
  {
    if NL in a {
      var f, more := CutAtNewline(a);
      SplitAppend(more, b);
      SplitConsAppend(f, more, b, Split(more).0, Split(Split(more).1 + b).0, Split(Split(more).1 + b).1);
    } else {
      NothingToCut(a);
      assert Split(a).0 + Split(a + b).0 == Split(a + b).0;
    }
  }

  function Concat(chunks: seq<Bytes>): Bytes {
    if chunks == [] then [] else Concat(chunks[..|chunks| - 1]) + chunks[|chunks| - 1]
  }

  /** What a reader that keeps the unfinished line has after the chunks so far: the lines it
      cut off, and the buffer it keeps. */
  function Reassemble(chunks: seq<Bytes>): (seq<Bytes>, Bytes) {
    if chunks == [] then ([], [])
    else
      var (lines, rest) := Reassemble(chunks[..|chunks| - 1]);
      var (more, rest') := Split(rest + chunks[|chunks| - 1]);
      (lines + more, rest')
  }

  /** However the stream was cut into reads, the reader sees the lines of the stream. */
  lemma {:induction false} ReassembleIsSplit(chunks: seq<Bytes>)
    ensures Reassemble(chunks) == Split(Concat(chunks))
  {
    if chunks != [] {
      ReassembleIsSplit(chunks[..|chunks| - 1]);
      SplitAppend(Concat(chunks[..|chunks| - 1]), chunks[|chunks| - 1]);
    }
  }
}
