/** Incremental line splitting (src/Net/Detail/LineFramer.h).

    The reference is declarative: a stream of bytes splits into lines and an
    unfinished rest exactly when terminating every line with LF and appending
    the rest gives the stream back and no piece holds an LF. The framer, fed in
    arbitrary chunks and popped at arbitrary moments, is shown to refine it. */
module LineFraming {
  import opened Prelude

  const LF: Byte := 10
  const CR: Byte := 13

  // ---------------------------------------------------------------- reference

  function Unlines(lines: seq<Bytes>): Bytes
  {
    if lines == [] then [] else Unlines(lines[..|lines| - 1]) + lines[|lines| - 1] + [LF]
  }

  ghost predicate LfFree(lines: seq<Bytes>)
  {
    forall i :: 0 <= i < |lines| ==> LF !in lines[i]
  }

  ghost predicate SplitsInto(stream: Bytes, lines: seq<Bytes>, rest: Bytes)
  {
    && stream == Unlines(lines) + rest
    && LfFree(lines)
    && LF !in rest
  }

  function DropCr(line: Bytes): Bytes
  {
    if line != [] && line[|line| - 1] == CR then line[..|line| - 1] else line
  }

  function DropCrs(lines: seq<Bytes>): seq<Bytes>
  {
    seq(|lines|, i requires 0 <= i < |lines| => DropCr(lines[i]))
  }

  // One pass from left to right, remembering complete lines and the open one.
  function Split(stream: Bytes): (r: (seq<Bytes>, Bytes))
  {
    if stream == [] then ([], [])
    else
      var (lines, rest) := Split(stream[..|stream| - 1]);
      var last := stream[|stream| - 1];
      if last == LF then (lines + [rest], []) else (lines, rest + [last])
  }

  lemma {:induction false} SplitSplits(stream: Bytes)
    ensures SplitsInto(stream, Split(stream).0, Split(stream).1)
  {
    if stream != [] {
      var (lines, rest) := Split(stream[..|stream| - 1]);
      SplitSplits(stream[..|stream| - 1]);
      var last := stream[|stream| - 1];
      assert stream == Unlines(lines) + rest + [last];
      if last == LF {
        assert (lines + [rest])[..|lines|] == lines;
        assert Unlines(lines + [rest]) == Unlines(lines) + rest + [LF];
      } else {
        assert Unlines(lines) + rest + [last] == Unlines(lines) + (rest + [last]);
      }
    }
  }

  // The decomposition is unique, so Split is the only function meeting SplitsInto.
  lemma {:induction false} SplitUnique(stream: Bytes, lines: seq<Bytes>, rest: Bytes)
    requires SplitsInto(stream, lines, rest)
    ensures Split(stream) == (lines, rest)
    decreases |stream|
  {
    if rest != [] {
      var front := stream[..|stream| - 1];
      assert front == Unlines(lines) + rest[..|rest| - 1];
      SplitUnique(front, lines, rest[..|rest| - 1]);
      assert rest[..|rest| - 1] + [rest[|rest| - 1]] == rest;
      assert stream[|stream| - 1] == rest[|rest| - 1];
    } else if lines != [] {
      var front := stream[..|stream| - 1];
      var last := lines[|lines| - 1];
      assert Unlines(lines) == Unlines(lines[..|lines| - 1]) + last + [LF];
      assert front == Unlines(lines[..|lines| - 1]) + last;
      SplitUnique(front, lines[..|lines| - 1], last);
      assert lines[..|lines| - 1] + [last] == lines;
    } else {
      assert stream == [];
    }
  }

  // Every line, including the unfinished one, respects the limit.
  ghost predicate Within(max: nat, stream: Bytes)
  {
    && (forall i :: 0 <= i < |Split(stream).0| ==> |Split(stream).0[i]| <= max)
    && |Split(stream).1| <= max
  }

  // ------------------------------------------------------------------- framer

  datatype Framer = Framer(max: nat, pending: Bytes, consumed: nat, current: nat, failed: bool)
  {
    ghost predicate Valid() { consumed <= |pending| }
  }

  function Fresh(max: nat): Framer { Framer(max, [], 0, 0, false) }

  // The byte loop of append: the length of the open line, or None past the limit.
  function Scan(max: nat, current: nat, bytes: Bytes): Option<nat>
    decreases |bytes|
  {
    if bytes == [] then Some(current)
    else if bytes[0] == LF then Scan(max, 0, bytes[1..])
    else if current == max then None
    else Scan(max, current + 1, bytes[1..])
  }

  function AppendTo(f: Framer, bytes: Bytes): (Framer, bool)
    requires f.Valid()
  {
    if f.failed then (f, false)
    else if bytes == [] then (f, true)
    else match Scan(f.max, f.current, bytes)
      case None => (f.(current := f.max, failed := true), false)
      case Some(open) =>
        (f.(pending := f.pending[f.consumed..] + bytes, consumed := 0, current := open), true)
  }

  function FindFrom(bytes: Bytes, from: nat): (r: Option<nat>)
    requires from <= |bytes|
    ensures r.Some? ==> from <= r.value < |bytes| && bytes[r.value] == LF && LF !in bytes[from..r.value]
    ensures r.None? ==> LF !in bytes[from..]
    decreases |bytes| - from
  {
    if from == |bytes| then None
    else if bytes[from] == LF then Some(from)
    else
      var r := FindFrom(bytes, from + 1);
      assert r.None? ==> bytes[from..] == [bytes[from]] + bytes[from + 1..];
      assert r.Some? ==> bytes[from..r.value] == [bytes[from]] + bytes[from + 1..r.value];
      r
  }

  function PopFrom(f: Framer): (Framer, Option<Bytes>)
    requires f.Valid()
  {
    if f.failed then (f, None)
    else match FindFrom(f.pending, f.consumed)
      case None => (f, None)
      case Some(at) => (f.(consumed := at + 1), Some(DropCr(f.pending[f.consumed..at])))
  }

  // ---------------------------------------------------------------- whole runs

  datatype Op = Feed(bytes: Bytes) | Pop

  // What a run leaves: the framer, the lines popped so far, and whether every
  // append succeeded.
  datatype Run = Run(framer: Framer, popped: seq<Bytes>, ok: bool)

  function Play(max: nat, ops: seq<Op>): (r: Run)
    ensures r.framer.Valid()
  {
    if ops == [] then Run(Fresh(max), [], true)
    else
      var before := Play(max, ops[..|ops| - 1]);
      match ops[|ops| - 1]
      case Feed(bytes) =>
        var (f, ok) := AppendTo(before.framer, bytes);
        Run(f, before.popped, before.ok && ok)
      case Pop =>
        var (f, line) := PopFrom(before.framer);
        Run(f, if line.Some? then before.popped + [line.value] else before.popped, before.ok)
  }

  function Fed(ops: seq<Op>): Bytes
  {
    if ops == [] then []
    else Fed(ops[..|ops| - 1]) + (if ops[|ops| - 1].Feed? then ops[|ops| - 1].bytes else [])
  }

  // Scanning a chunk decides whether every line of stream + chunk is within the
  // limit, given that every line of stream is.
  lemma {:induction false} ScanDecides(max: nat, stream: Bytes, chunk: Bytes)
    requires Within(max, stream)
    ensures
      var scan := Scan(max, |Split(stream).1|, chunk);
      && (scan.Some? <==> Within(max, stream + chunk))
      && (scan.Some? ==> scan.value == |Split(stream + chunk).1|)
    decreases |chunk|
  {
    if chunk == [] {
      assert stream + chunk == stream;
    } else {
      var next := stream + [chunk[0]];
      assert next[..|next| - 1] == stream;
      assert stream + chunk == next + chunk[1..];
      if chunk[0] != LF && |Split(stream).1| == max {
        assert |Split(next).1| == max + 1;
        if Within(max, next + chunk[1..]) {
          WithinPrefix(max, next, chunk[1..]);
        }
      } else {
        if chunk[0] == LF {
          var lines := Split(stream).0;
          assert Split(next).0 == lines + [Split(stream).1];
        }
        ScanDecides(max, next, chunk[1..]);
      }
    }
  }

  // A line once past the limit stays past it however the stream continues.
  lemma {:induction false} WithinPrefix(max: nat, stream: Bytes, more: Bytes)
    requires Within(max, stream + more)
    ensures Within(max, stream)
    decreases |more|
  {
    if more == [] {
      assert stream + more == stream;
    } else {
      var whole := stream + more;
      var front := whole[..|whole| - 1];
      assert front == stream + more[..|more| - 1];
      var (lines, rest) := Split(front);
      if whole[|whole| - 1] == LF {
        assert Split(whole).0 == lines + [rest];
        assert forall i :: 0 <= i < |lines| ==> lines[i] == Split(whole).0[i];
        assert Split(whole).0[|lines|] == rest;
      }
      WithinPrefix(max, stream, more[..|more| - 1]);
    }
  }

  // What every prefix of every run keeps while appends succeed: the raw lines
  // taken out, re-terminated, followed by the unread buffer are the bytes fed.
  ghost predicate Tracks(r: Run, stream: Bytes, taken: seq<Bytes>)
    requires r.framer.Valid()
  {
    && stream == Unlines(taken) + r.framer.pending[r.framer.consumed..]
    && LfFree(taken)
    && r.popped == DropCrs(taken)
    && r.framer.current == |Split(stream).1|
  }

  ghost predicate Consistent(max: nat, r: Run, stream: Bytes, taken: seq<Bytes>)
    requires r.framer.Valid()
  {
    && r.framer.max == max
    && (r.ok <==> Within(max, stream))
    && (r.ok <==> !r.framer.failed)
    && (r.ok ==> Tracks(r, stream, taken))
  }

  lemma {:induction false} PlayTracks(max: nat, ops: seq<Op>) returns (taken: seq<Bytes>)
    ensures Consistent(max, Play(max, ops), Fed(ops), taken)
  {
    if ops == [] {
      taken := [];
    } else {
      var before := Play(max, ops[..|ops| - 1]);
      var stream := Fed(ops[..|ops| - 1]);
      taken := PlayTracks(max, ops[..|ops| - 1]);
      match ops[|ops| - 1]
      case Feed(bytes) =>
        FeedTracks(max, before, stream, taken, bytes);
      case Pop =>
        assert stream + [] == stream;
        if before.ok {
          taken := PopTracks(before, stream, taken);
        }
    }
  }

  lemma FeedTracks(max: nat, r: Run, stream: Bytes, taken: seq<Bytes>, bytes: Bytes)
    requires r.framer.Valid() && Consistent(max, r, stream, taken)
    ensures
      var (f, ok) := AppendTo(r.framer, bytes);
      f.Valid() && Consistent(max, Run(f, r.popped, r.ok && ok), stream + bytes, taken)
  {
    var f := r.framer;
    if !r.ok {
      if Within(max, stream + bytes) {
        WithinPrefix(max, stream, bytes);
      }
    } else if bytes == [] {
      assert stream + bytes == stream;
    } else {
      ScanDecides(max, stream, bytes);
      var after := AppendTo(f, bytes).0;
      if !after.failed {
        Regroup(Unlines(taken), f.pending[f.consumed..], bytes);
        assert after.pending[0..] == after.pending;
      }
    }
  }

  lemma PopTracks(r: Run, stream: Bytes, taken: seq<Bytes>) returns (next: seq<Bytes>)
    requires r.framer.Valid() && !r.framer.failed
    requires Tracks(r, stream, taken)
    ensures
      var (f, line) := PopFrom(r.framer);
      Tracks(Run(f, if line.Some? then r.popped + [line.value] else r.popped, r.ok), stream, next)
  {
    next := taken;
    var f := r.framer;
    var found := FindFrom(f.pending, f.consumed);
    if found.Some? {
      var raw := f.pending[f.consumed..found.value];
      var left := f.pending[found.value + 1..];
      next := taken + [raw];
      CutAt(f.pending, f.consumed, found.value);
      UnlinesPush(taken, raw, left);
      DropCrsPush(taken, raw);
      LfFreePush(taken, raw);
    }
  }

  lemma LfFreePush(taken: seq<Bytes>, raw: Bytes)
    requires LfFree(taken) && LF !in raw
    ensures LfFree(taken + [raw])
  {
  }

  lemma DropCrsPush(taken: seq<Bytes>, raw: Bytes)
    ensures DropCrs(taken + [raw]) == DropCrs(taken) + [DropCr(raw)]
  {
  }

  lemma CutAt(bytes: Bytes, from: nat, at: nat)
    requires from <= at < |bytes| && bytes[at] == LF
    ensures bytes[from..] == bytes[from..at] + [LF] + bytes[at + 1..]
  {
  }

  lemma UnlinesPush(taken: seq<Bytes>, raw: Bytes, left: Bytes)
    ensures Unlines(taken) + (raw + [LF] + left) == Unlines(taken + [raw]) + left
  {
    assert (taken + [raw])[..|taken|] == taken;
  }

  /** Refinement. In any run, all appends succeed exactly when every line of the
      whole stream is within the limit; then what was popped is a prefix of the
      lines of the whole stream with one trailing CR removed, and it is all of
      them as soon as a pop finds nothing. Nothing depends on the chunking. */
  lemma RunRefinesSplit(max: nat, ops: seq<Op>)
    ensures
      var r := Play(max, ops);
      var lines := DropCrs(Split(Fed(ops)).0);
      && (r.ok <==> Within(max, Fed(ops)))
      && (r.ok ==> r.popped <= lines)
      && (r.ok ==> (PopFrom(r.framer).1.None? <==> r.popped == lines))
  {
    var r := Play(max, ops);
    var taken := PlayTracks(max, ops);
    if r.ok {
      var unread := r.framer.pending[r.framer.consumed..];
      RestAfterTaken(Fed(ops), taken, unread);
      assert DropCrs(taken + Split(unread).0)[..|taken|] == DropCrs(taken);
      assert PopFrom(r.framer).1.None? <==> LF !in unread;
      if LF !in unread {
        NoLineWithoutLf(unread);
      } else {
        LineWithLf(unread);
      }
    }
  }

  // Lines already taken out, then the lines of what is left, are the lines of all.
  lemma RestAfterTaken(stream: Bytes, taken: seq<Bytes>, unread: Bytes)
    requires stream == Unlines(taken) + unread
    requires LfFree(taken)
    ensures Split(stream).0 == taken + Split(unread).0
  {
    var (lines, rest) := Split(unread);
    SplitSplits(unread);
    UnlinesAppend(taken, lines);
    Regroup(Unlines(taken), Unlines(lines), rest);
    var all := taken + lines;
    forall i | 0 <= i < |all|
      ensures LF !in all[i]
    {
      assert all[i] == if i < |taken| then taken[i] else lines[i - |taken|];
    }
    SplitUnique(stream, taken + lines, rest);
  }

  lemma Regroup(a: Bytes, b: Bytes, c: Bytes)
    ensures a + (b + c) == a + b + c
  {
  }

  lemma NoLineWithoutLf(unread: Bytes)
    requires LF !in unread
    ensures Split(unread).0 == []
  {
    assert unread == Unlines([]) + unread;
    SplitUnique(unread, [], unread);
  }

  lemma LineWithLf(unread: Bytes)
    requires LF in unread
    ensures Split(unread).0 != []
  {
    SplitSplits(unread);
    assert Split(unread).0 == [] ==> unread == [] + Split(unread).1;
  }

  lemma {:induction false} UnlinesAppend(a: seq<Bytes>, b: seq<Bytes>)
    ensures Unlines(a + b) == Unlines(a) + Unlines(b)
  {
    if b == [] {
      assert a + b == a;
    } else {
      assert (a + b)[..|a + b| - 1] == a + b[..|b| - 1];
      UnlinesAppend(a, b[..|b| - 1]);
    }
  }

  /** Round trip. Lines a sender may frame (no LF inside, within the limit),
      terminated with LF and delivered in any chunks with pops at any moments,
      are all accepted; once a pop finds nothing they have come out exactly
      if and only if none of them ends in CR, which belongs to the terminator. */
  lemma LinesRoundTrip(max: nat, lines: seq<Bytes>, ops: seq<Op>)
    requires forall i :: 0 <= i < |lines| ==> LF !in lines[i] && |lines[i]| <= max
    requires Fed(ops) == Unlines(lines)
    ensures Play(max, ops).ok
    ensures PopFrom(Play(max, ops).framer).1.None? ==>
      && Play(max, ops).popped == DropCrs(lines)
      && (Play(max, ops).popped == lines <==>
          forall i :: 0 <= i < |lines| ==> lines[i] == [] || lines[i][|lines[i]| - 1] != CR)
  {
    assert Unlines(lines) + [] == Unlines(lines);
    SplitUnique(Fed(ops), lines, []);
    RunRefinesSplit(max, ops);
    if i :| 0 <= i < |lines| && lines[i] != [] && lines[i][|lines[i]| - 1] == CR {
      assert |DropCrs(lines)[i]| < |lines[i]|;
    } else {
      assert DropCrs(lines) == lines;
    }
  }

  // ------------------------------------------------------- the imperative form

  class LineFramer {
    const maxMessageBytes: nat
    var pending: Bytes
    var consumedBytes: nat
    var currentLineBytes: nat
    var failed: bool

    ghost function Model(): Framer
      reads this
    {
      Framer(maxMessageBytes, pending, consumedBytes, currentLineBytes, failed)
    }

    constructor (maxMessageBytes: nat)
      ensures Model() == Fresh(maxMessageBytes)
    {
      this.maxMessageBytes := maxMessageBytes;
      pending, consumedBytes, currentLineBytes, failed := [], 0, 0, false;
    }

    method Append(bytes: Bytes) returns (ok: bool)
      requires Model().Valid()
      modifies this
      ensures (Model(), ok) == AppendTo(old(Model()), bytes)
      ensures Model().Valid()
    {
      if failed {
        return false;
      }
      if bytes == [] {
        return true;
      }
      var i := 0;
      while i < |bytes|
        invariant 0 <= i <= |bytes|
        invariant !failed && pending == old(pending) && consumedBytes == old(consumedBytes)
        invariant Scan(maxMessageBytes, currentLineBytes, bytes[i..])
               == Scan(maxMessageBytes, old(currentLineBytes), bytes)
      {
        assert bytes[i..][1..] == bytes[i + 1..];
        if bytes[i] == LF {
          currentLineBytes := 0;
        } else {
          if currentLineBytes == maxMessageBytes {
            failed := true;
            return false;
          }
          currentLineBytes := currentLineBytes + 1;
        }
        i := i + 1;
      }
      pending := pending[consumedBytes..];
      consumedBytes := 0;
      pending := pending + bytes;
      return true;
    }

    method TryPop() returns (line: Option<Bytes>)
      requires Model().Valid()
      modifies this
      ensures (Model(), line) == PopFrom(old(Model()))
      ensures Model().Valid()
    {
      if failed {
        return None;
      }
      var newline := consumedBytes;
      while newline < |pending| && pending[newline] != LF
        invariant consumedBytes <= newline <= |pending|
        invariant FindFrom(pending, newline) == FindFrom(pending, consumedBytes)
      {
        newline := newline + 1;
      }
      if newline == |pending| {
        return None;
      }
      var text := pending[consumedBytes..newline];
      consumedBytes := newline + 1;
      if text != [] && text[|text| - 1] == CR {
        text := text[..|text| - 1];
      }
      return Some(text);
    }
  }
}
