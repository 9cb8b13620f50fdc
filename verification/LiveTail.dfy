/** web.go: the loop of handleStream that tails a growing log. */
module LiveTail {
  import opened Prelude
  import opened ByteText

  const CHUNK := 0x10_0000 // bytes read at most per tick
  const FLUSH_AFTER := 0x1_0000 // a longer buffer without line feed is sent as it is

  function WithoutLF(s: Bytes): Bytes {
    if s == [] then [] else WithoutLF(s[..|s| - 1]) + (if s[|s| - 1] == LF then [] else [s[|s| - 1]])
  }

  /** The complete lines of s, and what follows the last line feed. */
  function Lines(s: Bytes): (seq<Bytes>, Bytes) {
    if s == [] then ([], [])
    else
      var (lines, rest) := Lines(s[..|s| - 1]);
      if s[|s| - 1] == LF then (lines + [rest], []) else (lines, rest + [s[|s| - 1]])
  }

  lemma {:induction false} WithoutLFConcat(s: Bytes, t: Bytes)
    ensures WithoutLF(s + t) == WithoutLF(s) + WithoutLF(t)
    decreases |t|
  {
    if t == [] {
      assert s + t == s;
    } else {
      var k := |t| - 1;
      assert (s + t)[..|s + t| - 1] == s + t[..k];
      WithoutLFConcat(s, t[..k]);
    }
  }

  lemma {:induction false} NothingToRemove(s: Bytes)
    requires LF !in s
    ensures WithoutLF(s) == s
  {
    if s != [] {
      NothingToRemove(s[..|s| - 1]);
      assert s == s[..|s| - 1] + [s[|s| - 1]];
    }
  }

  lemma {:induction false} OpenLine(s: Bytes)
    requires LF !in s
    ensures Lines(s) == ([], s)
  {
    if s != [] {
      OpenLine(s[..|s| - 1]);
      assert s == s[..|s| - 1] + [s[|s| - 1]];
    }
  }

  lemma {:induction false} RestIsOpen(s: Bytes)
    ensures LF !in Lines(s).1 && Lines(Lines(s).1) == ([], Lines(s).1)
  {
    if s != [] {
      RestIsOpen(s[..|s| - 1]);
    }
    if LF !in Lines(s).1 {
      OpenLine(Lines(s).1);
    }
  }

  /** Reading on: the lines of the longer text are those of the shorter one and those of its rest with what is new. */
  lemma {:induction false} LinesConcat(s: Bytes, t: Bytes)
    ensures Lines(s + t).0 == Lines(s).0 + Lines(Lines(s).1 + t).0
    ensures Lines(s + t).1 == Lines(Lines(s).1 + t).1
    decreases |t|
  {
    var rest := Lines(s).1;
    if t == [] {
      assert s + t == s && rest + t == rest;
      RestIsOpen(s);
    } else {
      var k := |t| - 1;
      assert (s + t)[..|s + t| - 1] == s + t[..k];
      assert (rest + t)[..|rest + t| - 1] == rest + t[..k];
      LinesConcat(s, t[..k]);
      var a, b := Lines(s).0, Lines(rest + t[..k]);
      assert (a + b.0) + [b.1] == a + (b.0 + [b.1]);
    }
  }

  lemma {:induction false} ClosedLine(line: Bytes)
    requires LF !in line
    ensures Lines(line + [LF]) == ([line], [])
  {
    OpenLine(line);
    var s := line + [LF];
    assert s[..|s| - 1] == line && s[|s| - 1] == LF;
    var none: seq<Bytes> := [];
    assert none + [line] == [line];
  }

  /** Joined lines and rest are the text without its line feeds. */
  lemma {:induction false} LinesHoldEverything(s: Bytes)
    ensures Concat(Lines(s).0) + Lines(s).1 == WithoutLF(s)
  {
    if s != [] {
      LinesHoldEverything(s[..|s| - 1]);
      var (lines, rest) := Lines(s[..|s| - 1]);
      assert (lines + [rest])[..|lines|] == lines;
    }
  }

  /** The lines, each with its line feed. */
  function Terminated(lines: seq<Bytes>): Bytes {
    if lines == [] then [] else Terminated(lines[..|lines| - 1]) + lines[|lines| - 1] + [LF]
  }

  /** The text back from its lines, no line with a line feed in it: empty lines count too. */
  lemma {:induction false} LinesGiveTheTextBack(s: Bytes)
    ensures Terminated(Lines(s).0) + Lines(s).1 == s
    ensures LF !in Lines(s).1 && forall line :: line in Lines(s).0 ==> LF !in line
  {
    if s != [] {
      var init, last := s[..|s| - 1], s[|s| - 1];
      LinesGiveTheTextBack(init);
      var (lines, rest) := Lines(init);
      assert s == init + [last];
      assert (lines + [rest])[..|lines|] == lines;
    }
  }

  lemma {:induction false} ConcatAppend(a: seq<Bytes>, b: seq<Bytes>)
    ensures Concat(a + b) == Concat(a) + Concat(b)
    decreases |b|
  {
    if b == [] {
      assert a + b == a;
    } else {
      var init, last := b[..|b| - 1], b[|b| - 1];
      assert (a + b)[..|a + b| - 1] == a + init && (a + b)[|a + b| - 1] == last;
      ConcatAppend(a, init);
      Regroup(Concat(a), Concat(init), last);
    }
  }

  lemma {:induction false} OneMore(lines: seq<Bytes>, line: Bytes)
    ensures Concat(lines + [line]) + [] == Concat(lines) + line
  {
    assert (lines + [line])[..|lines|] == lines;
  }

  lemma {:induction false} LineThenRest(line: Bytes, tail: Bytes)
    requires LF !in line
    ensures Lines(line + [LF] + tail).0 == [line] + Lines(tail).0
    ensures Lines(line + [LF] + tail).1 == Lines(tail).1
  {
    hide Lines;
    ClosedLine(line);
    LinesConcat(line + [LF], tail);
    var none: Bytes := [];
    assert none + tail == tail;
  }

  /** One line off the front of the buffer. */
  lemma {:induction false} FirstLine(s: Bytes, i: nat)
    requires i < |s| && s[i] == LF && LF !in s[..i]
    ensures Lines(s).0 == [s[..i]] + Lines(s[i + 1..]).0
    ensures Lines(s).1 == Lines(s[i + 1..]).1
  {
    hide Lines;
    assert s == s[..i] + [LF] + s[i + 1..];
    LineThenRest(s[..i], s[i + 1..]);
  }

  lemma {:induction false} TickMath(sent: seq<Bytes>, buf: Bytes, read: Bytes, chunk: Bytes)
    requires Concat(sent) + buf == WithoutLF(read) && LF !in buf
    ensures var (lines, rest) := Lines(buf + chunk);
      Concat(sent + lines) + rest == WithoutLF(read + chunk)
  {
    hide Lines, Concat, WithoutLF;
    var (lines, rest) := Lines(buf + chunk);
    ConcatAppend(sent, lines);
    LinesHoldEverything(buf + chunk);
    WithoutLFConcat(buf, chunk);
    WithoutLFConcat(read, chunk);
    NothingToRemove(buf);
    Regroup(Concat(sent), Concat(lines), rest);
    Regroup(Concat(sent), buf, WithoutLF(chunk));
  }

  /** One connection: where it began to read, how far it has read, what it holds, what it has sent. */
  class Tail {
    const start: nat
    var offset: nat
    var buf: Bytes
    var sent: seq<Bytes>
    ghost var read: Bytes // all bytes read so far
    ghost var whole: bool // no partial line was sent so far

    ghost predicate Valid()
      reads this
    {
      && offset == start + |read|
      && Concat(sent) + buf == WithoutLF(read)
      && LF !in buf && |buf| <= FLUSH_AFTER
      && (whole ==> sent == Lines(read).0 && buf == Lines(read).1)
    }

    constructor (start: nat)
      ensures Valid() && this.start == start && sent == [] && read == [] && whole
    {
      this.start, offset, buf, sent, read, whole := start, start, [], [], [], true;
    }

    /** The inner loop: send every complete line of the buffer. */
    method SplitLines()
      modifies this`buf, this`sent
      ensures sent == old(sent) + Lines(old(buf)).0 && buf == Lines(old(buf)).1
      ensures LF !in buf
    {
      while true
        invariant sent + Lines(buf).0 == old(sent) + Lines(old(buf)).0 && Lines(buf).1 == Lines(old(buf)).1
        decreases |buf|
      {
        var i := IndexOfLF(buf);
        if i.None? {
          break;
        }
        FirstLine(buf, i.value);
        assert sent + ([buf[..i.value]] + Lines(buf[i.value + 1..]).0) == (sent + [buf[..i.value]]) + Lines(buf[i.value + 1..]).0;
        sent := sent + [buf[..i.value]];
        buf := buf[i.value + 1..];
      }
      OpenLine(buf);
      assert sent + [] == sent;
    }

    /**
     One tick: `got` bytes are read, as many as are there unless the chunk limit or a failed read
     cuts them short; complete lines go out, and a buffer too long for a line goes out as it is.
     */
    method Tick(log: Bytes, got: nat)
      requires Valid() && got <= CHUNK && (got == 0 || offset + got <= |log|)
      modifies this
      ensures Valid() && old(sent) <= sent
      ensures offset == old(offset) + got
      ensures read == old(read) + if got == 0 then [] else log[old(offset)..old(offset) + got]
      ensures whole <==> old(whole) && |Lines(old(buf) + if got == 0 then [] else log[old(offset)..old(offset) + got]).1| <= FLUSH_AFTER
    {
      hide Lines, Concat, WithoutLF;
      var chunk := if got == 0 then [] else log[offset..offset + got];
      TickMath(sent, buf, read, chunk);
      if whole {
        LinesConcat(read, chunk);
      }
      offset := offset + |chunk|;
      buf := buf + chunk;
      read := read + chunk;
      SplitLines();
      if |buf| > FLUSH_AFTER {
        OneMore(sent, buf);
        sent := sent + [buf];
        buf := [];
        whole := false;
      }
    }

    /** The run is over: what the buffer still holds goes out before the end event. */
    method Finish()
      requires Valid()
      modifies this`sent, this`buf
      ensures buf == [] && Concat(sent) == WithoutLF(read)
    {
      if |buf| > 0 {
        OneMore(sent, buf);
        sent := sent + [buf];
        buf := [];
      }
    }
  }

  // A whole connection.

  /** No line of the text, nor what follows its last line feed, is too long for the buffer. */
  ghost predicate ShortLines(s: Bytes) {
    && (forall line :: line in Lines(s).0 ==> |line| <= FLUSH_AFTER)
    && |Lines(s).1| <= FLUSH_AFTER
  }

  lemma {:induction false} PrefixesAreShort(s: Bytes, k: nat)
    requires ShortLines(s) && k <= |s|
    ensures |Lines(s[..k]).1| <= FLUSH_AFTER
    decreases |s|
  {
    if k == |s| {
      assert s[..k] == s;
    } else {
      var init := s[..|s| - 1];
      if s[|s| - 1] == LF {
        assert Lines(init).1 in Lines(s).0;
      }
      assert ShortLines(init);
      assert init[..k] == s[..k];
      PrefixesAreShort(init, k);
    }
  }

  /** What of the log there is to read from an offset on. */
  function From(log: Bytes, offset: nat): Bytes {
    if offset <= |log| then log[offset..] else []
  }

  lemma SliceOfRest(log: Bytes, start: nat, read: nat, got: nat)
    requires read + got <= |From(log, start)| && got > 0
    ensures start + read + got <= |log|
    ensures log[start + read..start + read + got] == From(log, start)[read..read + got]
  {
  }

  /**
   Ticks that read wants[0], wants[1], ... bytes of an append-only log whose text in the end is
   `log`, as far as the chunk limit and the text allow.
   */
  method Follow(log: Bytes, start: nat, wants: seq<nat>) returns (read: nat, sent: seq<Bytes>, buf: Bytes)
    ensures read <= |From(log, start)|
    ensures Concat(sent) + buf == WithoutLF(From(log, start)[..read])
    ensures LF !in buf && |buf| <= 65_536
    ensures ShortLines(From(log, start)) ==>
      && sent == Lines(From(log, start)[..read]).0 && buf == Lines(From(log, start)[..read]).1
      && Terminated(sent) + buf == From(log, start)[..read] && forall line :: line in sent ==> LF !in line
  {
    hide Lines, Concat, WithoutLF, ShortLines;
    var tail := new Tail(start);
    read := 0;
    ghost var text := From(log, start);
    for i := 0 to |wants|
      invariant fresh(tail) && tail.start == start && tail.Valid()
      invariant read <= |text| && tail.read == text[..read]
      invariant ShortLines(text) ==> tail.whole
    {
      var left := if tail.offset <= |log| then |log| - tail.offset else 0;
      var got := Min(wants[i], Min(CHUNK, left));
      ghost var before, held := tail.read, tail.buf;
      ghost var chunk := text[read..read + got];
      if got > 0 {
        SliceOfRest(log, start, read, got);
      }
      assert got == 0 ==> chunk == [];
      tail.Tick(log, got);
      assert text[..read + got] == text[..read] + chunk;
      assert tail.read == before + chunk;
      LinesConcat(before, chunk);
      if ShortLines(text) {
        PrefixesAreShort(text, read + got);
        assert Lines(held + chunk).1 == Lines(before + chunk).1;
      }
      read := read + got;
    }
    LinesGiveTheTextBack(text[..read]);
    return read, tail.sent, tail.buf;
  }
}
