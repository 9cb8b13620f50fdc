/** logwriter.go: the stamping writer over the capping writer, and what ends up in the log. */
module LogWriter {
  import opened Prelude
  import opened ByteText

  function Digits(n: nat): string {
    if n < 10 then [('0' as int + n) as char] else Digits(n / 10) + [('0' as int + n % 10) as char]
  }

  /** The number a run of digits stands for. */
  function ValueOf(digits: string): nat
    requires forall i :: 0 <= i < |digits| ==> '0' <= digits[i] <= '9'
  {
    if digits == "" then 0 else 10 * ValueOf(digits[..|digits| - 1]) + (digits[|digits| - 1] as int - '0' as int)
  }

  /** The notice tells the limit: digits only, none of them a leading zero. */
  lemma {:induction false} DigitsTell(n: nat)
    ensures forall i :: 0 <= i < |Digits(n)| ==> '0' <= Digits(n)[i] <= '9'
    ensures ValueOf(Digits(n)) == n
    ensures Digits(n) != "" && (n > 0 ==> Digits(n)[0] != '0')
  {
    if n >= 10 {
      DigitsTell(n / 10);
      assert Digits(n)[..|Digits(n)| - 1] == Digits(n / 10);
    } else {
      assert Digits(n)[..0] == "";
    }
  }

  function Decimal(n: int): string {
    if n < 0 then "-" + Digits(-n) else Digits(n)
  }

  /** The one-time truncation notice. */
  function Notice(limit: int): Bytes {
    "\n... [output truncated at " + Decimal(limit) + " bytes] ...\n"
  }

  // The capping writer.

  /** What has been written when the file holds no notice yet, or holds one. */
  function Capped(limit: int, stream: Bytes, noticed: bool): Bytes {
    if limit <= 0 || |stream| < limit then stream + if noticed then Notice(limit) else []
    else stream[..limit] + if noticed then Notice(limit) else []
  }

  /** Some write found the cap reached, or went past it. */
  predicate Overrun(limit: int, ps: seq<Bytes>) {
    && limit > 0 && ps != []
    && var before := ps[..|ps| - 1];
      Overrun(limit, before) || |Concat(before)| >= limit || |Concat(ps)| > limit
  }

  lemma {:induction false} AppendWrite(limit: int, ps: seq<Bytes>, p: Bytes)
    ensures Concat(ps + [p]) == Concat(ps) + p
    ensures Overrun(limit, ps + [p]) <==>
      limit > 0 && (Overrun(limit, ps) || |Concat(ps)| >= limit || |Concat(ps)| + |p| > limit)
  {
    assert (ps + [p])[..|ps|] == ps;
  }

  lemma TakeOfConcat(s: Bytes, p: Bytes, n: nat)
    requires n <= |s + p|
    ensures (s + p)[..n] == if n <= |s| then s[..n] else s + p[..n - |s|]
  {
  }

  class CapWriter {
    var w: Bytes // the log file
    const limit: int
    var written: int
    var truncated: bool
    ghost var writes: seq<Bytes>

    /** The file is the first `limit` bytes of all writes together, then the notice if one was due. */
    ghost predicate Valid()
      reads this
    {
      && written == (if limit <= 0 then |Concat(writes)| else Min(|Concat(writes)|, limit))
      && (truncated <==> Overrun(limit, writes))
      && w == Capped(limit, Concat(writes), truncated)
      && (truncated ==> limit > 0 && |Concat(writes)| >= limit)
    }

    constructor (limit: int)
      ensures Valid() && this.limit == limit && writes == [] && w == []
    {
      this.limit, w, written, truncated, writes := limit, [], 0, false, [];
    }

    method Write(p: Bytes) returns (n: nat)
      requires Valid()
      modifies this
      ensures Valid() && writes == old(writes) + [p] && n == |p|
    {
      hide Concat, Notice, Overrun;
      AppendWrite(limit, writes, p);
      ghost var stream := Concat(writes);
      assert |stream + p| == |stream| + |p|;
      if limit > 0 && |stream + p| >= limit {
        TakeOfConcat(stream, p, limit);
      }
      writes := writes + [p];
      if limit <= 0 || written < limit {
        var remain := |p|;
        if limit > 0 {
          remain := limit - written;
        }
        if |p| <= remain {
          w := w + p;
          written := written + |p|;
          return |p|;
        }
        w := w + p[..remain];
        written := written + remain;
      }
      if !truncated {
        truncated := true;
        w := w + Notice(limit);
      }
      n := |p|;
    }
  }

  /** The last write was empty, and the writes before it reached the cap exactly. */
  predicate EndsEmptyAtTheCap(limit: int, ps: seq<Bytes>) {
    limit > 0 && ps != [] && ps[|ps| - 1] == [] && |Concat(ps)| == limit
  }

  /** The notice is due exactly when the stream exceeds the limit, unless the last write was empty at exactly the cap. */
  lemma {:induction false} OverrunIff(limit: int, ps: seq<Bytes>)
    ensures (Overrun(limit, ps) <==> limit > 0 && |Concat(ps)| > limit) <==> !EndsEmptyAtTheCap(limit, ps)
  {
    if ps != [] {
      OverrunIff(limit, ps[..|ps| - 1]);
    }
  }

  /** So without empty writes it is due exactly when the stream exceeds the limit. */
  lemma {:induction false} OverrunMeansTooLong(limit: int, ps: seq<Bytes>)
    requires forall m :: 0 <= m < |ps| ==> ps[m] != []
    ensures Overrun(limit, ps) <==> limit > 0 && |Concat(ps)| > limit
  {
    OverrunIff(limit, ps);
  }

  /** An empty write at exactly the cap brings the notice although nothing was cut off. */
  lemma {:induction false} EmptyWriteAtTheCap(p: Bytes)
    requires p != []
    ensures Overrun(|p|, [p, []]) && |Concat([p, []])| == |p|
  {
    var ps := [p, []];
    assert ps[..1] == [p] && [p][..0] == [];
    assert Concat([p]) == [] + p;
  }

  // The stamping writer.

  /**
   The stamped stream: `clock(k)` is the text of the k-th stamp, `start` says that the next byte
   starts a line.
   */
  function Stamped(clock: nat -> Bytes, k: nat, start: bool, p: Bytes): Bytes
    decreases |p|, start
  {
    if p == [] then []
    else if start then clock(k) + "  " + Stamped(clock, k + 1, false, p)
    else [p[0]] + Stamped(clock, k, p[0] == LF, p[1..])
  }

  /** How many stamps that takes: one for each line that gets at least one byte. */
  function Started(start: bool, p: Bytes): nat
    decreases |p|, start
  {
    if p == [] then 0
    else if start then 1 + Started(false, p)
    else Started(p[0] == LF, p[1..])
  }

  function StartAfter(start: bool, p: Bytes): bool {
    if p == [] then start else p[|p| - 1] == LF
  }

  lemma {:induction false} StampedNothing(clock: nat -> Bytes, k: nat, start: bool, q: Bytes)
    ensures [] + q == q && Started(start, []) == 0 && StartAfter(start, []) == start
    ensures Stamped(clock, k, start, []) + Stamped(clock, k, start, q) == Stamped(clock, k, start, q)
  {
  }

  /** One stamp, in front of whatever follows. */
  lemma StampedStart(clock: nat -> Bytes, k: nat, p: Bytes, q: Bytes)
    requires p != []
    ensures Stamped(clock, k, true, p) == clock(k) + "  " + Stamped(clock, k + 1, false, p)
    ensures Stamped(clock, k, true, p + q) == clock(k) + "  " + Stamped(clock, k + 1, false, p + q)
    ensures Started(true, p) == 1 + Started(false, p) && Started(true, p + q) == 1 + Started(false, p + q)
    ensures StartAfter(true, p) == StartAfter(false, p)
  {
  }

  /** One byte copied, in front of whatever follows. */
  lemma StampedStep(clock: nat -> Bytes, k: nat, p: Bytes, q: Bytes)
    requires p != []
    ensures var feed := p[0] == LF;
      && Stamped(clock, k, false, p) == [p[0]] + Stamped(clock, k, feed, p[1..])
      && Stamped(clock, k, false, p + q) == [p[0]] + Stamped(clock, k, feed, p[1..] + q)
      && Started(false, p) == Started(feed, p[1..]) && Started(false, p + q) == Started(feed, p[1..] + q)
      && StartAfter(false, p) == StartAfter(feed, p[1..])
  {
    assert (p + q)[0] == p[0] && (p + q)[1..] == p[1..] + q;
  }

  /** Stamping does not see how the input was cut. */
  lemma {:induction false} StampedConcat(clock: nat -> Bytes, k: nat, start: bool, p: Bytes, q: Bytes)
    ensures Stamped(clock, k, start, p + q)
      == Stamped(clock, k, start, p) + Stamped(clock, k + Started(start, p), StartAfter(start, p), q)
    ensures Started(start, p + q) == Started(start, p) + Started(StartAfter(start, p), q)
    decreases |p|, start
  {
    hide Stamped, Started, StartAfter;
    if p == [] {
      StampedNothing(clock, k, start, q);
    } else if start {
      StampedStart(clock, k, p, q);
      StampedConcat(clock, k + 1, false, p, q);
      var n := k + 1 + Started(false, p);
      Regroup(clock(k) + "  ", Stamped(clock, k + 1, false, p), Stamped(clock, n, StartAfter(false, p), q));
      assert n == k + Started(true, p);
    } else {
      var feed := p[0] == LF;
      StampedStep(clock, k, p, q);
      StampedConcat(clock, k, feed, p[1..], q);
      var n := k + Started(feed, p[1..]);
      Regroup([p[0]], Stamped(clock, k, feed, p[1..]), Stamped(clock, n, StartAfter(false, p), q));
    }
  }

  /** A piece without a line feed in the middle is copied as it is. */
  lemma {:induction false} StampedPiece(clock: nat -> Bytes, k: nat, p: Bytes)
    requires forall i :: 0 <= i < |p| - 1 ==> p[i] != LF
    ensures Stamped(clock, k, false, p) == p && Started(false, p) == 0
    decreases |p|
  {
    if |p| == 1 {
      assert p[1..] == [];
    } else if |p| > 1 {
      StampedPiece(clock, k, p[1..]);
      assert p == [p[0]] + p[1..];
    }
  }

  lemma {:induction false} PieceIs(clock: nat -> Bytes, k: nat, start: bool, piece: Bytes)
    requires piece != [] && forall i :: 0 <= i < |piece| - 1 ==> piece[i] != LF
    ensures Stamped(clock, k, start, piece) == (if start then clock(k) + "  " else []) + piece
    ensures Started(start, piece) == if start then 1 else 0
  {
    StampedPiece(clock, k, piece);
    StampedPiece(clock, k + 1, piece);
    var none: Bytes := [];
    assert none + piece == piece;
  }

  lemma LastByteDecides(input: Bytes, piece: Bytes)
    requires piece != []
    ensures StartAfter(true, input + piece) == (piece[|piece| - 1] == LF)
  {
  }

  /** What one round of the writer's loop adds to the stamped stream. */
  lemma StampedRound(clock: nat -> Bytes, input: Bytes, piece: Bytes)
    requires piece != [] && forall i :: 0 <= i < |piece| - 1 ==> piece[i] != LF
    ensures var start, k := StartAfter(true, input), Started(true, input);
      && Stamped(clock, 0, true, input + piece)
         == Stamped(clock, 0, true, input) + ((if start then clock(k) + "  " else []) + piece)
      && Started(true, input + piece) == k + (if start then 1 else 0)
      && StartAfter(true, input + piece) == (piece[|piece| - 1] == LF)
  {
    hide Stamped, Started, StartAfter;
    StampedConcat(clock, 0, true, input, piece);
    PieceIs(clock, Started(true, input), StartAfter(true, input), piece);
    LastByteDecides(input, piece);
  }

  class TimestampWriter {
    const w: CapWriter
    const clock: nat -> Bytes // the formatted time at each reading of the clock
    var readings: nat
    var atLineStart: bool
    ghost var input: Bytes // everything handed to Write so far

    ghost predicate Valid()
      reads this, w
    {
      && w.Valid()
      && readings == Started(true, input)
      && atLineStart == StartAfter(true, input)
      && Concat(w.writes) == Stamped(clock, 0, true, input)
      && (forall m :: 0 <= m < |w.writes| ==> w.writes[m] != [])
    }

    constructor (w: CapWriter, clock: nat -> Bytes)
      requires w.Valid() && w.writes == []
      ensures Valid() && this.w == w && this.clock == clock && input == []
    {
      this.w, this.clock, readings, atLineStart, input := w, clock, 0, true, [];
    }

    /** Every byte is consumed, whatever the cap does with it. */
    method Write(p: Bytes) returns (consumed: nat)
      requires Valid()
      modifies this, w
      ensures Valid() && input == old(input) + p && consumed == |p|
    {
      hide Stamped, Started, StartAfter, Concat, w.Valid;
      consumed := 0;
      while consumed < |p|
        invariant consumed <= |p|
        invariant input == old(input) + p[..consumed] && Valid()
      {
        var rest := p[consumed..];
        ghost var done, stamp := Concat(w.writes), if atLineStart then clock(readings) + "  " else [];
        if atLineStart {
          AppendWrite(0, w.writes, clock(readings) + "  ");
          var _ := w.Write(clock(readings) + "  ");
          readings := readings + 1;
          atLineStart := false;
        }
        var i := IndexOfLF(rest);
        var piece := if i.Some? then rest[..i.value + 1] else rest;
        assert p[..consumed + |piece|] == p[..consumed] + piece;
        Regroup(old(input), p[..consumed], piece);
        StampedRound(clock, input, piece);
        assert Concat(w.writes) == done + stamp;
        Regroup(done, stamp, piece);
        AppendWrite(0, w.writes, piece);
        var n := w.Write(piece);
        consumed := consumed + n;
        if i.Some? {
          atLineStart := true;
        }
        input := input + piece;
      }
    }
  }

  // The whole pipeline.

  /** The stream if it fits, otherwise its first `limit` bytes and one notice. */
  function LogOf(limit: int, stream: Bytes): Bytes {
    if limit <= 0 || |stream| <= limit then stream else stream[..limit] + Notice(limit)
  }

  /** execute: the command's writes go through a stamping writer over a capping writer into the log. */
  method Log(clock: nat -> Bytes, limit: int, writes: seq<Bytes>) returns (log: Bytes)
    ensures log == LogOf(limit, Stamped(clock, 0, true, Concat(writes)))
    ensures limit > 0 ==> |log| <= limit + |Notice(limit)|
  {
    hide Stamped, Started, StartAfter, Notice;
    var cap := new CapWriter(limit);
    var tw := new TimestampWriter(cap, clock);
    for i := 0 to |writes|
      invariant fresh(cap) && fresh(tw) && tw.w == cap && tw.clock == clock && cap.limit == limit
      invariant tw.Valid() && tw.input == Concat(writes[..i])
    {
      assert writes[..i + 1][..i] == writes[..i];
      var n := tw.Write(writes[i]);
    }
    assert writes[..|writes|] == writes;
    OverrunMeansTooLong(limit, cap.writes);
    log := cap.w;
  }

  // Getting the output back.

  /** The length of the first line, its line feed included. */
  function LineEnd(s: Bytes): (e: nat)
    ensures e <= |s| && (s != [] ==> e > 0)
  {
    if s == [] then 0 else if s[0] == LF then 1 else 1 + LineEnd(s[1..])
  }

  /** What follows the first double space. */
  function DropStamp(line: Bytes): Bytes {
    if |line| < 2 then []
    else if line[0] == ' ' && line[1] == ' ' then line[2..]
    else DropStamp(line[1..])
  }

  function Unstamp(s: Bytes): Bytes {
    if s == [] then [] else DropStamp(s[..LineEnd(s)]) + Unstamp(s[LineEnd(s)..])
  }

  /** The text of a stamp has no space and no line feed, as in ISO 8601. */
  ghost predicate PlainClock(clock: nat -> Bytes) {
    forall k :: ' ' !in clock(k) && LF !in clock(k)
  }

  lemma {:induction false} LineEndIs(s: Bytes, e: nat)
    requires e <= |s| && (forall i :: 0 <= i < e - 1 ==> s[i] != LF)
    requires e > 0 && (s[e - 1] == LF || e == |s|)
    ensures LineEnd(s) == e
    decreases |s|
  {
    if e > 1 {
      LineEndIs(s[1..], e - 1);
    }
  }

  lemma {:induction false} LineEndStops(s: Bytes)
    requires s != []
    ensures forall i :: 0 <= i < LineEnd(s) - 1 ==> s[i] != LF
    ensures s[LineEnd(s) - 1] == LF || LineEnd(s) == |s|
    decreases |s|
  {
    if s[0] != LF && |s| > 1 {
      LineEndStops(s[1..]);
    }
  }

  lemma StampIsPlain(clock: nat -> Bytes, k: nat)
    requires PlainClock(clock)
    ensures ' ' !in clock(k)
  {
  }

  lemma {:induction false} DropsItsStamp(stamp: Bytes, line: Bytes)
    requires ' ' !in stamp
    ensures DropStamp(stamp + "  " + line) == line
    decreases |stamp|
  {
    var s := stamp + "  " + line;
    if stamp == [] {
      assert s == "  " + line;
    } else {
      assert s[1..] == stamp[1..] + "  " + line;
      DropsItsStamp(stamp[1..], line);
    }
  }

  /** The stamped stream, one line off the front. */
  lemma StampedLine(clock: nat -> Bytes, k: nat, p: Bytes)
    requires p != []
    ensures var e := LineEnd(p);
      && Stamped(clock, k, true, p) == (clock(k) + "  " + p[..e]) + Stamped(clock, k + 1, true, p[e..])
      && Started(true, p) == 1 + Started(true, p[e..])
  {
    var e := LineEnd(p);
    LineEndStops(p);
    var line, rest := p[..e], p[e..];
    assert p == line + rest;
    StampedConcat(clock, k, true, line, rest);
    StampedPiece(clock, k + 1, line);
  }

  /** Its first line is the stamp and the output's first line. */
  lemma StampedSplit(clock: nat -> Bytes, k: nat, p: Bytes)
    requires PlainClock(clock) && p != []
    ensures var s, e := Stamped(clock, k, true, p), LineEnd(p);
      && s != [] && s[..LineEnd(s)] == clock(k) + "  " + p[..e]
      && s[LineEnd(s)..] == Stamped(clock, k + 1, true, p[e..])
      && Started(true, p) == 1 + Started(true, p[e..])
  {
    var head, s := clock(k) + "  " + p[..LineEnd(p)], Stamped(clock, k, true, p);
    StampedLine(clock, k, p);
    LineEndStops(p);
    LineEndIs(s, |head|);
    assert s[..|head|] == head;
  }

  lemma {:induction false} StampedNothingIs(clock: nat -> Bytes, k: nat)
    ensures Stamped(clock, k, true, []) == [] && Started(true, []) == 0
  {
  }

  /** Dropping each line through its first double space gives the command's output back. */
  lemma {:induction false} UnstampInverts(clock: nat -> Bytes, k: nat, p: Bytes)
    requires PlainClock(clock)
    ensures Unstamp(Stamped(clock, k, true, p)) == p
    decreases |p|
  {
    hide Stamped, LineEnd, DropStamp, PlainClock, Started;
    if p == [] {
      StampedNothingIs(clock, k);
    } else {
      var line, rest, s := p[..LineEnd(p)], p[LineEnd(p)..], Stamped(clock, k, true, p);
      StampedSplit(clock, k, p);
      StampIsPlain(clock, k);
      DropsItsStamp(clock(k), line);
      UnstampInverts(clock, k + 1, rest);
      assert Unstamp(s) == DropStamp(s[..LineEnd(s)]) + Unstamp(s[LineEnd(s)..]);
      assert p == line + rest;
    }
  }

  /** What stands before the first double space. */
  function StampOf(line: Bytes): Bytes {
    if |line| < 2 then line
    else if line[0] == ' ' && line[1] == ' ' then []
    else [line[0]] + StampOf(line[1..])
  }

  function Stamps(s: Bytes): seq<Bytes> {
    if s == [] then [] else [StampOf(s[..LineEnd(s)])] + Stamps(s[LineEnd(s)..])
  }

  lemma {:induction false} ReadsItsStamp(stamp: Bytes, line: Bytes)
    requires ' ' !in stamp
    ensures StampOf(stamp + "  " + line) == stamp
    decreases |stamp|
  {
    var s := stamp + "  " + line;
    if stamp == [] {
      assert s == "  " + line;
    } else {
      assert s[1..] == stamp[1..] + "  " + line;
      ReadsItsStamp(stamp[1..], line);
    }
  }

  /** So many readings of the clock, from the k-th on. */
  function Readings(clock: nat -> Bytes, k: nat, n: nat): seq<Bytes>
    decreases n
  {
    if n == 0 then [] else [clock(k)] + Readings(clock, k + 1, n - 1)
  }

  lemma {:induction false} NoReadings(clock: nat -> Bytes, k: nat)
    ensures Readings(clock, k, 0) == []
  {
  }

  lemma OneMoreReading(clock: nat -> Bytes, k: nat, p: Bytes)
    requires Started(true, p) == 1 + Started(true, p[LineEnd(p)..])
    ensures Readings(clock, k, Started(true, p)) == [clock(k)] + Readings(clock, k + 1, Started(true, p[LineEnd(p)..]))
  {
    hide Started, LineEnd;
  }

  /** Each line has a reading of the clock of its own, in the order of the lines. */
  lemma {:induction false} StampsAreReadings(clock: nat -> Bytes, k: nat, p: Bytes)
    requires PlainClock(clock)
    ensures Stamps(Stamped(clock, k, true, p)) == Readings(clock, k, Started(true, p))
    decreases |p|
  {
    hide Stamped, LineEnd, StampOf, PlainClock, Started, Readings;
    if p == [] {
      StampedNothingIs(clock, k);
      NoReadings(clock, k);
    } else {
      var s := Stamped(clock, k, true, p);
      StampedSplit(clock, k, p);
      StampIsPlain(clock, k);
      ReadsItsStamp(clock(k), p[..LineEnd(p)]);
      StampsAreReadings(clock, k + 1, p[LineEnd(p)..]);
      assert Stamps(s) == [StampOf(s[..LineEnd(s)])] + Stamps(s[LineEnd(s)..]);
      OneMoreReading(clock, k, p);
    }
  }

  function LineFeeds(p: Bytes): nat {
    if p == [] then 0 else (if p[0] == LF then 1 else 0) + LineFeeds(p[1..])
  }

  lemma {:induction false} StampsAfterStart(p: Bytes)
    requires p != []
    ensures Started(false, p) == LineFeeds(p[..|p| - 1])
    decreases |p|
  {
    if |p| > 1 {
      StampsAfterStart(p[1..]);
      assert p[..|p| - 1][1..] == p[1..][..|p| - 2];
    } else {
      assert p[1..] == [];
    }
  }

  /** One stamp for each line that was started: one more than the line feeds before the last byte. */
  lemma {:induction false} OneStampPerLine(p: Bytes)
    ensures Started(true, p) == if p == [] then 0 else 1 + LineFeeds(p[..|p| - 1])
    decreases |p|
  {
    if p != [] {
      StampsAfterStart(p);
    }
  }
}
