/** The CRI log splitter (shim/io/logger.go): a container's output stream is read
    through a small fixed-size buffer and written as log entries of bounded length.
    `Entries` says what should be written, without any buffer; `RedirectLogs` is the
    buffered loop, proved to write exactly that. */
module CriLog {
  newtype byte = x: int | 0 <= x < 256
  type Bytes = seq<byte>

  const NL: byte := 10
  const CR: byte := 13
  const SP: byte := 32
  const DEFAULT_BUF_SIZE := 4096
  const MIN_READER_SIZE := 16

  datatype Tag = Partial | Full
  datatype Entry = Entry(tag: Tag, content: Bytes)

  // ---------------------------------------------------------------- specification

  /** Index of the first `b` in `s`, or the length of `s` when there is none. */
  function IndexOf(s: Bytes, b: byte): (k: nat)
    ensures k <= |s| && b !in s[..k]
    ensures k < |s| ==> s[k] == b
  {
    if s == [] || s[0] == b then 0 else
      var k := 1 + IndexOf(s[1..], b);
      assert s[..k] == [s[0]] + s[1..][..k - 1];
      k
  }

  /** Drops one carriage return from the end. */
  function DropCR(s: Bytes): Bytes {
    if s != [] && s[|s| - 1] == CR then s[..|s| - 1] else s
  }

  /** Cuts a line into pieces of exactly `maxLen`, the last one possibly shorter. All
      pieces but the last are partial; a non-positive `maxLen` means no limit. */
  function Cut(line: Bytes, maxLen: int, last: Tag): seq<Entry> {
    if maxLen <= 0 || |line| <= maxLen then [Entry(last, line)]
    else [Entry(Partial, line[..maxLen])] + Cut(line[maxLen..], maxLen, last)
  }

  /** What the log of a whole stream is: one cut line per newline, then the cut
      unterminated rest, of which nothing is written when it is empty. */
  function Entries(s: Bytes, maxLen: int): seq<Entry> {
    if s == [] then []
    else if NL !in s then Cut(s, maxLen, Partial)
    else
      var k := IndexOf(s, NL);
      Cut(DropCR(s[..k]), maxLen, Full) + Entries(s[k + 1..], maxLen)
  }

  /** A log line: time stamp, stream and tag, each followed by a space, then the content. */
  function Render(stamp: Bytes, stream: Bytes, e: Entry): Bytes {
    RenderBody(stamp, stream, e) + [NL]
  }

  function RenderBody(stamp: Bytes, stream: Bytes, e: Entry): Bytes {
    stamp + [SP] + (stream + [SP] + (TagBytes(e.tag) + [SP] + e.content))
  }

  function TagBytes(t: Tag): Bytes {
    match t
    case Partial => [80]
    case Full => [70]
  }

  /** The log file from entry `i` on; `clock(i)` is the formatted time at which it is written. */
  function PrintLog(es: seq<Entry>, stream: Bytes, clock: nat -> Bytes, i: nat := 0): Bytes {
    if es == [] then []
    else Render(clock(i), stream, es[0]) + PrintLog(es[1..], stream, clock, i + 1)
  }

  function Concat(chunks: seq<Bytes>): Bytes {
    if chunks == [] then [] else Concat(chunks[..|chunks| - 1]) + chunks[|chunks| - 1]
  }

  /** The reader's buffer never exceeds the limit exactly for these limits. */
  predicate Fits(maxLen: int) {
    maxLen <= 0 || maxLen >= MIN_READER_SIZE
  }

  /** Inputs on which a limit the buffer does not fit is fatal. */
  predicate Failing(input: Bytes, maxLen: int) {
    !Fits(maxLen) && Plain(input) && |input| >= 288
  }

  predicate Plain(s: Bytes) {
    NL !in s && CR !in s
  }

  // ---------------------------------------------------------------- lemmas

  lemma DropCRAppend(a: Bytes, b: Bytes)
    requires b != [] || DropCR(a) == a
    ensures DropCR(a + b) == a + DropCR(b)
  {
    if b == [] { assert a + b == a; }
  }

  /** The entries of a stream whose first newline is at `k`. */
  lemma {:induction false} EntriesAt(s: Bytes, k: nat, maxLen: int)
    requires k < |s| && s[k] == NL && NL !in s[..k]
    ensures Entries(s, maxLen) == Cut(DropCR(s[..k]), maxLen, Full) + Entries(s[k + 1..], maxLen)
  {
    IndexOfUnique(s, NL, k);
  }

  lemma {:induction false} IndexOfUnique(s: Bytes, b: byte, k: nat)
    requires k <= |s| && b !in s[..k]
    requires k < |s| ==> s[k] == b
    ensures IndexOf(s, b) == k
  {}

  /** The first line of `acc + rest` when the newline is found in `rest`. */
  lemma {:induction false} EntriesLine(acc: Bytes, rest: Bytes, k: nat, maxLen: int)
    requires NL !in acc && k < |rest| && NL !in rest[..k] && rest[k] == NL
    requires k == 0 ==> DropCR(acc) == acc
    ensures Entries(acc + rest, maxLen)
         == Cut(acc + DropCR(rest[..k]), maxLen, Full) + Entries(rest[k + 1..], maxLen)
  {
    hide Entries, Cut;
    var s, n := acc + rest, |acc| + k;
    assert s[..n] == acc + rest[..k];
    EntriesAt(s, n, maxLen);
    assert s[n + 1..] == rest[k + 1..];
    DropCRAppend(acc, rest[..k]);
  }

  lemma {:induction false} CutAppend(piece: Bytes, more: Bytes, last: Tag)
    requires piece != [] && more != []
    ensures Cut(piece + more, |piece|, last) == [Entry(Partial, piece)] + Cut(more, |piece|, last)
  {
    assert (piece + more)[|piece|..] == more;
  }

  /** Taking one full piece off the front of a stream whose first line is longer. */
  lemma {:induction false} EntriesTakePiece(piece: Bytes, more: Bytes)
    requires piece != [] && NL !in piece && more != []
    requires NL in more ==> DropCR(more[..IndexOf(more, NL)]) != []
    ensures Entries(piece + more, |piece|) == [Entry(Partial, piece)] + Entries(more, |piece|)
  {
    if NL in more {
      hide Entries, Cut;
      var k := IndexOf(more, NL);
      var line, after := DropCR(more[..k]), Entries(more[k + 1..], |piece|);
      EntriesLine(piece, more, k, |piece|);
      EntriesAt(more, k, |piece|);
      CutAppend(piece, line, Full);
      Regroup([Entry(Partial, piece)], Cut(line, |piece|, Full), [], after);
    } else {
      assert NL !in piece + more;
      CutAppend(piece, more, Partial);
    }
  }

  lemma {:induction false} ConcatAppend(chunks: seq<Bytes>, c: Bytes)
    ensures Concat(chunks + [c]) == Concat(chunks) + c
  {
    assert (chunks + [c])[..|chunks|] == chunks;
  }

  lemma {:induction false} PrintLogAppend(es: seq<Entry>, e: Entry, stream: Bytes, clock: nat -> Bytes, i: nat := 0)
    ensures PrintLog(es + [e], stream, clock, i)
         == PrintLog(es, stream, clock, i) + Render(clock(i + |es|), stream, e)
  {
    if es == [] {
      assert (es + [e])[1..] == [];
    } else {
      assert (es + [e])[1..] == es[1..] + [e];
      PrintLogAppend(es[1..], e, stream, clock, i + 1);
      var first, rest := Render(clock(i), stream, es[0]), PrintLog(es[1..], stream, clock, i + 1);
      Regroup(first, rest, [], Render(clock(i + |es|), stream, e));
    }
  }

  // ---------------------------------------------------------------- the buffered reader

  datatype ReadError = NoError | BufferFull | Eof

  /** A `bufio.Reader` over a finite stream. */
  class Reader {
    const input: Bytes
    const size: nat
    var pos: nat
    var canUnread: bool

    ghost predicate Valid()
      reads this
    {
      pos <= |input| && size >= MIN_READER_SIZE
    }

    ghost function Rest(): Bytes
      requires Valid()
      reads this
    {
      input[pos..]
    }

    /** `bufio.NewReaderSize`: no reader is smaller than 16 bytes. */
    constructor (input: Bytes, requested: int)
      ensures Valid() && Rest() == input && this.input == input && pos == 0
      ensures size == if requested < MIN_READER_SIZE then MIN_READER_SIZE else requested
    {
      this.input := input;
      size := if requested < MIN_READER_SIZE then MIN_READER_SIZE else requested;
      pos := 0;
      canUnread := false;
    }

    /** Reads up to and including the first newline, at most a buffer full. When exactly
        a buffer full is left, the end of the stream may or may not be noticed yet. */
    method ReadSlice() returns (line: Bytes, err: ReadError)
      requires Valid()
      modifies this
      ensures Valid() && old(Rest()) == line + Rest() && pos == old(pos) + |line|
      ensures line != [] ==> canUnread
      ensures err.NoError? ==> 0 < |line| <= size && line[|line| - 1] == NL && NL !in line[..|line| - 1]
      ensures err.BufferFull? ==> |line| == size && NL !in line
      ensures err.Eof? ==> |line| <= size && NL !in line && Rest() == []
    {
      var n := 0;
      while n < size && pos + n < |input| && input[pos + n] != NL
        invariant n <= size && pos + n <= |input| && NL !in input[pos..pos + n]
      {
        n := n + 1;
      }
      var start := pos;
      var sawEof: bool := *;
      if n < size && pos + n < |input| {
        line, err := input[pos..pos + n + 1], NoError;
        assert line[..|line| - 1] == input[pos..pos + n];
      } else if n == size && (pos + n < |input| || !sawEof) {
        line, err := input[pos..pos + n], BufferFull;
      } else {
        line, err := input[pos..], Eof;
        assert line == input[pos..pos + n];
      }
      pos := pos + |line|;
      canUnread := canUnread || line != [];
      assert input[start..] == line + input[pos..];
    }

    /** Pushes the last byte read back; fails when there is none. */
    method UnreadByte() returns (ok: bool)
      requires Valid() && (canUnread ==> pos > 0)
      modifies this
      ensures ok == old(canUnread) && Valid() && !canUnread
      ensures pos == if ok then old(pos) - 1 else old(pos)
    {
      ok := canUnread;
      if ok { pos := pos - 1; }
      canUnread := false;
    }

    /** `readLine`: the next line without its line end, or a prefix of it that never ends
        between a carriage return and a newline. Both panics are unreachable. */
    method ReadLine() returns (line: Bytes, isPrefix: bool, eof: bool)
      requires Valid()
      modifies this
      ensures Valid() && old(pos) <= pos && (!eof ==> old(pos) < pos)
      ensures ReadResult(size, old(Rest()), line, isPrefix, eof, Rest())
    {
      ghost var rest := Rest();
      var err;
      line, err := ReadSlice();
      if err.BufferFull? {
        if line[|line| - 1] == CR {
          var ok := UnreadByte();
          assert ok;
          line := line[..|line| - 1];
          assert Rest()[0] == rest[|line|] == CR;
          assert rest == line + Rest();
        }
        return line, true, false;
      }
      isPrefix, eof := false, err.Eof?;
      if line != [] && line[|line| - 1] == NL {
        assert !eof;
        var k := |line| - 1;
        assert rest[..k] == line[..k] && rest[k + 1..] == Rest() && rest[k] == NL;
        var drop := if |line| > 1 && line[|line| - 2] == CR then 2 else 1;
        line := line[..|line| - drop];
        assert line == DropCR(rest[..k]);
        assert IsLineAt(rest, line, Rest(), k);
      }
    }
  }

  /** `line` is the first line of `before`, and `after` is what follows its newline. */
  ghost predicate IsLineAt(before: Bytes, line: Bytes, after: Bytes, k: nat) {
    && k < |before| && before[k] == NL && NL !in before[..k]
    && line == DropCR(before[..k]) && after == before[k + 1..]
  }

  /** The outcome of one `readLine`: a prefix of the line, its end, or the end of the stream. */
  ghost predicate ReadResult(size: nat, before: Bytes, line: Bytes, isPrefix: bool, eof: bool, after: Bytes) {
    && |line| <= size
    && if isPrefix then
         && !eof && line != [] && NL !in line && before == line + after
         && (line[|line| - 1] != CR || (after != [] && after[0] == CR))
         && (|line| < size ==> after != [] && after[0] == CR)
       else if eof then line == before && after == [] && NL !in line
       else IsLine(before, line, after)
  }

  ghost predicate IsLine(before: Bytes, line: Bytes, after: Bytes) {
    exists k: nat :: IsLineAt(before, line, after, k)
  }

  // ---------------------------------------------------------------- the loop

  /** `acc` is the buffered part of the current line and `rest` is still unread: what is
      left to write is the log of `acc + rest`. */
  ghost predicate Buffered(acc: Bytes, rest: Bytes) {
    NL !in acc && (acc != [] && acc[|acc| - 1] == CR ==> rest != [] && rest[0] != NL)
  }

  lemma {:induction false} FirstLineNonEmpty(head: Bytes, rest: Bytes)
    requires Buffered(head, rest) && head != [] && NL in head + rest
    ensures DropCR((head + rest)[..IndexOf(head + rest, NL)]) != []
  {
    var s := head + rest;
    var k := IndexOf(s, NL);
    assert k >= |head| && s[k] == NL;
    assert s[0] == head[0];
  }

  lemma {:induction false} PieceLeavesLine(piece: Bytes, kept: Bytes, rest: Bytes)
    requires Buffered(piece + kept, rest) && piece != [] && kept != []
    ensures Buffered(kept, rest)
    ensures Entries(piece + kept + rest, |piece|) == [Entry(Partial, piece)] + Entries(kept + rest, |piece|)
  {
    hide Entries;
    var acc := piece + kept;
    assert acc[|piece|..] == kept && acc[..|piece|] == piece;
    if NL in kept + rest { FirstLineNonEmpty(kept, rest); }
    assert acc + rest == piece + (kept + rest);
    EntriesTakePiece(piece, kept + rest);
  }

  lemma {:induction false} LineEnds(acc: Bytes, rest: Bytes, line: Bytes, after: Bytes, maxLen: int)
    requires Buffered(acc, rest) && IsLine(rest, line, after)
    ensures Entries(acc + rest, maxLen) == Cut(acc + line, maxLen, Full) + Entries(after, maxLen)
  {
    hide Entries, Cut;
    var k: nat :| IsLineAt(rest, line, after, k);
    EntriesLine(acc, rest, k, maxLen);
  }

  /** The piece written when the buffered line has outgrown the limit, and what is kept. */
  function Overflow(acc: Bytes, maxLen: int): seq<Entry> {
    if 0 < maxLen < |acc| then [Entry(Partial, acc[..maxLen])] else []
  }

  function Keep(acc: Bytes, maxLen: int): Bytes {
    if 0 < maxLen < |acc| then acc[maxLen..] else acc
  }

  lemma {:induction false} CutIsOverflow(acc: Bytes, maxLen: int, last: Tag)
    requires maxLen > 0 ==> |acc| <= 2 * maxLen
    ensures Cut(acc, maxLen, last) == Overflow(acc, maxLen) + [Entry(last, Keep(acc, maxLen))]
  {
    if 0 < maxLen < |acc| {
      assert Cut(acc[maxLen..], maxLen, last) == [Entry(last, acc[maxLen..])];
    }
  }

  lemma Regroup<T>(a: seq<T>, b: seq<T>, c: seq<T>, d: seq<T>)
    ensures a + ((b + c) + d) == ((a + b) + c) + d
    ensures a + (b + d) == (a + b) + d
  {}

  /** Between iterations: `es` is written, the log of `acc + rest` is still to be written,
      and no more than the limit is buffered. */
  ghost predicate LoopInv(input: Bytes, maxLen: int, es: seq<Entry>, acc: Bytes, rest: Bytes) {
    && Buffered(acc, rest) && (maxLen > 0 ==> |acc| <= maxLen)
    && Entries(input, maxLen) == es + Entries(acc + rest, maxLen)
  }

  lemma {:induction false} PrefixStep(input: Bytes, maxLen: int, es: seq<Entry>, acc: Bytes, line: Bytes, rest: Bytes)
    requires LoopInv(input, maxLen, es, acc, line + rest)
    requires line != [] && NL !in line && (maxLen > 0 ==> |line| <= maxLen)
    requires line[|line| - 1] != CR || (rest != [] && rest[0] == CR)
    ensures LoopInv(input, maxLen, es + Overflow(acc + line, maxLen), Keep(acc + line, maxLen), rest)
  {
    hide Entries;
    var acc' := acc + line;
    assert acc + (line + rest) == acc' + rest;
    assert Buffered(acc', rest);
    if 0 < maxLen < |acc'| {
      var piece, kept := acc'[..maxLen], acc'[maxLen..];
      assert acc' == piece + kept;
      PieceLeavesLine(piece, kept, rest);
      Regroup(es, [Entry(Partial, piece)], [], Entries(kept + rest, maxLen));
    }
  }

  lemma {:induction false} LineStep(input: Bytes, maxLen: int, es: seq<Entry>, acc: Bytes, before: Bytes, line: Bytes,
                                    rest: Bytes)
    requires LoopInv(input, maxLen, es, acc, before) && IsLine(before, line, rest) && (maxLen > 0 ==> |line| <= maxLen)
    ensures LoopInv(input, maxLen,
              es + Overflow(acc + line, maxLen) + [Entry(Full, Keep(acc + line, maxLen))], [], rest)
  {
    hide Entries, Cut;
    LineEnds(acc, before, line, rest, maxLen);
    CutIsOverflow(acc + line, maxLen, Full);
    assert [] + rest == rest;
    var a, b, c := Overflow(acc + line, maxLen), [Entry(Full, Keep(acc + line, maxLen))], Entries(rest, maxLen);
    Regroup(es, a, b, c);
  }

  lemma {:induction false} EofStep(input: Bytes, maxLen: int, es: seq<Entry>, acc: Bytes, line: Bytes)
    requires LoopInv(input, maxLen, es, acc, line) && NL !in line
    requires maxLen > 0 ==> |line| <= maxLen
    ensures Entries(input, maxLen) == if acc + line == [] then es else
              es + Overflow(acc + line, maxLen) + [Entry(Partial, Keep(acc + line, maxLen))]
  {
    CutIsOverflow(acc + line, maxLen, Partial);
    Regroup(es, Overflow(acc + line, maxLen), [], [Entry(Partial, Keep(acc + line, maxLen))]);
  }

  /** One iteration: what it writes is what the log needs next, and the invariant is kept. */
  lemma {:induction false} ReadStep(input: Bytes, maxLen: int, es: seq<Entry>, acc: Bytes, size: nat,
                                    before: Bytes, line: Bytes, isPrefix: bool, eof: bool, after: Bytes)
    requires LoopInv(input, maxLen, es, acc, before) && ReadResult(size, before, line, isPrefix, eof, after)
    requires maxLen > 0 ==> size <= maxLen
    ensures maxLen > 0 ==> |acc + line| - maxLen <= |line|
    ensures var es' := es + Overflow(acc + line, maxLen);
            var kept := Keep(acc + line, maxLen);
            if isPrefix then LoopInv(input, maxLen, es', kept, after)
            else if !eof then LoopInv(input, maxLen, es' + [Entry(Full, kept)], [], after)
            else Entries(input, maxLen) == if acc + line == [] then es else es' + [Entry(Partial, kept)]
  {
    hide Entries, Overflow, Keep;
    if isPrefix { PrefixStep(input, maxLen, es, acc, line, after); }
    else if eof { EofStep(input, maxLen, es, acc, line); }
    else { LineStep(input, maxLen, es, acc, before, line, after); }
  }

  lemma PlainRead(before: Bytes, line: Bytes, isPrefix: bool, eof: bool, after: Bytes)
    requires ReadResult(16, before, line, isPrefix, eof, after) && Plain(before) && |before| > 16
    ensures isPrefix && |line| == 16
  {
    assert isPrefix && after != [] ==> before[|line|] == after[0];
  }

  /** `writeLineBuffer`: headers and chunks are appended one by one. */
  method WriteLineBuffer(stamp: Bytes, stream: Bytes, tag: Tag, chunks: seq<Bytes>) returns (line: Bytes)
    ensures line == Render(stamp, stream, Entry(tag, Concat(chunks)))
    ensures line == stamp + [32] + stream + [32, if tag.Full? then 70 else 80, 32] + Concat(chunks) + [10]
  {
    var header := stamp + [SP] + stream + [SP] + TagBytes(tag) + [SP];
    line := header;
    for i := 0 to |chunks|
      invariant line == header + Concat(chunks[..i])
    {
      assert chunks[..i + 1] == chunks[..i] + [chunks[i]];
      ConcatAppend(chunks[..i], chunks[i]);
      line := line + chunks[i];
    }
    assert chunks[..|chunks|] == chunks;
    assert line == RenderBody(stamp, stream, Entry(tag, Concat(chunks)));
    line := line + [NL];
  }

  /** Cuts `exceed` bytes off the last chunk. */
  method SplitLast(chunks: seq<Bytes>, exceed: nat) returns (head: seq<Bytes>, tail: seq<Bytes>)
    requires chunks != [] && exceed <= |chunks[|chunks| - 1]|
    ensures |Concat(chunks)| >= exceed && |tail| == 1
    ensures Concat(head) == Concat(chunks)[..|Concat(chunks)| - exceed]
    ensures Concat(tail) == Concat(chunks)[|Concat(chunks)| - exceed..]
  {
    var n := |chunks| - 1;
    var last := chunks[n];
    var k := |last| - exceed;
    head, tail := chunks[..n] + [last[..k]], [last[k..]];
    ConcatAppend(chunks[..n], last[..k]);
    ConcatAppend([], last[k..]);
    assert [] + [last[k..]] == tail;
    assert last == last[..k] + last[k..];
  }

  /** The variables `redirectLogs` and its `writeLineBuffer` closure share: the chunks of the
      current line, their tracked length, and the log written so far. */
  class Splitter {
    const maxLen: int
    const stream: Bytes
    const clock: nat -> Bytes
    var buf: seq<Bytes>
    var length: nat
    var log: Bytes
    var written: nat
    ghost var es: seq<Entry>

    ghost predicate Valid()
      reads this
    {
      length == |Acc()| && |es| == written && log == PrintLog(es, stream, clock)
    }

    ghost function Acc(): Bytes
      reads this
    {
      Concat(buf)
    }

    constructor (maxLen: int, stream: Bytes, clock: nat -> Bytes)
      ensures Valid() && buf == [] && Acc() == [] && es == []
      ensures this.maxLen == maxLen && this.stream == stream && this.clock == clock
    {
      this.maxLen, this.stream, this.clock := maxLen, stream, clock;
      buf, length, log, written, es := [], 0, [], 0, [];
    }

    method Append(newLine: Bytes)
      requires Valid()
      modifies this
      ensures Valid() && Acc() == old(Acc()) + newLine && es == old(es)
      ensures buf == if newLine == [] then old(buf) else old(buf) + [newLine]
    {
      if newLine != [] {
        ConcatAppend(buf, newLine);
        buf, length := buf + [newLine], length + |newLine|;
      }
    }

    method WriteEntry(tag: Tag, chunks: seq<Bytes>)
      requires Valid()
      modifies `log, `written, `es
      ensures Valid() && es == old(es) + [Entry(tag, Concat(chunks))]
    {
      var line := WriteLineBuffer(clock(written), stream, tag, chunks);
      PrintLogAppend(es, Entry(tag, Concat(chunks)), stream, clock);
      es := es + [Entry(tag, Concat(chunks))];
      log, written := log + line, written + 1;
    }

    /** Writes one full piece when too much is buffered; the panic of the source is a result. */
    method SplitLong() returns (panicked: bool)
      requires Valid()
      modifies this
      ensures panicked <==> 0 < maxLen < old(length) && old(length) - maxLen > |old(buf)[|old(buf)| - 1]|
      ensures !panicked ==> Valid() && es == old(es) + Overflow(old(Acc()), maxLen)
      ensures !panicked ==> Acc() == Keep(old(Acc()), maxLen)
      ensures !panicked && |old(buf)| <= 2 && old(length) > maxLen > 0 ==> |buf| == 1
    {
      panicked := false;
      if maxLen > 0 && length > maxLen {
        var exceed := length - maxLen;
        if exceed > |buf[|buf| - 1]| { return true; }
        var head, tail := SplitLast(buf, exceed);
        WriteEntry(Partial, head);
        buf, length := tail, exceed;
      }
    }

    method Flush(tag: Tag)
      requires Valid()
      modifies this
      ensures Valid() && buf == [] && Acc() == [] && es == old(es) + [Entry(tag, old(Acc()))]
    {
      WriteEntry(tag, buf);
      buf, length := [], 0;
    }
  }

  /** `redirectLogs`, over a finite stream. For every limit the reader's buffer fits, the
      log is the specified one and no panic is reached. For every other limit a long
      enough line makes it panic, so the condition on `maxLen` is exact. */
  method RedirectLogs(input: Bytes, stream: Bytes, maxLen: int, clock: nat -> Bytes)
    returns (log: Bytes, panicked: bool)
    ensures Fits(maxLen) ==> !panicked && log == PrintLog(Entries(input, maxLen), stream, clock)
    ensures Failing(input, maxLen) ==> panicked
  {
    hide Entries, PrintLog, IsLine, Render, Concat;
    var bufSize := DEFAULT_BUF_SIZE;
    if 0 < maxLen < bufSize { bufSize := maxLen; }
    var r := new Reader(input, bufSize);
    var w := new Splitter(maxLen, stream, clock);
    ghost var rounds := 0;
    LoopStarts(input, maxLen);
    while true
      invariant r.Valid() && r.input == input && w.Valid()
      invariant Fits(maxLen) ==> LoopInv(input, maxLen, w.es, w.Acc(), r.Rest())
      invariant Failing(input, maxLen) ==> Overrun(w.buf, w.Acc(), r.pos, rounds)
      decreases |input| - r.pos
    {
      ghost var es, acc, rest := w.es, w.Acc(), r.Rest();
      var newLine, isPrefix, eof := r.ReadLine();
      w.Append(newLine);
      if Fits(maxLen) {
        ReadStep(input, maxLen, es, acc, r.size, rest, newLine, isPrefix, eof, r.Rest());
      } else if Failing(input, maxLen) {
        PlainRead(rest, newLine, isPrefix, eof, r.Rest());
      }
      if eof && w.length == 0 { return w.log, false; }
      panicked := w.SplitLong();
      if panicked { return [], true; }
      rounds := rounds + 1;
      if isPrefix { continue; }
      w.Flush(if eof then Partial else Full);
      if eof { return w.log, false; }
    }
  }

  lemma {:induction false} LoopStarts(input: Bytes, maxLen: int)
    ensures LoopInv(input, maxLen, [], [], input)
  {
    assert [] + input == input;
  }

  /** The failing runs: each read of 16 bytes buffers more than is written. */
  ghost predicate Overrun(buf: seq<Bytes>, acc: Bytes, pos: nat, rounds: nat) {
    && |buf| <= 1 && pos == 16 * rounds && rounds <= |acc| <= 16
    && (buf == [] ==> rounds == 0)
  }
}
