/** Reading a CRI log back: the log is split at newlines, each line into its three
    headers and its content, and each run of partial entries is glued to the full entry
    that ends it. The result is the container's output, line by line. */
module CriLogRoundTrip {
  import opened CriLog
  import opened Options

  /** A text: its lines without line ends, and what follows the last newline. */
  datatype Text = Text(lines: seq<Bytes>, tail: Bytes)

  /** The reference: split at newlines, one carriage return before each dropped. */
  function Lines(s: Bytes): Text {
    if NL !in s then Text([], s)
    else
      var k := IndexOf(s, NL);
      var t := Lines(s[k + 1..]);
      Text([DropCR(s[..k])] + t.lines, t.tail)
  }

  /** What follows the first space. */
  function AfterSpace(s: Bytes): Bytes {
    var k := IndexOf(s, SP);
    if k < |s| then s[k + 1..] else []
  }

  function ParseLine(line: Bytes): Option<Entry> {
    var fields := AfterSpace(AfterSpace(line));
    var tag := fields[..IndexOf(fields, SP)];
    if tag == [80] then Some(Entry(Partial, AfterSpace(fields)))
    else if tag == [70] then Some(Entry(Full, AfterSpace(fields)))
    else None
  }

  function ParseLog(s: Bytes): Option<seq<Entry>> {
    if NL !in s then if s == [] then Some([]) else None
    else
      var k := IndexOf(s, NL);
      match (ParseLine(s[..k]), ParseLog(s[k + 1..]))
      case (Some(e), Some(es)) => Some([e] + es)
      case _ => None
  }

  /** Glues partial entries; `acc` is the part of the current line already seen. */
  function Glue(es: seq<Entry>, acc: Bytes): Text {
    if es == [] then Text([], acc)
    else if es[0].tag.Partial? then Glue(es[1..], acc + es[0].content)
    else
      var t := Glue(es[1..], []);
      Text([acc + es[0].content] + t.lines, t.tail)
  }

  /** No space and no newline: what time stamps and stream names look like. */
  predicate Word(s: Bytes) {
    SP !in s && NL !in s
  }

  // ---------------------------------------------------------------- the log parses

  lemma {:induction false} AfterWord(word: Bytes, rest: Bytes)
    requires SP !in word
    ensures IndexOf(word + [SP] + rest, SP) == |word| && AfterSpace(word + [SP] + rest) == rest
  {
    var s := word + [SP] + rest;
    assert s[..|word|] == word;
    IndexOfUnique(s, SP, |word|);
  }

  lemma {:induction false} BodyParses(stamp: Bytes, stream: Bytes, e: Entry)
    requires Word(stamp) && Word(stream)
    ensures ParseLine(RenderBody(stamp, stream, e)) == Some(e)
  {
    hide IndexOf;
    var tag := TagBytes(e.tag);
    var fields := tag + [SP] + e.content;
    AfterWord(stamp, stream + [SP] + fields);
    AfterWord(stream, fields);
    AfterWord(tag, e.content);
    assert fields[..|tag|] == tag;
  }

  lemma {:induction false} ParseFirst(line: Bytes, rest: Bytes)
    requires NL !in line
    ensures ParseLog(line + [NL] + rest) ==
      if ParseLine(line).Some? && ParseLog(rest).Some? then Some([ParseLine(line).value] + ParseLog(rest).value)
      else None
  {
    var s := line + [NL] + rest;
    assert s[..|line|] == line && s[|line| + 1..] == rest && s[|line|] == NL;
    IndexOfUnique(s, NL, |line|);
  }

  lemma BodyIsOneLine(stamp: Bytes, stream: Bytes, e: Entry)
    requires Word(stamp) && Word(stream) && NL !in e.content
    ensures NL !in RenderBody(stamp, stream, e)
  {}

  lemma {:induction false} ParseRendered(stamp: Bytes, stream: Bytes, e: Entry, rest: Bytes)
    requires Word(stamp) && Word(stream) && NL !in e.content && ParseLog(rest).Some?
    ensures ParseLog(Render(stamp, stream, e) + rest) == Some([e] + ParseLog(rest).value)
  {
    hide ParseLog, ParseLine, RenderBody;
    var body := RenderBody(stamp, stream, e);
    BodyIsOneLine(stamp, stream, e);
    BodyParses(stamp, stream, e);
    ParseFirst(body, rest);
  }

  /** Parsing undoes printing, for all entries without embedded newlines. */
  lemma {:induction false} ParsePrinted(es: seq<Entry>, stream: Bytes, clock: nat -> Bytes, i: nat := 0)
    requires Word(stream) && forall j :: Word(clock(j))
    requires forall e :: e in es ==> NL !in e.content
    ensures ParseLog(PrintLog(es, stream, clock, i)) == Some(es)
  {
    if es != [] {
      assert es == [es[0]] + es[1..];
      ParsePrinted(es[1..], stream, clock, i + 1);
      ParseRendered(clock(i), stream, es[0], PrintLog(es[1..], stream, clock, i + 1));
    }
  }

  // ---------------------------------------------------------------- gluing

  lemma {:induction false} GlueCutPartial(line: Bytes, maxLen: int, acc: Bytes)
    ensures Glue(Cut(line, maxLen, Partial), acc) == Text([], acc + line)
    decreases |line|
  {
    if 0 < maxLen < |line| {
      GlueCutPartial(line[maxLen..], maxLen, acc + line[..maxLen]);
      assert acc + line == acc + line[..maxLen] + line[maxLen..];
    }
  }

  lemma {:induction false} GlueCutFull(line: Bytes, maxLen: int, acc: Bytes, es: seq<Entry>)
    ensures Glue(Cut(line, maxLen, Full) + es, acc) == Text([acc + line] + Glue(es, []).lines, Glue(es, []).tail)
    decreases |line|
  {
    var cut := Cut(line, maxLen, Full);
    if 0 < maxLen < |line| {
      GlueCutFull(line[maxLen..], maxLen, acc + line[..maxLen], es);
      assert acc + line == acc + line[..maxLen] + line[maxLen..];
      assert (cut + es)[1..] == Cut(line[maxLen..], maxLen, Full) + es;
    } else {
      assert (cut + es)[1..] == es;
    }
  }

  /** Gluing the entries of a stream gives its lines back, whatever the limit. */
  lemma {:induction false} GlueEntries(s: Bytes, maxLen: int)
    ensures Glue(Entries(s, maxLen), []) == Lines(s)
    decreases |s|
  {
    if s == [] {
    } else if NL !in s {
      GlueCutPartial(s, maxLen, []);
      assert [] + s == s;
    } else {
      var k := IndexOf(s, NL);
      var line := DropCR(s[..k]);
      GlueCutFull(line, maxLen, [], Entries(s[k + 1..], maxLen));
      assert [] + line == line;
      GlueEntries(s[k + 1..], maxLen);
    }
  }

  // ---------------------------------------------------------------- entries are bounded

  predicate Bounded(e: Entry, maxLen: int) {
    NL !in e.content && (maxLen > 0 ==> |e.content| <= maxLen)
  }

  lemma {:induction false} CutBounded(line: Bytes, maxLen: int, last: Tag)
    requires NL !in line
    ensures forall e :: e in Cut(line, maxLen, last) ==> Bounded(e, maxLen)
    decreases |line|
  {
    if 0 < maxLen < |line| {
      CutBounded(line[maxLen..], maxLen, last);
    }
  }

  lemma {:induction false} EntriesBounded(s: Bytes, maxLen: int)
    ensures forall e :: e in Entries(s, maxLen) ==> Bounded(e, maxLen)
    decreases |s|
  {
    if s == [] {
    } else if NL !in s {
      CutBounded(s, maxLen, Partial);
    } else {
      var k := IndexOf(s, NL);
      CutBounded(DropCR(s[..k]), maxLen, Full);
      EntriesBounded(s[k + 1..], maxLen);
    }
  }

  // ---------------------------------------------------------------- the bytes themselves

  /** A log line in bytes: spaces between the headers, `P` or `F`, and a newline at the end. */
  function LogLine(stamp: Bytes, stream: Bytes, tag: byte, content: Bytes): Bytes {
    stamp + [32] + stream + [32, tag, 32] + content + [10]
  }

  lemma RenderedBytes(stamp: Bytes, stream: Bytes, content: Bytes)
    ensures Render(stamp, stream, Entry(Full, content)) == LogLine(stamp, stream, 70, content)
    ensures Render(stamp, stream, Entry(Partial, content)) == LogLine(stamp, stream, 80, content)
  {}

  lemma PrintOne(e: Entry, stream: Bytes, clock: nat -> Bytes, i: nat := 0)
    ensures PrintLog([e], stream, clock, i) == Render(clock(i), stream, e)
  {
    assert [e][1..] == [];
  }

  lemma PrintTwo(e: Entry, e': Entry, stream: Bytes, clock: nat -> Bytes)
    ensures PrintLog([e, e'], stream, clock) == Render(clock(0), stream, e) + Render(clock(1), stream, e')
  {
    assert [e, e'][1..] == [e'];
    PrintOne(e', stream, clock, 1);
  }

  /** A line that fits is one full entry, with or without a carriage return before its newline. */
  lemma FullLineBytes(line: Bytes, stream: Bytes, maxLen: int, clock: nat -> Bytes)
    requires 10 !in line && 13 !in line && (maxLen > 0 ==> |line| <= maxLen)
    ensures PrintLog(Entries(line + [10], maxLen), stream, clock) == LogLine(clock(0), stream, 70, line)
    ensures PrintLog(Entries(line + [13, 10], maxLen), stream, clock) == LogLine(clock(0), stream, 70, line)
  {
    hide PrintLog, Render, Entries, LogLine;
    LineOf(line, [], maxLen);
    LineOf(line, [13], maxLen);
    PrintOne(Entry(Full, line), stream, clock);
    RenderedBytes(clock(0), stream, line);
    assert line + [13] + [10] == line + [13, 10] && line + [] + [10] == line + [10];
  }

  /** The entries of one terminated line, whose end is `\n` or `\r\n`. */
  lemma LineOf(line: Bytes, cr: Bytes, maxLen: int)
    requires 10 !in line && 13 !in line && (cr == [] || cr == [13])
    ensures Entries(line + cr + [10], maxLen) == Cut(line, maxLen, Full)
  {
    hide Cut;
    var s, k := line + cr + [10], |line + cr|;
    assert s[..k] == line + cr && s[k + 1..] == [];
    assert DropCR(line + cr) == line;
    EntriesAt(s, k, maxLen);
  }

  /** An unterminated tail that fits is one partial entry, its carriage returns included. */
  lemma TailBytes(tail: Bytes, stream: Bytes, maxLen: int, clock: nat -> Bytes)
    requires tail != [] && 10 !in tail && (maxLen > 0 ==> |tail| <= maxLen)
    ensures PrintLog(Entries(tail, maxLen), stream, clock) == LogLine(clock(0), stream, 80, tail)
  {
    hide PrintLog, Render;
    PrintOne(Entry(Partial, tail), stream, clock);
    RenderedBytes(clock(0), stream, tail);
  }

  /** A longer line is a partial entry of exactly the limit, and the rest. */
  lemma LongLineBytes(line: Bytes, stream: Bytes, maxLen: int, clock: nat -> Bytes)
    requires 10 !in line && 13 !in line && 0 < maxLen < |line| <= 2 * maxLen
    ensures PrintLog(Entries(line + [10], maxLen), stream, clock) ==
      LogLine(clock(0), stream, 80, line[..maxLen]) + LogLine(clock(1), stream, 70, line[maxLen..])
  {
    hide PrintLog, Render, Entries, LogLine;
    LineOf(line, [], maxLen);
    assert line + [] + [10] == line + [10];
    var e, e' := Entry(Partial, line[..maxLen]), Entry(Full, line[maxLen..]);
    CutIsOverflow(line, maxLen, Full);
    assert Cut(line, maxLen, Full) == [e, e'];
    PrintTwo(e, e', stream, clock);
    RenderedBytes(clock(0), stream, line[..maxLen]);
    RenderedBytes(clock(1), stream, line[maxLen..]);
  }

  /** Every piece of a line but the last is partial and of exactly the limit, and the last has
      the tag of the line. */
  lemma {:induction false} CutExact(line: Bytes, maxLen: int, last: Tag)
    ensures var es := Cut(line, maxLen, last);
      && es != [] && es[|es| - 1].tag == last
      && forall i :: 0 <= i < |es| - 1 ==> es[i].tag == Partial && |es[i].content| == maxLen
  {
    if 0 < maxLen < |line| { CutExact(line[maxLen..], maxLen, last); }
  }

  /** The round trip: the log of a stream parses, every entry keeps within the limit, and
      gluing the entries gives exactly the stream's lines and unterminated tail. */
  lemma {:induction false} LogRoundTrip(input: Bytes, stream: Bytes, maxLen: int, clock: nat -> Bytes)
    requires Word(stream) && forall i :: Word(clock(i))
    ensures var log := ParseLog(PrintLog(Entries(input, maxLen), stream, clock));
            && log.Some?
            && (forall e :: e in log.value ==> Bounded(e, maxLen))
            && Glue(log.value, []) == Lines(input)
  {
    EntriesBounded(input, maxLen);
    ParsePrinted(Entries(input, maxLen), stream, clock);
    GlueEntries(input, maxLen);
  }

  /** The container's output, redirected by the loop and read back from the log file. */
  method RedirectAndReadBack(input: Bytes, stream: Bytes, maxLen: int, clock: nat -> Bytes)
    returns (log: Bytes, panicked: bool)
    requires Word(stream) && forall i :: Word(clock(i))
    ensures Fits(maxLen) ==> !panicked && ParseLog(log).Some? && Glue(ParseLog(log).value, []) == Lines(input)
    ensures Fits(maxLen) ==> forall e :: e in ParseLog(log).value ==> Bounded(e, maxLen)
    ensures Failing(input, maxLen) ==> panicked
  {
    hide PrintLog, Entries, Glue, Lines, ParseLog;
    log, panicked := RedirectLogs(input, stream, maxLen, clock);
    LogRoundTrip(input, stream, maxLen, clock);
  }
}
