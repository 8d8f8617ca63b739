/**
 The shared-memory ring logger, client/ringlogger. `LogMem` keeps 2048 fixed
 slots and a 32-bit index; its ghost field `log` is the unbounded log it stands
 for. Writers are sequential, as in a single process.
 */
module RingLog {
  import Text

  type byte = x: int | 0 <= x < 256

  const MAX_LINE := 512
  const MAX_TAG := 5
  const MAX_LINES := 2048
  const INDEX_WRAP: nat := 0x1_0000_0000
  const CURSOR_ALL: nat := 0xFFFF_FFFF

  // -------------------------------------------------------------------- lines

  const OPEN: byte := 0x5B
  const CLOSE: byte := 0x5D
  const SPACE: byte := 0x20

  predicate IsSpace(b: byte) {
    b == SPACE || 9 <= b <= 13
  }

  function TrimSpace(p: seq<byte>): (r: seq<byte>)
    ensures |r| <= |p|
  {
    Text.Trim(p, IsSpace)
  }

  function Take(s: seq<byte>, n: nat): (r: seq<byte>)
    ensures |r| <= n && |r| <= |s|
  {
    if |s| <= n then s else s[..n]
  }

  /** The tag in brackets, the message, cut so that a terminator always fits. */
  function LineText(tag: seq<byte>, p: seq<byte>): (r: seq<byte>)
    ensures 1 <= |r| < MAX_LINE && r[0] == OPEN
  {
    Take([OPEN] + tag + [CLOSE, SPACE] + p, MAX_LINE - 1)
  }

  function Zeros(n: nat): (r: seq<byte>)
    ensures |r| == n && forall i :: 0 <= i < n ==> r[i] == 0
  {
    seq(n, i => 0)
  }

  /** `bytes.IndexByte(line, 0)` as the reader uses it. */
  function UpToNul(s: seq<byte>): seq<byte> {
    if s == [] || s[0] == 0 then [] else [s[0]] + UpToNul(s[1..])
  }

  lemma {:induction false} UpToNulPadded(s: seq<byte>, n: nat)
    requires n >= 1
    ensures UpToNul(s + Zeros(n)) == UpToNul(s)
    ensures 0 !in s ==> UpToNul(s) == s
  {
    if s == [] {
      assert s + Zeros(n) == Zeros(n);
    } else {
      assert (s + Zeros(n))[1..] == s[1..] + Zeros(n);
      UpToNulPadded(s[1..], n);
    }
  }

  /** A zeroed line with the bracketed tag in place; its first byte still marks it unfinished. */
  method StampTag(tag: seq<byte>) returns (line: seq<byte>)
    requires |tag| <= MAX_TAG
    ensures line == [0] + tag + [CLOSE, SPACE] + Zeros(MAX_LINE - 3 - |tag|)
  {
    line := Zeros(MAX_LINE);
    line := line[..1] + tag + line[1 + |tag|..];
    line := line[1 + |tag| := CLOSE];
    line := line[2 + |tag| := SPACE];
  }

  /** client/ringlogger/ringlogger.go:144-160: the fill of one line, its first byte last. */
  method FillLine(tag: seq<byte>, message: seq<byte>) returns (line: seq<byte>)
    requires |tag| <= MAX_TAG
    ensures |line| == MAX_LINE && line == LineText(tag, message) + Zeros(MAX_LINE - |LineText(tag, message)|)
  {
    var p := message;
    if 3 + |p| + |tag| > MAX_LINE - 1 {
      p := p[..MAX_LINE - 1 - 3 - |tag|];
    }
    line := StampTag(tag);
    line := Overlay(line, 3 + |tag|, [0] + tag + [CLOSE, SPACE], p);
    line := line[0 := OPEN];
    Finished(tag, p, MAX_LINE - 3 - |tag| - |p|);
    LineTextCut(tag, message, p);
  }

  /** Writing the first byte completes the line. */
  lemma Finished(tag: seq<byte>, p: seq<byte>, n: nat)
    ensures ([0] + tag + [CLOSE, SPACE] + p + Zeros(n))[0 := OPEN] == [OPEN] + tag + [CLOSE, SPACE] + p + Zeros(n)
  {
  }

  lemma LineTextCut(tag: seq<byte>, message: seq<byte>, p: seq<byte>)
    requires |tag| <= MAX_TAG
    requires p == if 3 + |message| + |tag| > MAX_LINE - 1 then message[..MAX_LINE - 4 - |tag|] else message
    ensures LineText(tag, message) == [OPEN] + tag + [CLOSE, SPACE] + p
  {
  }

  /** `copy` into a buffer that is zero after `head`. */
  method Overlay(line: seq<byte>, at: nat, ghost head: seq<byte>, p: seq<byte>) returns (r: seq<byte>)
    requires |line| == MAX_LINE && at == |head| && at + |p| < MAX_LINE && line == head + Zeros(MAX_LINE - |head|)
    ensures r == head + p + Zeros(MAX_LINE - |head| - |p|)
  {
    r := line[..at] + p + line[at + |p|..];
  }

  /** The text of a line: the tag in brackets, a space, the message, and no more than 511 bytes of it. */
  lemma LineTextExactly(tag: seq<byte>, p: seq<byte>)
    ensures var whole := [0x5B] + tag + [0x5D, 0x20] + p;
            LineText(tag, p) == if |whole| <= 511 then whole else whole[..511]
  {
  }

  /** What is logged is the message without the white space around it; white space alone logs nothing. */
  lemma MessageExactly(lead: seq<byte>, message: seq<byte>, trail: seq<byte>)
    requires Text.AllBlank(lead, b => b in {0x20, 9, 10, 11, 12, 13})
    requires Text.AllBlank(trail, b => b in {0x20, 9, 10, 11, 12, 13})
    requires Text.Trimmed(message, b => b in {0x20, 9, 10, 11, 12, 13})
    ensures TrimSpace(lead + message + trail) == message
  {
    assert forall b: byte :: IsSpace(b) <==> b in {0x20, 9, 10, 11, 12, 13};
    Text.TrimExactly(lead, message, trail, IsSpace);
  }

  /** A NUL-free line reads back as its tag-prefixed truncation. */
  lemma LineReadsBack(tag: seq<byte>, p: seq<byte>)
    requires 0 !in tag && 0 !in p
    ensures UpToNul(LineText(tag, p) + Zeros(MAX_LINE - |LineText(tag, p)|)) == LineText(tag, p)
  {
    UpToNulPadded(LineText(tag, p), MAX_LINE - |LineText(tag, p)|);
  }

  // ---------------------------------------------------------------------- log

  datatype Entry = Entry(ts: int, line: seq<byte>)

  datatype Slot = Slot(ts: int, bytes: seq<byte>)

  /** One line as a reader sees it. */
  datatype Line = Line(text: seq<byte>, ts: int)

  ghost predicate ValidEntry(e: Entry) {
    1 <= |e.line| < MAX_LINE && e.line[0] == OPEN
  }

  ghost predicate Holds(s: Slot, e: Entry) {
    s.ts == e.ts && |e.line| < MAX_LINE && s.bytes == e.line + Zeros(MAX_LINE - |e.line|)
  }

  ghost function Shown(es: seq<Entry>): seq<Line> {
    seq(|es|, i requires 0 <= i < |es| => Line(UpToNul(es[i].line), es[i].ts))
  }

  /** A reader sees the line as it was written, with its own timestamp, unless a NUL byte cuts it short. */
  lemma ShownExactly(es: seq<Entry>, i: nat)
    requires i < |es| && 0 !in es[i].line
    ensures |Shown(es)| == |es| && Shown(es)[i].text == es[i].line && Shown(es)[i].ts == es[i].ts
  {
    UpToNulPadded(es[i].line, 1);
  }

  /** The entries the ring still holds. */
  ghost function Window(log: seq<Entry>): seq<Entry> {
    log[Start(log)..]
  }

  ghost function Start(log: seq<Entry>): nat {
    if |log| <= MAX_LINES then 0 else |log| - MAX_LINES
  }

  /** How many entries a cursor is behind the log, as far as 2048 slots can tell. */
  ghost function Behind(log: seq<Entry>, cursor: nat): nat {
    (|log| - cursor) % MAX_LINES
  }

  /** What lies between a cursor and the end of the log; nothing when its slot was never written. */
  ghost function Since(log: seq<Entry>, cursor: nat): seq<Entry> {
    if Behind(log, cursor) <= |log| then log[|log| - Behind(log, cursor)..] else []
  }

  ghost predicate AllStamped(es: seq<Entry>) {
    forall i :: 0 <= i < |es| ==> es[i].ts != 0
  }

  /** The entries before the first one with a zero timestamp. */
  ghost function StampedPrefix(es: seq<Entry>): seq<Entry> {
    if es == [] || es[0].ts == 0 then [] else [es[0]] + StampedPrefix(es[1..])
  }

  ghost function Stamped(es: seq<Entry>): seq<Entry> {
    if es == [] then [] else Stamped(es[..|es| - 1]) + (if es[|es| - 1].ts != 0 then [es[|es| - 1]] else [])
  }

  /** The number of entries up to the last one with a timestamp. */
  ghost function LastStamped(es: seq<Entry>): (n: nat)
    ensures n <= |es|
  {
    if es == [] then 0 else if es[|es| - 1].ts != 0 then |es| else LastStamped(es[..|es| - 1])
  }

  // --------------------------------------------------- the meaning of one poll

  ghost function PollOut(log: seq<Entry>, cursor: nat): seq<Entry> {
    if cursor == CURSOR_ALL then Stamped(Window(log)) else StampedPrefix(Since(log, cursor))
  }

  /** Just behind the last entry shown, or where the poll started. */
  ghost function PollNext(log: seq<Entry>, cursor: nat): nat {
    if PollOut(log, cursor) == [] then cursor
    else if cursor == CURSOR_ALL then (Start(log) + LastStamped(Window(log))) % MAX_LINES
    else (|log| - |Since(log, cursor)| + |PollOut(log, cursor)|) % MAX_LINES
  }

  lemma {:induction false} AllStampedKept(es: seq<Entry>)
    requires AllStamped(es)
    ensures StampedPrefix(es) == es && Stamped(es) == es && LastStamped(es) == |es|
  {
    if es != [] {
      AllStampedKept(es[1..]);
      AllStampedKept(es[..|es| - 1]);
    }
  }

  lemma {:induction false} PrefixStops(es: seq<Entry>, n: nat)
    requires n <= |es| && AllStamped(es[..n]) && (n < |es| ==> es[n].ts == 0)
    ensures StampedPrefix(es) == es[..n]
  {
    if n > 0 {
      var rest := es[1..];
      assert rest[..n - 1] == es[..n][1..];
      PrefixStops(rest, n - 1);
      assert es[..n] == [es[0]] + rest[..n - 1];
    }
  }

  // -------------------------------------------------------- modular arithmetic

  lemma SlotOfIndex(n: nat)
    ensures (n % INDEX_WRAP) % MAX_LINES == n % MAX_LINES
  {
  }

  lemma SameSlot(a: nat, b: nat)
    ensures a % MAX_LINES == b % MAX_LINES <==> (a - b) % MAX_LINES == 0
  {
  }

  /** The slots hold the window of the log; slots never written carry no timestamp. */
  ghost predicate RingOk(slots: seq<Slot>, log: seq<Entry>) {
    && |slots| == MAX_LINES
    && (forall k :: Start(log) <= k < |log| ==> SlotHolds(slots, log, k))
    && (forall j :: |log| <= j < MAX_LINES ==> SlotEmpty(slots, j))
  }

  ghost predicate SlotHolds(slots: seq<Slot>, log: seq<Entry>, k: nat)
    requires |slots| == MAX_LINES && k < |log|
  {
    ValidEntry(log[k]) && Holds(slots[k % MAX_LINES], log[k])
  }

  ghost predicate SlotEmpty(slots: seq<Slot>, j: nat)
    requires |slots| == MAX_LINES && j < MAX_LINES
  {
    slots[j].ts == 0
  }

  /** Appending recycles the one slot that falls out of the window. */
  lemma RingAppend(slots: seq<Slot>, log: seq<Entry>, s: Slot, e: Entry)
    requires RingOk(slots, log) && ValidEntry(e) && Holds(s, e)
    ensures RingOk(slots[|log| % MAX_LINES := s], log + [e])
  {
    var slots', log' := slots[|log| % MAX_LINES := s], log + [e];
    forall k | Start(log') <= k < |log'| ensures SlotHolds(slots', log', k) {
      SameSlot(|log|, k);
      if k < |log| { assert SlotHolds(slots, log, k); }
    }
    forall j | |log'| <= j < MAX_LINES ensures SlotEmpty(slots', j) {
      assert SlotEmpty(slots, j);
    }
  }

  /** What a reader finds in the slot of position `n`, given one ring turn or less back. */
  lemma ReadSlot(slots: seq<Slot>, log: seq<Entry>, k: nat)
    requires RingOk(slots, log) && Start(log) <= k < |log|
    ensures var s := slots[k % MAX_LINES]; s.ts == log[k].ts && UpToNul(s.bytes) == UpToNul(log[k].line) != []
  {
    var s, e := slots[k % MAX_LINES], log[k];
    assert SlotHolds(slots, log, k);
    UpToNulPadded(e.line, MAX_LINE - |e.line|);
  }

  lemma ShownSnoc(es: seq<Entry>, e: Entry)
    ensures Shown(es + [e]) == Shown(es) + [Line(UpToNul(e.line), e.ts)]
  {
  }

  class LogMem {
    var nextIndex: nat
    var lines: array<Slot>
    ghost var log: seq<Entry>

    ghost predicate Valid()
      reads this, lines
    {
      lines.Length == MAX_LINES && nextIndex == |log| % INDEX_WRAP && RingOk(lines[..], log)
    }

    constructor ()
      ensures Valid() && fresh(lines) && log == []
    {
      nextIndex, log := 0, [];
      lines := new Slot[MAX_LINES](_ => Slot(0, Zeros(MAX_LINE)));
    }

    /** client/ringlogger/ringlogger.go:125-164. */
    method WriteWithTimestamp(tag: seq<byte>, p: seq<byte>, ts: int) returns (n: nat)
      requires Valid() && |tag| <= MAX_TAG
      modifies this`nextIndex, this`log, lines
      ensures Valid() && n == |p|
      ensures log == if TrimSpace(p) == [] then old(log) else old(log) + [Entry(ts, LineText(tag, TrimSpace(p)))]
    {
      n := |p|;
      var message := TrimSpace(p);
      if message == [] { return; }
      var index := nextIndex;
      nextIndex := (nextIndex + 1) % INDEX_WRAP;
      var line := FillLine(tag, message);
      Store(index, Slot(ts, line), Entry(ts, LineText(tag, message)));
      IndexAdvances(|old(log)|);
    }

    method Store(index: nat, s: Slot, ghost e: Entry)
      requires lines.Length == MAX_LINES && RingOk(lines[..], log)
      requires index == |log| % INDEX_WRAP && ValidEntry(e) && Holds(s, e)
      modifies this`log, lines
      ensures RingOk(lines[..], log) && log == old(log) + [e]
    {
      SlotOfIndex(|log|);
      RingAppend(lines[..], log, s, e);
      ghost var before := lines[..];
      lines[index % MAX_LINES] := s;
      assert lines[..] == before[index % MAX_LINES := s];
      log := log + [e];
    }

    /** client/ringlogger/ringlogger.go:198-233, for any cursor at all. */
    method FollowFromCursor(cursor: nat) returns (out: seq<Line>, next: nat)
      requires Valid() && cursor < INDEX_WRAP
      ensures out == Shown(PollOut(log, cursor)) && next == PollNext(log, cursor)
    {
      if cursor == CURSOR_ALL {
        out, next := FollowAll();
      } else {
        out, next := FollowFrom(cursor);
      }
    }

    /** The loop of a resuming poll: up to the slot written next, or the first without a timestamp. */
    method FollowFrom(cursor: nat) returns (out: seq<Line>, next: nat)
      requires Valid() && cursor < CURSOR_ALL
      ensures out == Shown(PollOut(log, cursor)) && next == PollNext(log, cursor)
    {
      out, next := [], cursor;
      var i: nat := cursor;
      ghost var seen: nat := 0;
      SlotOfIndex(|log|);
      CursorSlot(log, cursor);
      for l := 0 to MAX_LINES
        invariant seen == l && ResumeState(log, cursor, seen, i, out, next)
      {
        if i % MAX_LINES == nextIndex % MAX_LINES { break; }
        var slot := lines[i % MAX_LINES];
        if slot.ts == 0 { break; }
        ResumeStep(lines[..], log, cursor, seen, i, out, next);
        var text := UpToNul(slot.bytes);
        if text != [] { out := out + [Line(text, slot.ts)]; }
        i := (i + 1) % INDEX_WRAP;
        next := i % MAX_LINES;
        seen := seen + 1;
      }
      ResumeEnds(lines[..], log, cursor, seen, i, out, next);
    }

    /** The loop of a first poll: every stamped line still held, oldest first. */
    method FollowAll() returns (out: seq<Line>, next: nat)
      requires Valid()
      ensures out == Shown(PollOut(log, CURSOR_ALL)) && next == PollNext(log, CURSOR_ALL)
    {
      out, next := [], CURSOR_ALL;
      var i: nat := nextIndex;
      ScanBegins(log, i);
      for l := 0 to MAX_LINES
        invariant ScanState(log, l, i, out, next)
      {
        i, out, next := ScanOne(l, i, out, next);
      }
      ScanEnds(log, i, out, next);
    }

    method ScanOne(ghost l: nat, i: nat, out: seq<Line>, next: nat) returns (i': nat, out': seq<Line>, next': nat)
      requires Valid() && l < MAX_LINES && ScanState(log, l, i, out, next)
      ensures ScanState(log, l + 1, i', out', next')
    {
      ScanStep(lines[..], log, l, i, out, next);
      var slot := lines[i % MAX_LINES];
      i', out', next' := (i + 1) % INDEX_WRAP, out, next;
      if slot.ts == 0 { return; }
      var text := UpToNul(slot.bytes);
      if text != [] { out' := out' + [Line(text, slot.ts)]; }
      next' := i' % MAX_LINES;
    }
  }

  ghost predicate ScanState(log: seq<Entry>, l: nat, i: nat, out: seq<Line>, next: nat)
    requires l <= MAX_LINES
  {
    && i < INDEX_WRAP && i % MAX_LINES == (|log| + l) % MAX_LINES
    && out == Shown(Stamped(Scanned(log, l)))
    && next == if out == [] then CURSOR_ALL else (Start(log) + LastStamped(Scanned(log, l))) % MAX_LINES
  }

  lemma ScanBegins(log: seq<Entry>, i: nat)
    requires i == |log| % INDEX_WRAP
    ensures ScanState(log, 0, i, [], CURSOR_ALL)
  {
  }

  lemma ScanEnds(log: seq<Entry>, i: nat, out: seq<Line>, next: nat)
    requires ScanState(log, MAX_LINES, i, out, next)
    ensures out == Shown(PollOut(log, CURSOR_ALL)) && next == PollNext(log, CURSOR_ALL)
  {
    assert Scanned(log, MAX_LINES) == Window(log);
  }

  lemma ScanStep(slots: seq<Slot>, log: seq<Entry>, l: nat, i: nat, out: seq<Line>, next: nat)
    requires RingOk(slots, log) && l < MAX_LINES && ScanState(log, l, i, out, next)
    ensures var s, i' := slots[i % MAX_LINES], (i + 1) % INDEX_WRAP;
            if s.ts == 0 then ScanState(log, l + 1, i', out, next)
            else
              && UpToNul(s.bytes) != []
              && ScanState(log, l + 1, i', out + [Line(UpToNul(s.bytes), s.ts)], i' % MAX_LINES)
  {
    SlotAfter(i, |log| + l);
    if |log| + l < MAX_LINES {
      ScanEmptySlot(slots, log, l);
    } else {
      var k := |log| + l - MAX_LINES;
      ScanFilledSlot(slots, log, l, k);
      ScanEntry(log, l, k, i, out, next);
    }
  }

  lemma ScanEntry(log: seq<Entry>, l: nat, k: nat, i: nat, out: seq<Line>, next: nat)
    requires l < MAX_LINES && k == |log| + l - MAX_LINES && k < |log| && ScanState(log, l, i, out, next)
    requires ((i + 1) % INDEX_WRAP) % MAX_LINES == (|log| + l + 1) % MAX_LINES
    ensures var i' := (i + 1) % INDEX_WRAP;
            if log[k].ts == 0 then ScanState(log, l + 1, i', out, next)
            else ScanState(log, l + 1, i', out + [Line(UpToNul(log[k].line), log[k].ts)], i' % MAX_LINES)
  {
    var done := Scanned(log, l);
    ScannedGrows(log, l);
    StampedSnoc(done, log[k]);
    ShownSnoc(Stamped(done), log[k]);
    assert Stamped(done) + [] == Stamped(done);
    AfterEntry(log, l);
  }

  lemma AfterEntry(log: seq<Entry>, l: nat)
    requires l < MAX_LINES && |log| + l >= MAX_LINES
    ensures (Start(log) + |Scanned(log, l)| + 1) % MAX_LINES == (|log| + l + 1) % MAX_LINES
  {
    SameSlot(Start(log) + |Scanned(log, l)| + 1, |log| + l + 1);
  }

  /** The entries a scan of the whole ring has passed after `l` slots. */
  ghost function Scanned(log: seq<Entry>, l: nat): seq<Entry>
    requires l <= MAX_LINES
  {
    if |log| + l <= MAX_LINES then [] else log[Start(log)..|log| + l - MAX_LINES]
  }

  /** The next slot of the scan: one never written, or the next entry of the window. */
  lemma ScanEmptySlot(slots: seq<Slot>, log: seq<Entry>, l: nat)
    requires RingOk(slots, log) && l < MAX_LINES && |log| + l < MAX_LINES
    ensures slots[(|log| + l) % MAX_LINES].ts == 0 && Scanned(log, l + 1) == Scanned(log, l) == []
  {
    assert SlotEmpty(slots, |log| + l);
  }

  lemma ScanFilledSlot(slots: seq<Slot>, log: seq<Entry>, l: nat, k: nat)
    requires RingOk(slots, log) && l < MAX_LINES && k == |log| + l - MAX_LINES
    ensures var s := slots[(|log| + l) % MAX_LINES]; s.ts == log[k].ts && UpToNul(s.bytes) == UpToNul(log[k].line) != []
  {
    SameSlot(|log| + l, k);
    ReadSlot(slots, log, k);
  }

  lemma ScannedGrows(log: seq<Entry>, l: nat)
    requires l < MAX_LINES && |log| + l >= MAX_LINES
    ensures Scanned(log, l + 1) == Scanned(log, l) + [log[|log| + l - MAX_LINES]]
  {
  }

  lemma StampedSnoc(es: seq<Entry>, e: Entry)
    ensures Stamped(es + [e]) == Stamped(es) + (if e.ts != 0 then [e] else [])
    ensures LastStamped(es + [e]) == if e.ts != 0 then |es| + 1 else LastStamped(es)
  {
    assert (es + [e])[..|es + [e]| - 1] == es;
  }

  lemma SlotAfter(i: nat, n: nat)
    requires i < INDEX_WRAP && i % MAX_LINES == n % MAX_LINES
    ensures ((i + 1) % INDEX_WRAP) % MAX_LINES == (n + 1) % MAX_LINES
  {
  }

  lemma IndexAdvances(n: nat)
    ensures (n % INDEX_WRAP + 1) % INDEX_WRAP == (n + 1) % INDEX_WRAP
  {
  }

  // ------------------------------------------------------------ resuming polls

  /** After `l` lines; a cursor at a slot that was never written has nothing to show. */
  ghost predicate ResumeState(log: seq<Entry>, cursor: nat, l: nat, i: nat, out: seq<Line>, next: nat) {
    var new' := Since(log, cursor);
    && l <= |new'| && i < INDEX_WRAP && (l == 0 ==> i == cursor)
    && (new' != [] ==> i % MAX_LINES == (|log| - |new'| + l) % MAX_LINES)
    && next == (if l == 0 then cursor else (|log| - |new'| + l) % MAX_LINES)
    && AllStamped(new'[..l]) && out == Shown(new'[..l])
  }

  lemma CursorSlot(log: seq<Entry>, cursor: nat)
    ensures Since(log, cursor) != [] ==> cursor % MAX_LINES == (|log| - |Since(log, cursor)|) % MAX_LINES
    ensures |Since(log, cursor)| < MAX_LINES
    ensures Behind(log, cursor) > |log| ==> |log| < cursor % MAX_LINES
  {
    if Behind(log, cursor) > |log| {
      assert cursor % MAX_LINES == |log| - Behind(log, cursor) + MAX_LINES;
    }
  }

  lemma ResumeStep(slots: seq<Slot>, log: seq<Entry>, cursor: nat, l: nat, i: nat, out: seq<Line>, next: nat)
    requires RingOk(slots, log) && ResumeState(log, cursor, l, i, out, next)
    requires i % MAX_LINES != |log| % MAX_LINES && slots[i % MAX_LINES].ts != 0
    ensures var s, i' := slots[i % MAX_LINES], (i + 1) % INDEX_WRAP;
            && UpToNul(s.bytes) != []
            && ResumeState(log, cursor, l + 1, i', out + [Line(UpToNul(s.bytes), s.ts)], i' % MAX_LINES)
  {
    var new' := Since(log, cursor);
    var k := |log| - |new'| + l;
    ResumeHasEntry(slots, log, cursor, l, i, out, next);
    ReadSlot(slots, log, k);
    ShownSnoc(new'[..l], new'[l]);
    assert new'[l] == log[k] && new'[..l + 1] == new'[..l] + [new'[l]];
    SlotAfter(i, k);
  }

  lemma ResumeHasEntry(slots: seq<Slot>, log: seq<Entry>, cursor: nat, l: nat, i: nat, out: seq<Line>, next: nat)
    requires RingOk(slots, log) && ResumeState(log, cursor, l, i, out, next)
    requires i % MAX_LINES != |log| % MAX_LINES && slots[i % MAX_LINES].ts != 0
    ensures l < |Since(log, cursor)| < MAX_LINES
  {
    CursorSlot(log, cursor);
    SameSlot(i, |log|);
    if Behind(log, cursor) > |log| { NeverWritten(slots, log, cursor); }
  }

  lemma NeverWritten(slots: seq<Slot>, log: seq<Entry>, cursor: nat)
    requires RingOk(slots, log) && Behind(log, cursor) > |log|
    ensures slots[cursor % MAX_LINES].ts == 0
  {
    CursorSlot(log, cursor);
    assert SlotEmpty(slots, cursor % MAX_LINES);
  }

  lemma ResumeEnds(slots: seq<Slot>, log: seq<Entry>, cursor: nat, l: nat, i: nat, out: seq<Line>, next: nat)
    requires RingOk(slots, log) && cursor != CURSOR_ALL && ResumeState(log, cursor, l, i, out, next)
    requires l == MAX_LINES || i % MAX_LINES == |log| % MAX_LINES || slots[i % MAX_LINES].ts == 0
    ensures out == Shown(PollOut(log, cursor)) && next == PollNext(log, cursor)
  {
    var new' := Since(log, cursor);
    CursorSlot(log, cursor);
    if l < |new'| {
      SameSlot(|log|, |log| - |new'| + l);
      ReadSlot(slots, log, |log| - |new'| + l);
    }
    PrefixStops(new', l);
  }

  // ----------------------------------------------------------------- sessions

  /** The cursor of a reader that has read `pos` entries. */
  ghost function CursorAt(pos: nat): nat {
    if pos == 0 then CURSOR_ALL else pos % MAX_LINES
  }

  /** A poll comes in time: nothing it has not shown was recycled, or counted as a whole turn of the ring. */
  ghost predicate InTime(pos: nat, n: nat) {
    n - pos < 2048 || (pos == 0 && n == 2048)
  }

  /** With every line stamped, one poll reaches the end of the log, and shows all of the rest exactly when in time. */
  lemma PollCatchesUp(log: seq<Entry>, pos: nat)
    requires pos <= |log| && AllStamped(log)
    ensures PollNext(log, CursorAt(pos)) == CursorAt(|log|)
    ensures PollOut(log, CursorAt(pos)) == log[pos..] <==> InTime(pos, |log|)
    ensures |PollOut(log, CursorAt(pos))| <= |log| - pos
    ensures !InTime(pos, |log|) ==> |PollOut(log, CursorAt(pos))| < |log| - pos
  {
    if pos == 0 {
      AllStampedKept(Window(log));
    } else {
      ResumeCatchesUp(log, pos);
    }
  }

  lemma ResumeCatchesUp(log: seq<Entry>, pos: nat)
    requires 0 < pos <= |log| && AllStamped(log)
    ensures PollNext(log, pos % MAX_LINES) == |log| % MAX_LINES
    ensures PollOut(log, pos % MAX_LINES) == Tail(log, |log| - pos)
  {
    var cursor := pos % MAX_LINES;
    SinceAt(log, pos);
    AllStampedKept(Since(log, cursor));
    NextAfterAll(log, cursor);
    if Since(log, cursor) == [] { SameSlot(|log|, pos); }
  }

  /** The last `n` entries, modulo the size of the ring. */
  ghost function Tail(log: seq<Entry>, n: nat): (r: seq<Entry>)
    requires n <= |log|
    ensures r == log[|log| - n..] <==> n < MAX_LINES
    ensures |r| <= n && (n >= MAX_LINES ==> |r| < n)
  {
    log[|log| - n % MAX_LINES..]
  }

  lemma NextAfterAll(log: seq<Entry>, cursor: nat)
    requires cursor != CURSOR_ALL && StampedPrefix(Since(log, cursor)) == Since(log, cursor)
    ensures PollNext(log, cursor) == if Since(log, cursor) == [] then cursor else |log| % MAX_LINES
  {
  }

  lemma SinceAt(log: seq<Entry>, pos: nat)
    requires 0 < pos <= |log|
    ensures Since(log, pos % MAX_LINES) == Tail(log, |log| - pos)
  {
    BehindPosition(log, pos);
  }

  lemma BehindPosition(log: seq<Entry>, pos: nat)
    requires pos <= |log|
    ensures Behind(log, pos % MAX_LINES) == (|log| - pos) % MAX_LINES <= |log| - pos
  {
  }

  /** The log page's reader, client/ui/logpage.go:184-205: it keeps the cursor between polls. */
  class Reader {
    var cursor: nat
    ghost var pos: nat

    ghost predicate Valid()
      reads this
    {
      cursor < INDEX_WRAP
    }

    /** The cursor stands for the `pos` entries read so far. */
    ghost predicate Synced(log: seq<Entry>)
      reads this
    {
      pos <= |log| && cursor == CursorAt(pos)
    }

    constructor ()
      ensures Valid() && cursor == CURSOR_ALL && pos == 0
      ensures forall log :: Synced(log)
    {
      cursor, pos := CURSOR_ALL, 0;
    }

    method Poll(mem: LogMem) returns (out: seq<Line>)
      requires Valid() && mem.Valid()
      modifies this
      ensures Valid() && out == Shown(PollOut(mem.log, old(cursor))) && cursor == PollNext(mem.log, old(cursor))
      ensures old(Synced(mem.log)) && AllStamped(mem.log) ==>
                && Synced(mem.log) && pos == |mem.log|
                && (InTime(old(pos), |mem.log|) ==> out == Shown(mem.log[old(pos)..]))
    {
      if Synced(mem.log) && AllStamped(mem.log) { PollCatchesUp(mem.log, pos); }
      out, cursor := mem.FollowFromCursor(cursor);
      pos := |mem.log|;
    }
  }

  ghost predicate PollTimes(log: seq<Entry>, pos: nat, ns: seq<nat>)
    decreases |ns|
  {
    ns == [] || (pos <= ns[0] <= |log| && PollTimes(log, ns[0], ns[1..]))
  }

  ghost predicate AllInTime(pos: nat, ns: seq<nat>)
    decreases |ns|
  {
    ns == [] || (InTime(pos, ns[0]) && AllInTime(ns[0], ns[1..]))
  }

  /**
   Everything shown to a reader that polls when the log has `ns[0]`,
   `ns[1]`, ... entries, each time with the cursor returned last.
   */
  ghost function Session(log: seq<Entry>, cursor: nat, ns: seq<nat>): seq<Entry>
    requires forall i :: 0 <= i < |ns| ==> ns[i] <= |log|
    decreases |ns|
  {
    if ns == [] then []
    else PollOut(log[..ns[0]], cursor) + Session(log, PollNext(log[..ns[0]], cursor), ns[1..])
  }

  lemma {:induction false} TimesWithin(log: seq<Entry>, pos: nat, ns: seq<nat>)
    requires PollTimes(log, pos, ns)
    ensures forall i :: 0 <= i < |ns| ==> pos <= ns[i] <= |log|
    decreases |ns|
  {
    if ns != [] {
      TimesWithin(log, ns[0], ns[1..]);
      assert forall i :: 1 <= i < |ns| ==> ns[i] == ns[1..][i - 1];
    }
  }

  /** From any position on, a session shows every line once and in order exactly when every poll came in time. */
  lemma {:induction false} SessionFrom(log: seq<Entry>, pos: nat, ns: seq<nat>)
    requires AllStamped(log) && PollTimes(log, pos, ns) && ns != []
    requires forall i :: 0 <= i < |ns| ==> pos <= ns[i] <= |log|
    ensures var last := ns[|ns| - 1];
            && |Session(log, CursorAt(pos), ns)| <= last - pos
            && (Session(log, CursorAt(pos), ns) == log[pos..last] <==> AllInTime(pos, ns))
    decreases |ns|
  {
    var n, last := ns[0], ns[|ns| - 1];
    PollCatchesUp(log[..n], pos);
    assert log[..n][pos..] == log[pos..n];
    if |ns| > 1 {
      TimesWithin(log, n, ns[1..]);
      SessionFrom(log, n, ns[1..]);
      Splits(log, pos, n, last, PollOut(log[..n], CursorAt(pos)), Session(log, CursorAt(n), ns[1..]));
    }
  }

  lemma Splits(log: seq<Entry>, pos: nat, n: nat, last: nat, shown: seq<Entry>, rest: seq<Entry>)
    requires pos <= n <= last <= |log| && |shown| <= n - pos && |rest| <= last - n
    ensures shown + rest == log[pos..last] <==> shown == log[pos..n] && rest == log[n..last]
  {
    assert log[pos..last] == log[pos..n] + log[n..last];
    if shown + rest == log[pos..last] {
      assert shown == (shown + rest)[..n - pos] && rest == (shown + rest)[n - pos..];
    }
  }

  /**
   So a reader that starts with the all-cursor is shown exactly the log,
   however long it runs, if and only if it is always in time.
   */
  lemma SessionIsComplete(log: seq<Entry>, ns: seq<nat>)
    requires AllStamped(log) && PollTimes(log, 0, ns) && ns != []
    ensures ns[|ns| - 1] <= |log| && forall i :: 0 <= i < |ns| ==> ns[i] <= |log|
    ensures Session(log, CURSOR_ALL, ns) == log[..ns[|ns| - 1]] <==> AllInTime(0, ns)
  {
    TimesWithin(log, 0, ns);
    SessionFrom(log, 0, ns);
    assert log[0..ns[|ns| - 1]] == log[..ns[|ns| - 1]];
  }

  /** A resuming poll shows all there is exactly when none of it carries a zero timestamp. */
  lemma {:induction false} StampedExactly(es: seq<Entry>)
    ensures StampedPrefix(es) == es <==> AllStamped(es)
  {
    if es != [] {
      StampedExactly(es[1..]);
      if es[0].ts != 0 {
        assert ([es[0]] + StampedPrefix(es[1..]))[1..] == StampedPrefix(es[1..]);
        assert es == [es[0]] + es[1..];
        assert AllStamped(es[1..]) ==> AllStamped(es);
      }
    }
  }
}
