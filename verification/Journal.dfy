/**
 pkg/persist at the level of bytes: how entries are framed on disk, what the line
 scanner reads back, in full or cut off by a crash, and the store that writes them.
 */
module Journal {
  import opened Wrappers
  import opened Sessions

  type byte = x: int | 0 <= x < 256
  type bytes = seq<byte>

  const NL: byte := 10
  const CR: byte := 13

  // bufio.MaxScanTokenSize: a line this long, or longer, stops the scanner.
  const MAX_TOKEN: nat := 65536

  // ---- writing ----

  // What a series of Appends leaves in the file.
  function Frame(es: seq<bytes>): bytes {
    if es == [] then [] else es[0] + [NL] + Frame(es[1..])
  }

  lemma {:induction false} FrameAppend(es: seq<bytes>, e: bytes)
    ensures Frame(es + [e]) == Frame(es) + e + [NL]
  {
    if es == [] {
      assert [e][1..] == [];
    } else {
      assert (es + [e])[1..] == es[1..] + [e];
      FrameAppend(es[1..], e);
    }
  }

  // ---- reading: bufio.ScanLines, and the empty-line skip of replayJournal ----

  function NewlineAt(b: bytes): (n: nat)
    ensures n <= |b|
    ensures forall i | 0 <= i < n :: b[i] != NL
    ensures n < |b| ==> b[n] == NL
  {
    if b == [] || b[0] == NL then 0 else 1 + NewlineAt(b[1..])
  }

  function DropCR(line: bytes): bytes {
    if line != [] && line[|line| - 1] == CR then line[..|line| - 1] else line
  }

  datatype Scanned = Scanned(lines: seq<bytes>, tooLong: bool)

  function Rest(b: bytes): bytes
    requires b != []
  {
    if NewlineAt(b) < |b| then b[NewlineAt(b) + 1..] else []
  }

  function ScanAll(b: bytes): Scanned
    decreases |b|
  {
    if b == [] then Scanned([], false)
    else if NewlineAt(b) >= MAX_TOKEN then Scanned([], true)
    else Prepend(DropCR(b[..NewlineAt(b)]), ScanAll(Rest(b)))
  }

  function Prepend(line: bytes, s: Scanned): Scanned {
    if line == [] then s else Scanned([line] + s.lines, s.tooLong)
  }

  // The scanning loop.
  method ScanLines(b: bytes) returns (s: Scanned)
    ensures s == ScanAll(b)
  {
    hide ScanAll, DropCR, NewlineAt, Prepend;
    var rest, lines := b, [];
    assert After([], ScanAll(b)) == ScanAll(b);
    while rest != []
      invariant ScanAll(b) == After(lines, ScanAll(rest))
      decreases |rest|
    {
      var n := FindNewline(rest);
      ScanUnfolds(rest);
      if n >= MAX_TOKEN {
        return Scanned(lines, true);
      }
      var line := DropCR(rest[..n]);
      AfterPrepend(lines, line, ScanAll(Rest(rest)));
      if line != [] {
        lines := lines + [line];
      }
      rest := Rest(rest);
    }
    ScanUnfolds([]);
    return Scanned(lines, false);
  }

  // Lines already read, followed by the rest.
  function After(lines: seq<bytes>, s: Scanned): Scanned {
    Scanned(lines + s.lines, s.tooLong)
  }

  lemma AfterPrepend(lines: seq<bytes>, line: bytes, s: Scanned)
    ensures After(lines, Prepend(line, s)) == After(if line == [] then lines else lines + [line], s)
  {
  }

  lemma ScanUnfolds(b: bytes)
    ensures b == [] ==> ScanAll(b) == Scanned([], false)
    ensures b != [] && NewlineAt(b) >= MAX_TOKEN ==> ScanAll(b) == Scanned([], true)
    ensures b != [] && NewlineAt(b) < MAX_TOKEN ==>
              |Rest(b)| < |b| && ScanAll(b) == Prepend(DropCR(b[..NewlineAt(b)]), ScanAll(Rest(b)))
  {
  }

  method FindNewline(b: bytes) returns (n: nat)
    ensures n == NewlineAt(b)
  {
    n := 0;
    while n < |b| && b[n] != NL
      invariant n <= |b| && forall i | 0 <= i < n :: b[i] != NL
    {
      n := n + 1;
    }
    NewlineIsFirst(b, n);
  }

  lemma NewlineIsFirst(b: bytes, n: nat)
    requires n <= |b| && (forall i | 0 <= i < n :: b[i] != NL) && (n < |b| ==> b[n] == NL)
    ensures NewlineAt(b) == n
  {
  }

  // ---- what survives the trip ----

  // An entry that comes back as it went in.
  predicate Framable(e: bytes) {
    e != [] && NL !in e && e[|e| - 1] != CR && |e| < MAX_TOKEN
  }

  predicate AllFramable(es: seq<bytes>) {
    forall i | 0 <= i < |es| :: Framable(es[i])
  }

  lemma ScanFirst(e: bytes, rest: bytes)
    requires NL !in e && |e| < MAX_TOKEN
    ensures ScanAll(e + [NL] + rest) == Prepend(DropCR(e), ScanAll(rest))
  {
    var b := e + [NL] + rest;
    NewlineIsFirst(b, |e|);
    assert b[..|e|] == e && b[|e| + 1..] == rest;
  }

  // Whatever follows whole entries in the file, they are read first and unchanged.
  lemma {:induction false} ScanPastFrame(es: seq<bytes>, rest: bytes)
    requires AllFramable(es)
    ensures ScanAll(Frame(es) + rest) == Scanned(es + ScanAll(rest).lines, ScanAll(rest).tooLong)
  {
    hide ScanAll;
    if es == [] {
      assert Frame(es) + rest == rest;
      assert es + ScanAll(rest).lines == ScanAll(rest).lines;
    } else {
      var e, more := es[0], es[1..];
      assert Framable(e) && DropCR(e) == e;
      assert Frame(es) + rest == e + [NL] + (Frame(more) + rest);
      ScanFirst(e, Frame(more) + rest);
      ScanPastFrame(more, rest);
      assert [e] + (more + ScanAll(rest).lines) == es + ScanAll(rest).lines;
    }
  }

  lemma {:induction false} LinesAreClean(b: bytes)
    ensures forall l | l in ScanAll(b).lines :: l != [] && NL !in l && |l| < MAX_TOKEN
    decreases |b|
  {
    if b != [] && NewlineAt(b) < MAX_TOKEN {
      LinesAreClean(Rest(b));
      var line := DropCR(b[..NewlineAt(b)]);
      assert NL !in line;
    }
  }

  // The entries with their carriage returns cut and the empty ones skipped.
  function Cut(es: seq<bytes>): (c: seq<bytes>)
    ensures |c| <= |es|
  {
    if es == [] then []
    else if DropCR(es[0]) == [] then Cut(es[1..])
    else [DropCR(es[0])] + Cut(es[1..])
  }

  lemma {:induction false} ScanCuts(es: seq<bytes>)
    requires forall e | e in es :: NL !in e && |e| < MAX_TOKEN
    ensures ScanAll(Frame(es)) == Scanned(Cut(es), false)
  {
    if es != [] {
      assert es[0] in es;
      ScanFirst(es[0], Frame(es[1..]));
      ScanCuts(es[1..]);
    }
  }

  lemma {:induction false} UncutMeansNoCR(es: seq<bytes>)
    requires Cut(es) == es
    ensures forall e | e in es :: e != [] && e[|e| - 1] != CR
  {
    if es != [] {
      var more := Cut(es[1..]);
      assert DropCR(es[0]) != [];
      assert ([DropCR(es[0])] + more)[0] == DropCR(es[0]) && ([DropCR(es[0])] + more)[1..] == more;
      UncutMeansNoCR(es[1..]);
      assert es == [es[0]] + es[1..];
    }
  }

  // Scanning gives back exactly the entries that were appended if and only if each
  // is non-empty, has no newline, does not end in a carriage return and is shorter
  // than the scanner's limit.
  lemma ScanReturnsEntriesIff(es: seq<bytes>)
    ensures ScanAll(Frame(es)) == Scanned(es, false) <==> AllFramable(es)
  {
    if AllFramable(es) {
      ScanPastFrame(es, []);
      assert Frame(es) + [] == Frame(es) && es + [] == es;
    }
    if ScanAll(Frame(es)) == Scanned(es, false) {
      LinesAreClean(Frame(es));
      ScanCuts(es);
      UncutMeansNoCR(es);
    }
  }

  // In numbers: an entry of 65535 bytes is read back, and one of 65536 stops the scanner,
  // which loses it and everything after it.
  lemma ScanStopsAt64K(es: seq<bytes>, e: bytes, rest: bytes)
    requires AllFramable(es) && e != [] && (forall i | 0 <= i < |e| :: e[i] != 10 && e[i] != 13)
    ensures |e| <= 65535 ==> ScanAll(Frame(es) + (e + [10] + rest)) == After(es + [e], ScanAll(rest))
    ensures |e| >= 65536 ==> ScanAll(Frame(es) + (e + [10] + rest)) == Scanned(es, true)
  {
    hide ScanAll;
    var tail := e + [10] + rest;
    ScanPastFrame(es, tail);
    if |e| <= 65535 {
      ScanFirst(e, rest);
      assert DropCR(e) == e;
      assert es + ([e] + ScanAll(rest).lines) == (es + [e]) + ScanAll(rest).lines;
    } else {
      LongLineStops(e, rest);
      assert es + [] == es;
    }
  }

  // ---- a file cut short ----

  // The entries wholly inside the first n bytes, and what there is of the next one.
  function Whole(es: seq<bytes>, n: nat): (k: nat)
    ensures k <= |es|
  {
    if es == [] || n <= |es[0]| then 0 else 1 + Whole(es[1..], n - |es[0]| - 1)
  }

  function Tail(es: seq<bytes>, n: nat): bytes {
    if es == [] then [] else if n <= |es[0]| then es[0][..n] else Tail(es[1..], n - |es[0]| - 1)
  }

  lemma {:induction false} CutSplits(es: seq<bytes>, n: nat)
    requires n <= |Frame(es)|
    ensures Frame(es)[..n] == Frame(es[..Whole(es, n)]) + Tail(es, n)
    ensures if Whole(es, n) < |es| then Tail(es, n) <= es[Whole(es, n)] else Tail(es, n) == []
  {
    if es == [] {
    } else if n <= |es[0]| {
      assert Frame(es)[..n] == es[0][..n];
      assert es[..0] == [];
    } else {
      var m := n - |es[0]| - 1;
      CutSplits(es[1..], m);
      CutPastFirst(es[0] + [NL], Frame(es[1..]), n);
      var k := Whole(es[1..], m);
      assert es[..k + 1][1..] == es[1..][..k];
    }
  }

  lemma CutPastFirst(a: bytes, b: bytes, n: nat)
    requires |a| <= n <= |a| + |b|
    ensures (a + b)[..n] == a + b[..n - |a|]
  {
  }

  lemma ScanTail(t: bytes)
    requires NL !in t && |t| < MAX_TOKEN
    ensures ScanAll(t) == Prepend(DropCR(t), Scanned([], false))
  {
    if t != [] {
      NewlineIsFirst(t, |t|);
      assert t[..|t|] == t;
    }
  }

  // Scanning the first n bytes reads the wholly written entries and, after them, at
  // most one more line: what was written of the next entry.
  lemma ScanOfPrefix(es: seq<bytes>, n: nat)
    requires AllFramable(es) && n <= |Frame(es)|
    ensures var k, t := Whole(es, n), Tail(es, n);
            && (if k < |es| then t <= es[k] else t == [])
            && ScanAll(Frame(es)[..n])
               == Scanned(es[..k] + (if DropCR(t) == [] then [] else [DropCR(t)]), false)
  {
    hide ScanAll;
    var k, t := Whole(es, n), Tail(es, n);
    CutSplits(es, n);
    ScanPastFrame(es[..k], t);
    if k < |es| {
      assert Framable(es[k]);
      assert forall i | 0 <= i < |t| :: t[i] == es[k][i];
    }
    ScanTail(t);
  }

  // A torn entry is never trimmed: the next append lands on the same line, and the two
  // are read back as one line.
  lemma AppendAfterTornTail(es: seq<bytes>, t: bytes, fs: seq<bytes>)
    requires AllFramable(es) && AllFramable(fs)
    requires fs != [] && NL !in t && |t + fs[0]| < MAX_TOKEN
    ensures ScanAll(Frame(es) + t + Frame(fs)) == Scanned(es + [t + fs[0]] + fs[1..], false)
  {
    hide ScanAll, Frame, Framable;
    var first := t + fs[0];
    var glued := [first] + fs[1..];
    GluedIsFramable(t, fs);
    FrameOfGlued(t, fs);
    assert Frame(es) + t + Frame(fs) == Frame(es) + (t + Frame(fs));
    ScanPastFrame(es, Frame(glued));
    ScanReturnsEntriesIff(glued);
    assert es + glued == es + [first] + fs[1..];
  }

  lemma FrameOfGlued(t: bytes, fs: seq<bytes>)
    requires fs != []
    ensures t + Frame(fs) == Frame([t + fs[0]] + fs[1..])
  {
  }

  lemma GluedIsFramable(t: bytes, fs: seq<bytes>)
    requires fs != [] && AllFramable(fs) && NL !in t && |t + fs[0]| < MAX_TOKEN
    ensures AllFramable([t + fs[0]] + fs[1..])
  {
  }

  // ---- replay ----

  // replayJournal stops at the first line the handler cannot decode.
  function Decoded(lines: seq<bytes>, dec: bytes -> Option<Entry>): seq<Entry> {
    if lines == [] || dec(lines[0]).None? then []
    else [dec(lines[0]).value] + Decoded(lines[1..], dec)
  }

  function Encoded(es: seq<Entry>, enc: Entry -> bytes): seq<bytes> {
    seq(|es|, i requires 0 <= i < |es| => enc(es[i]))
  }

  // JSON encoding as far as it matters: entries come back, an object cut short does not
  // parse, and neither does a piece of one, or a whole one, in front of another.
  ghost predicate Codec(enc: Entry -> bytes, dec: bytes -> Option<Entry>) {
    && (forall e :: dec(enc(e)) == Some(e))
    && (forall e, t | t <= enc(e) && t != enc(e) :: dec(DropCR(t)) == None)
    && (forall e, f, t | t <= enc(e) && t != [] :: dec(t + enc(f)) == None)
  }

  lemma {:induction false} DecodedFront(es: seq<Entry>, more: seq<bytes>, enc: Entry -> bytes, dec: bytes -> Option<Entry>)
    requires Codec(enc, dec)
    ensures Decoded(Encoded(es, enc) + more, dec) == es + Decoded(more, dec)
  {
    if es == [] {
      assert Encoded(es, enc) + more == more;
    } else {
      var lines := Encoded(es, enc) + more;
      assert lines[0] == enc(es[0]) && lines[1..] == Encoded(es[1..], enc) + more;
      DecodedFront(es[1..], more, enc, dec);
      assert [es[0]] + (es[1..] + Decoded(more, dec)) == es + Decoded(more, dec);
    }
  }

  // A crash anywhere inside an append leaves a journal that replays as the journal
  // without that entry or with it, never as anything else.
  lemma TornAppendIsAllOrNothing(es: seq<Entry>, e: Entry, cut: nat, enc: Entry -> bytes, dec: bytes -> Option<Entry>)
    requires Codec(enc, dec)
    requires AllFramable(Encoded(es, enc)) && Framable(enc(e))
    requires cut <= |enc(e)| + 1
    ensures var file := Frame(Encoded(es, enc)) + (enc(e) + [NL])[..cut];
            Decoded(ScanAll(file).lines, dec) == if cut < |enc(e)| then es else es + [e]
  {
    hide ScanAll, Decoded;
    var t := (enc(e) + [NL])[..cut];
    ScanPastFrame(Encoded(es, enc), t);
    DecodedFront(es, ScanAll(t).lines, enc, dec);
    DecodedCut(e, cut, enc, dec);
  }

  lemma DecodedCut(e: Entry, cut: nat, enc: Entry -> bytes, dec: bytes -> Option<Entry>)
    requires Codec(enc, dec) && Framable(enc(e)) && cut <= |enc(e)| + 1
    ensures var t := (enc(e) + [NL])[..cut];
            Decoded(ScanAll(t).lines, dec) == if cut < |enc(e)| then [] else [e]
  {
    hide ScanAll;
    var t := (enc(e) + [NL])[..cut];
    if cut <= |enc(e)| {
      assert t == enc(e)[..cut];
      ScanTail(t);
      assert t == enc(e) || dec(DropCR(t)) == None;
    } else {
      assert t == enc(e) + [NL] + [];
      ScanFirst(enc(e), []);
      ScanTail([]);
    }
    DecodedOne(e, enc, dec);
  }

  lemma DecodedOne(e: Entry, enc: Entry -> bytes, dec: bytes -> Option<Entry>)
    requires Codec(enc, dec)
    ensures Decoded([enc(e)], dec) == [e]
  {
  }

  // A file that holds only a torn entry and appends made after it, the first of them
  // possibly too long for the scanner together with the torn bytes.
  lemma TornTailDecodes(e: Entry, t: bytes, fs: seq<Entry>, enc: Entry -> bytes, dec: bytes -> Option<Entry>)
    requires Codec(enc, dec) && AllFramable(Encoded(fs, enc)) && Framable(enc(e))
    requires fs != [] && t <= enc(e) && t != []
    ensures Decoded(ScanAll(t + Frame(Encoded(fs, enc))).lines, dec) == []
  {
    hide ScanAll, Frame, Framable;
    var b := Encoded(fs, enc);
    assert b[0] == enc(fs[0]);
    assert NL !in t by { PrefixIsClean(enc(e), t); }
    var first := t + b[0];
    if |first| < MAX_TOKEN {
      AppendAfterTornTail([], t, b);
      assert Frame([]) + t + Frame(b) == t + Frame(b) by { FrameOfNothing(); }
      assert dec(first) == None;
    } else {
      PrefixIsClean(b[0], b[0]);
      assert forall i | 0 <= i < |first| :: first[i] in t || first[i] in b[0];
      FrameOfGlued(t, b);
      LongLineStops(first, Frame(b[1..]));
      FrameStarts([first] + b[1..]);
    }
  }

  lemma PrefixIsClean(e: bytes, t: bytes)
    requires Framable(e) && t <= e
    ensures NL !in t
  {
    assert forall i | 0 <= i < |t| :: t[i] == e[i];
  }

  lemma FrameOfNothing()
    ensures Frame([]) == []
  {
  }

  lemma FrameStarts(es: seq<bytes>)
    requires es != []
    ensures Frame(es) == es[0] + [NL] + Frame(es[1..])
  {
  }

  lemma LongLineStops(line: bytes, rest: bytes)
    requires |line| >= MAX_TOKEN && NL !in line
    ensures ScanAll(line + [NL] + rest) == Scanned([], true)
  {
    var b := line + [NL] + rest;
    assert forall i | 0 <= i < MAX_TOKEN :: b[i] == line[i];
    assert NewlineAt(b) >= MAX_TOKEN;
  }

  // Appends made after a recovery are read by the next one if and only if the crash left
  // no byte of a torn entry: otherwise not one of them is.
  lemma AppendsAfterCrashSurviveIff(
    es: seq<Entry>, e: Entry, t: bytes, fs: seq<Entry>, enc: Entry -> bytes, dec: bytes -> Option<Entry>)
    requires Codec(enc, dec) && Framable(enc(e))
    requires AllFramable(Encoded(es, enc)) && AllFramable(Encoded(fs, enc))
    requires fs != [] && t <= enc(e)
    ensures var read := Decoded(ScanAll(Frame(Encoded(es, enc)) + t + Frame(Encoded(fs, enc))).lines, dec);
            && (read == es + fs <==> t == [])
            && (read == es <==> t != [])
  {
    hide ScanAll, Frame, Framable, Decoded;
    var a, b := Encoded(es, enc), Encoded(fs, enc);
    assert Frame(a) + t + Frame(b) == Frame(a) + (t + Frame(b));
    ScanPastFrame(a, t + Frame(b));
    DecodedFront(es, ScanAll(t + Frame(b)).lines, enc, dec);
    if t == [] {
      assert t + Frame(b) == Frame(b);
      ScanReturnsEntriesIff(b);
      DecodedAll(fs, enc, dec);
      assert es + fs != es;
    } else {
      TornTailDecodes(e, t, fs, enc, dec);
      assert es + [] == es;
    }
  }

  lemma DecodedAll(es: seq<Entry>, enc: Entry -> bytes, dec: bytes -> Option<Entry>)
    requires Codec(enc, dec)
    ensures Decoded(Encoded(es, enc), dec) == es
  {
    DecodedFront(es, [], enc, dec);
    assert Encoded(es, enc) + [] == Encoded(es, enc);
  }

  // One byte of a save is on disk, the service restarts and journals a disconnect: the
  // next recovery reads neither.
  lemma OneTornByteLosesNextEntry(enc: Entry -> bytes, dec: bytes -> Option<Entry>)
    requires Codec(enc, dec)
    requires var torn, next := Save(7, "gw-1", map[]), Disconnect(8, "gw-1", map[], 1000);
             Framable(enc(torn)) && Framable(enc(next))
    ensures var torn, next := Save(7, "gw-1", map[]), Disconnect(8, "gw-1", map[], 1000);
            Decoded(ScanAll(enc(torn)[..1] + (enc(next) + [NL])).lines, dec) == []
  {
    var torn, next := Save(7, "gw-1", map[]), Disconnect(8, "gw-1", map[], 1000);
    assert Encoded([next], enc) == [enc(next)];
    FrameStarts([enc(next)]);
    assert enc(next) + [NL] + Frame([enc(next)][1..]) == enc(next) + [NL];
    TornTailDecodes(torn, enc(torn)[..1], [next], enc, dec);
  }

  // The same in bytes: an opening brace, and an empty object appended after it.
  lemma TornBraceIsGlued()
    ensures ScanAll([123] + [123, 125] + [NL]) == Scanned([[123, 123, 125]], false)
  {
    ScanFirst([123, 123, 125], []);
    assert [123, 123, 125] + [NL] + [] == [123] + [123, 125] + [NL];
  }

  // ---- the store ----

  // The three files; None is a missing one.
  datatype Files = Files(snapshot: Option<bytes>, tmp: Option<bytes>, journal: Option<bytes>)

  class Store {
    var files: Files
    var closed: bool

    // open: the journal's file handle. failed: the write buffer holds an error, which it
    // repeats until the journal is rotated.
    var open: bool
    var failed: bool

    constructor (files: Files)
      ensures !closed && open && !failed && this.files == files.(journal := Some(Bytes(files.journal)))
    {
      closed, open, failed := false, true, false;
      this.files := files.(journal := Some(Bytes(files.journal)));
    }

    // Writes entry and newline in one go; `written` bytes of it reach the file. After any
    // series of successful appends the journal is the frame of the series. A failed one
    // leaves a torn line, and no later append writes anything before the next rotation.
    method Append(entry: bytes, written: nat) returns (ok: bool)
      requires written <= |entry| + 1
      modifies this`files, this`failed
      ensures ok == (!closed && open && !old(failed) && written == |entry| + 1)
      ensures failed == (old(failed) || (!closed && !ok))
      ensures files == if closed || !open || old(failed) then old(files)
                       else old(files).(journal := Some(Bytes(old(files).journal) + (entry + [NL])[..written]))
      ensures forall es: seq<bytes> :: ok && Bytes(old(files).journal) == Frame(es)
                ==> Bytes(files.journal) == Frame(es + [entry])
    {
      if closed {
        return false;
      }
      if !open || failed {
        failed := true;
        return false;
      }
      var line := entry + [NL];
      ghost var was := Bytes(files.journal);
      files := files.(journal := Some(Bytes(files.journal) + line[..written]));
      if written < |line| {
        failed := true;
        return false;
      }
      assert line[..written] == line;
      forall es: seq<bytes> | was == Frame(es)
        ensures was + line == Frame(es + [entry])
      {
        FrameAppend(es, entry);
        assert was + line == was + entry + [NL];
      }
      return true;
    }

    // `trace` is every state of the directory the call passes through. `written` is how
    // much of the new snapshot reaches the .tmp file, None if that cannot be created; a
    // crash while writing leaves the same. The snapshot is the old one or the whole new
    // one throughout, and the journal is never gone before the new one is in place.
    method Snapshot(data: bytes, written: Option<nat>, renamed: bool, recreated: bool)
      returns (ok: bool, ghost trace: seq<Files>)
      requires written.Some? ==> written.value <= |data|
      modifies this`files, this`open, this`failed
      ensures var whole := written == Some(|data|);
              && ok == (whole && renamed && !closed && recreated)
              && trace == SnapshotTrace(old(files), data, written, whole && renamed, whole && renamed && !closed, recreated)
              && (if whole && renamed && !closed then open == recreated && failed == (old(failed) && !recreated)
                  else open == old(open) && failed == old(failed))
      ensures files == trace[|trace| - 1]
      ensures old(files) in trace
      ensures written.Some? ==> old(files).(tmp := Some([])) in trace && old(files).(tmp := Some(data[..written.value])) in trace
      ensures written == Some(|data|) && renamed ==> Files(Some(data), None, old(files).journal) in trace
      ensures written == Some(|data|) && renamed && !closed ==> Files(Some(data), None, None) in trace
      ensures ok ==> files == Files(Some(data), None, Some([]))
      ensures written.None? ==> files == old(files)
      ensures written.Some? && !(written == Some(|data|) && renamed) ==>
                files == old(files).(tmp := Some(data[..written.value]))
      ensures written == Some(|data|) && renamed && closed ==> files == Files(Some(data), None, old(files).journal)
      ensures written == Some(|data|) && renamed && !closed && !recreated ==> files == Files(Some(data), None, None)
      ensures forall f | f in trace ::
                && (f.snapshot == old(files).snapshot || f.snapshot == Some(data))
                && (f.journal == old(files).journal || (f.snapshot == Some(data) && Bytes(f.journal) == []))
    {
      trace := [files];
      if written.None? {
        return false, trace;
      }
      files := files.(tmp := Some([]));
      trace := trace + [files];
      files := files.(tmp := Some(data[..written.value]));
      trace := trace + [files];
      if written.value < |data| || !renamed {
        return false, trace;
      }
      files := files.(snapshot := Some(data), tmp := None);
      trace := trace + [files];
      if closed {
        return false, trace;
      }
      open := false;
      files := files.(journal := None);
      trace := trace + [files];
      if !recreated {
        return false, trace;
      }
      open, failed := true, false;
      files := files.(journal := Some([]));
      trace := trace + [files];
      return true, trace;
    }

    // Closing twice, or after a rotation that failed, is an error.
    method Close() returns (ok: bool)
      modifies this`closed, this`open
      ensures closed && !open && ok == old(open)
    {
      ok := open;
      closed, open := true, false;
    }
  }

  function Bytes(file: Option<bytes>): bytes {
    if file.Some? then file.value else []
  }

  function SnapshotTrace(
    f: Files, data: bytes, written: Option<nat>, renames: bool, rotates: bool, recreated: bool): (t: seq<Files>)
    requires written.Some? ==> written.value <= |data|
    ensures t != []
  {
    if written.None? then [f]
    else
      var r := f.(snapshot := Some(data), tmp := None);
      [f, f.(tmp := Some([])), f.(tmp := Some(data[..written.value]))]
      + (if renames then [r] else [])
      + (if rotates then [r.(journal := None)] else [])
      + (if rotates && recreated then [r.(journal := Some([]))] else [])
  }
}
