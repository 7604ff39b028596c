/** Bytes to sessions: a crash in the middle of a handler's journal append. */
module TornWrite {
  import opened Wrappers
  import opened Sessions
  import opened ReplayFacts
  import opened Journal
  import opened Recovery

  // SessionSvr has accepted `e` when it crashes with only `cut` bytes of its line on
  // disk. Recovery from those bytes gives the table as it was before the message if
  // the entry is incomplete, and as it was after it otherwise, for every player
  // whose run was careful.
  lemma CrashDuringAppend(
    w: World, clock: int, steps: seq<Step>, p: PlayerId,
    e: Entry, cut: nat, enc: Entry -> bytes, dec: bytes -> Option<Entry>)
    requires Reached(w, clock, steps, p)
    requires Enabled(w, Receive(e)) && Careful(w, Receive(e), p) && Accepted(Lookup(w.live, e.player), e)
    requires Codec(enc, dec) && AllFramable(Encoded(Recovery.Journal(w.disk), enc)) && Framable(enc(e))
    requires cut <= |enc(e)| + 1
    ensures var file := Frame(Encoded(Recovery.Journal(w.disk), enc)) + (enc(e) + [NL])[..cut];
            var recovered := ReplayAll(Base(w.disk), Decoded(ScanAll(file).lines, dec));
            var table := if cut < |enc(e)| then w.live else Handle(w.live, e);
            Agree(Lookup(table, p), Lookup(recovered, p), w.clock)
  {
    var j := Recovery.Journal(w.disk);
    TornAppendIsAllOrNothing(j, e, cut, enc, dec);
    ReachedIsGood(w, clock, steps, p);
    ReplayIsPerPlayer(Base(w.disk), j, p);
    var w' := Next(w, Receive(e));
    StepKeeps(w, Receive(e), p);
    ReplayIsPerPlayer(Base(w'.disk), Recovery.Journal(w'.disk), p);
  }
}
