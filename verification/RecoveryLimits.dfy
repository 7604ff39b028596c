/**
 How far the recovery results reach: each hypothesis on runs with the exact condition
 on the step that breaks agreement, and a run in which it does.
 */
module RecoveryLimits {
  import opened Wrappers
  import opened Sessions
  import opened ReplayFacts
  import opened Recovery

  // ---- exactly when ----

  lemma ReceiveAdvancesBoth(w: World, e: Entry)
    requires Enabled(w, Receive(e)) && Accepted(Lookup(w.live, e.player), e)
    ensures var w' := Next(w, Receive(e));
            && Lookup(w'.live, e.player) == Live(Lookup(w.live, e.player), e)
            && Lookup(Recovered(w'.disk), e.player) == Replay(Lookup(Recovered(w.disk), e.player), e)
  {
    hide Live, Replay, Next, Of, Fold, ReplayAll;
    var w' := Next(w, Receive(e));
    AcceptedEffect(w, e, e.player);
    ReplayIsPerPlayer(Base(w.disk), Journal(w.disk), e.player);
    ReplayIsPerPlayer(Base(w'.disk), Journal(w'.disk), e.player);
    FoldAppend(Lookup(Base(w.disk), e.player), Share(w, e.player), e);
  }

  lemma DisconnectAgreesIff(o: Option<Session>, r: Option<Session>, clock: int, e: Entry)
    requires Agree(o, r, clock) && e.Disconnect? && e.at != 0 && Accepted(o, e)
    ensures Agree(Live(o, e), Replay(r, e), clock) <==> o.Some? || (r.Some? && !Stale(r.value, e.gateway))
  {
  }

  // From an agreeing world, receiving a disconnect keeps agreement if and only if
  // the player has a session, or recovery would resurrect one of that gateway's.
  lemma DisconnectKeepsAgreementIff(w: World, clock: int, steps: seq<Step>, p: PlayerId, g: string, t: Tags)
    requires Reached(w, clock, steps, p) && !w.phase.Removed?
    ensures var w' := Next(w, Receive(Disconnect(p, g, t, w.clock)));
            var r := Lookup(Recovered(w.disk), p);
            Agree(Lookup(w'.live, p), Lookup(Recovered(w'.disk), p), w'.clock)
            <==> p in w.live || (r.Some? && !Stale(r.value, g))
  {
    hide Live, Replay, Recovered;
    var e := Disconnect(p, g, t, w.clock);
    ReachedIsGood(w, clock, steps, p);
    CrashRecovery(w, clock, steps, p);
    if Accepted(Lookup(w.live, p), e) {
      ReceiveAdvancesBoth(w, e);
      DisconnectAgreesIff(Lookup(w.live, p), Lookup(Recovered(w.disk), p), w.clock, e);
    } else {
      RejectedChangesNothing(w.live, e);
    }
  }

  // A save keeps tag agreement if and only if it carries tags or finds none to clear.
  lemma SaveKeepsTagsIff(w: World, p: PlayerId, g: string, t: Tags)
    requires !w.phase.Removed?
    ensures var w' := Next(w, Receive(Save(p, g, t)));
            var r := Lookup(Recovered(w.disk), p);
            TagsAgree(Lookup(w'.live, p), Lookup(Recovered(w'.disk), p))
            <==> t != map[] || r.None? || r.value.connTags == map[]
  {
    hide Next, Recovered;
    ReceiveAdvancesBoth(w, Save(p, g, t));
  }

  // When a player's reconnects and disconnects carry no tags, as gateways send them,
  // that is the condition of the run results.
  lemma NoTagsOnDiskIff(w: World, p: PlayerId)
    requires OnlySavesCarryTags(Of(Journal(w.disk), p))
    ensures NoTagsOnDisk(w, p) <==> Tagless(Lookup(Recovered(w.disk), p))
  {
    ReplayIsPerPlayer(Base(w.disk), Journal(w.disk), p);
    NoTagsIffRecoveredTagless(Lookup(Base(w.disk), p), Of(Journal(w.disk), p));
  }

  // A visit of the scanner to a live player parts the live and the recovered table if
  // and only if it finds the session expired.
  lemma ExpiryPartsTablesIff(w: World, clock: int, steps: seq<Step>, p: PlayerId, now: int)
    requires Reached(w, clock, steps, p) && p in w.live && now <= w.clock
    ensures var w' := Next(w, Expire(p, now));
            && ((p in w'.live <==> p in Recovered(w'.disk)) <==> !Expired(w.live[p], now))
            && p in Recovered(w'.disk)
            && (p !in w'.live ==> Expired(Recovered(w'.disk)[p], now))
  {
    hide Recovered;
    CrashRecovery(w, clock, steps, p);
  }

  // ---- rotation ----

  // Every entry of the journal is among the last entries accepted.
  predicate EndsLog(j: seq<Entry>, log: seq<Entry>) {
    |j| <= |log| && log[|log| - |j|..] == j
  }

  lemma StepKeepsEndsLog(w: World, st: Step)
    requires Enabled(w, st) && EndsLog(Journal(w.disk), w.log)
    ensures EndsLog(Journal(Next(w, st).disk), Next(w, st).log)
  {
    hide Handle, Recovered;
    var w' := Next(w, st);
    if w'.log != w.log {
      var n := |w.log| - |Journal(w.disk)|;
      assert (w.log + [st.e])[n..] == w.log[n..] + [st.e];
    }
  }

  // The captured mark of a player who has since expired is past its TTL as well.
  ghost predicate CapturedMarkIsOlder(w: World, p: PlayerId) {
    Pending(w) ==>
      var o, c := Lookup(w.live, p), Lookup(w.phase.state, p);
      c.Some? && c.value.disconnectedAt != 0 ==>
        && c.value.disconnectedAt <= w.clock
        && (if o.Some? then o.value.disconnectedAt == 0 || c.value.disconnectedAt <= o.value.disconnectedAt
            else Expired(c.value, w.clock))
  }

  ghost predicate RotationInv(w: World, p: PlayerId) {
    EndsLog(Journal(w.disk), w.log) && StampsUpTo(Of(w.log, p), w.clock) && CapturedMarkIsOlder(w, p)
  }

  lemma LiveStamp(w: World, p: PlayerId)
    requires Inv(w, p) && StampsUpTo(Of(w.log, p), w.clock) && p in w.live
    ensures w.live[p].disconnectedAt <= w.clock
  {
  }

  lemma ReceiveKeepsOlder(w: World, e: Entry, p: PlayerId)
    requires Enabled(w, Receive(e)) && Careful(w, Receive(e), p) && CapturedMarkIsOlder(w, p)
    ensures CapturedMarkIsOlder(Next(w, Receive(e)), p)
  {
    hide Handle;
    if e.player == p {
      HandleOwn(w.live, e);
    } else {
      HandleOther(w.live, e, p);
    }
  }

  lemma StepKeepsOlder(w: World, st: Step, p: PlayerId)
    requires Enabled(w, st) && Careful(w, st, p)
    requires Inv(w, p) && RotationInv(w, p)
    ensures CapturedMarkIsOlder(Next(w, st), p)
  {
    hide Inv, EndsLog, StampsUpTo, Recovered, Handle;
    if st.Receive? {
      ReceiveKeepsOlder(w, st.e, p);
    } else if st.Capture? && p in w.live {
      LiveStamp(w, p);
    }
  }

  lemma {:induction false} RunKeepsRotationInv(w: World, steps: seq<Step>, p: PlayerId)
    requires ValidRun(w, steps) && CarefulRun(w, steps, p)
    requires Inv(w, p) && RotationInv(w, p)
    ensures RotationInv(End(w, steps), p)
    decreases |steps|
  {
    hide Inv, EndsLog, StampsUpTo, CapturedMarkIsOlder, Next;
    if steps != [] {
      StepKeeps(w, steps[0], p);
      StepKeepsEndsLog(w, steps[0]);
      InvClock(w, p);
      StepKeepsStamps(w, steps[0], p);
      StepKeepsOlder(w, steps[0], p);
      RunKeepsRotationInv(Next(w, steps[0]), steps[1..], p);
    }
  }

  lemma StartRotation(clock: int, p: PlayerId)
    ensures RotationInv(Start(clock), p)
  {
    var w := Start(clock);
    assert EndsLog([], []);
    assert Journal(w.disk) == [] && w.log == [] && Of(w.log, p) == [];
  }

  lemma InvClock(w: World, p: PlayerId)
    requires Inv(w, p)
    ensures w.clock > 0
  {
  }

  lemma {:induction false} OfConcat(a: seq<Entry>, b: seq<Entry>, p: PlayerId)
    ensures Of(a + b, p) == Of(a, p) + Of(b, p)
  {
    hide Of;
    if b == [] {
      assert a + b == a && Of(a, p) + Of(b, p) == Of(a, p);
    } else {
      var front, e := b[..|b| - 1], b[|b| - 1];
      OfConcat(a, front, p);
      assert b == front + [e] && a + b == (a + front) + [e];
      OfAppend(a + front, e, p);
      OfAppend(front, e, p);
      assert Of(a, p) + (Of(front, p) + [e]) == (Of(a, p) + Of(front, p)) + [e];
    }
  }

  lemma {:induction false} NothingOfIff(j: seq<Entry>, p: PlayerId)
    ensures Of(j, p) == [] <==> UntouchedSince(j, 0, p)
  {
    if j != [] {
      NothingOfIff(j[..|j| - 1], p);
      UntouchedPrefix(j[..|j| - 1], j[|j| - 1], 0, p);
      assert j[..|j| - 1] + [j[|j| - 1]] == j;
    }
  }

  lemma UntouchedShift(j: seq<Entry>, mark: nat, p: PlayerId)
    requires mark <= |j|
    ensures UntouchedSince(j, mark, p) <==> Of(j[mark..], p) == []
  {
    NothingOfIff(j[mark..], p);
    assert forall i | 0 <= i < |j| - mark :: j[mark..][i] == j[mark + i];
    if UntouchedSince(j[mark..], 0, p) {
      forall i | mark <= i < |j| ensures j[i].player != p { assert j[mark..][i - mark] == j[i]; }
    }
  }

  // The newest entry since the capture is the newest ever accepted.
  lemma NewestSinceCapture(j: seq<Entry>, log: seq<Entry>, mark: nat, p: PlayerId)
    requires EndsLog(j, log) && mark <= |j| && Of(j[mark..], p) != []
    ensures var n, l := Of(j[mark..], p), Of(log, p);
            l != [] && l[|l| - 1] == n[|n| - 1]
  {
    hide Of;
    var cut := |log| - |j| + mark;
    assert log[cut..] == j[mark..];
    assert log == log[..cut] + log[cut..];
    OfConcat(log[..cut], j[mark..], p);
  }

  lemma SnapshotAlone(w: World, p: PlayerId)
    requires w.phase.Renamed? && PhaseMatchesDisk(w)
    ensures Recovered(Next(w, RemoveJournal).disk) == w.phase.state
  {
  }

  // Player p's entries since the state was captured.
  function SinceCapture(w: World, p: PlayerId): seq<Entry>
    requires w.phase.Renamed?
  {
    if w.phase.mark <= |Journal(w.disk)| then Of(Journal(w.disk)[w.phase.mark..], p) else []
  }

  // Removing the journal drops player p's entries since the capture, n. It keeps
  // agreement if and only if there are none; or the player has a session and the
  // snapshot says what the last of them says; or the player has none, and the snapshot
  // has none or a disconnected one.
  lemma RotationKeepsAgreementIff(w: World, clock: int, steps: seq<Step>, p: PlayerId)
    requires Reached(w, clock, steps, p) && w.phase.Renamed?
    ensures var w' := Next(w, RemoveJournal);
            var c, n := Lookup(w.phase.state, p), SinceCapture(w, p);
            Agree(Lookup(w'.live, p), Lookup(Recovered(w'.disk), p), w'.clock)
            <==> (|| n == []
                  || (p in w.live && c.Some? && c.value.gatewayId == n[|n| - 1].gateway
                      && c.value.disconnectedAt == Stamp(n[|n| - 1]))
                  || (p !in w.live && (c.Some? ==> c.value.disconnectedAt != 0)))
  {
    hide Of, Recovered, UntouchedSince, EndsLog, StampsUpTo, Fold;
    ReachedIsGood(w, clock, steps, p);
    StartIsGood(clock, p);
    StartRotation(clock, p);
    RunKeepsRotationInv(Start(clock), steps, p);
    SnapshotAlone(w, p);
    UntouchedShift(Journal(w.disk), w.phase.mark, p);
    if SinceCapture(w, p) != [] {
      NewestSinceCapture(Journal(w.disk), w.log, w.phase.mark, p);
    }
  }

  // ---- runs that show the hypotheses are needed ----

  const ALICE: PlayerId := 7

  function LostDisconnect(): seq<Step> {
    [Receive(Disconnect(ALICE, "gw-1", map[], 1000))]
  }

  // A first disconnect leaves a session that recovery does not bring back.
  lemma OrphanDisconnectIsLost()
    ensures ValidRun(Start(1000), LostDisconnect())
    ensures var w := End(Start(1000), LostDisconnect());
            ALICE in w.live && ALICE !in Recovered(w.disk)
  {
  }

  function LostSave(): seq<Step> {
    [Capture, Receive(Save(ALICE, "gw-1", map[])), WriteTmp, Rename, RemoveJournal]
  }

  // A save that arrives while a snapshot is being written can vanish with the journal.
  lemma SaveDuringSnapshotIsLost()
    ensures ValidRun(Start(1000), LostSave())
    ensures var w := End(Start(1000), LostSave());
            ALICE in w.live && ALICE !in Recovered(w.disk)
  {
    var st := LostSave();
    var w0 := Start(1000);
    var w1 := Next(w0, st[0]);
    var w2 := Next(w1, st[1]);
    var w3 := Next(w2, st[2]);
    var w4 := Next(w3, st[3]);
    var w5 := Next(w4, st[4]);
    assert st[1..][1..][1..][1..][1..] == [];
    assert ValidRun(w5, st[1..][1..][1..][1..][1..]);
    assert ValidRun(w4, st[1..][1..][1..][1..]);
    assert ValidRun(w3, st[1..][1..][1..]);
    assert ValidRun(w2, st[1..][1..]);
    assert ValidRun(w1, st[1..]);
    assert w5 == End(w0, st);
  }

  function Resurrection(): seq<Step> {
    [Receive(Save(ALICE, "gw-1", map[])), Receive(Disconnect(ALICE, "gw-1", map[], 1000)), Tick(1120), Expire(ALICE, 1120)]
  }

  // Expiry is not journaled, so recovery brings the session back, still expired.
  lemma ExpiredSessionIsResurrected()
    ensures ValidRun(Start(1000), Resurrection())
    ensures var w := End(Start(1000), Resurrection());
            ALICE !in w.live && ALICE in Recovered(w.disk) && Expired(Recovered(w.disk)[ALICE], w.clock)
  {
    var st := Resurrection();
    var w0 := Start(1000);
    var w1 := Next(w0, st[0]);
    var w2 := Next(w1, st[1]);
    var w3 := Next(w2, st[2]);
    var w4 := Next(w3, st[3]);
    FourSteps(w0, st[0], st[1], st[2], st[3]);
    ReplayTwo(st[0].e, st[1].e);
    assert Journal(w4.disk) == [st[0].e, st[1].e];
  }

  lemma ReplayTwo(a: Entry, b: Entry)
    requires a.player == b.player
    ensures Lookup(ReplayAll(map[], [a, b]), a.player) == Replay(Replay(None, a), b)
  {
    ReplayIsPerPlayer(map[], [a, b], a.player);
    assert [a, b] == [a] + [b] && [a] == [] + [a];
    OfAppend([a], b, a.player);
    OfAppend([], a, a.player);
    FoldAppend(None, [a], b);
    FoldAppend(None, [], a);
  }

  function ClearedTags(): seq<Step> {
    [Receive(Save(ALICE, "gw-1", map["match_id" := "m"])), Receive(Save(ALICE, "gw-1", map[]))]
  }

  // A save without tags clears them in memory, and recovery puts them back.
  lemma ClearedTagsComeBack()
    ensures ValidRun(Start(1000), ClearedTags())
    ensures var w := End(Start(1000), ClearedTags());
            && Lookup(w.live, ALICE) == Some(Session("gw-1", map[], 0))
            && Lookup(Recovered(w.disk), ALICE) == Some(Session("gw-1", map["match_id" := "m"], 0))
  {
    var st := ClearedTags();
    var w0 := Start(1000);
    var w1 := Next(w0, st[0]);
    var w2 := Next(w1, st[1]);
    assert st[1..][1..] == [];
    assert ValidRun(w2, st[1..][1..]);
    assert ValidRun(w1, st[1..]);
    assert w2 == End(w0, st);
    ReplayTwo(st[0].e, st[1].e);
    assert Journal(w2.disk) == [st[0].e, st[1].e];
  }

  // ---- two minutes ----

  // A player saved and disconnected at t, and a visit of the scanner at `visit`.
  function Absence(t: int, tags: Tags, visit: int): seq<Step> {
    [Receive(Save(ALICE, "gw-1", tags)), Receive(Disconnect(ALICE, "gw-1", map[], t)), Tick(visit), Expire(ALICE, visit)]
  }

  lemma AbsenceRun(t: int, tags: Tags, visit: int)
    requires 0 < t <= visit
    ensures ValidRun(Start(t), Absence(t, tags, visit))
    ensures var w := End(Start(t), Absence(t, tags, visit));
            w.phase == Idle && Lookup(w.live, ALICE) == if visit < t + 120 then Some(Session("gw-1", tags, t)) else None
  {
    var st := Absence(t, tags, visit);
    var w1 := Next(Start(t), st[0]);
    var w2 := Next(w1, st[1]);
    var w3 := Next(w2, st[2]);
    FourSteps(Start(t), st[0], st[1], st[2], st[3]);
  }

  lemma FourSteps(w: World, a: Step, b: Step, c: Step, d: Step)
    requires Enabled(w, a) && Enabled(Next(w, a), b) && Enabled(Next(Next(w, a), b), c)
    requires Enabled(Next(Next(Next(w, a), b), c), d)
    ensures ValidRun(w, [a, b, c, d]) && End(w, [a, b, c, d]) == Next(Next(Next(Next(w, a), b), c), d)
  {
    hide Next, Enabled;
    var w1 := Next(w, a);
    var w2 := Next(w1, b);
    var w3 := Next(w2, c);
    var w4 := Next(w3, d);
    assert [d][1..] == [] && ValidRun(w4, []) && End(w4, []) == w4;
    assert [c, d][1..] == [d] && ValidRun(w3, [d]) && End(w3, [d]) == w4;
    assert [b, c, d][1..] == [c, d] && ValidRun(w2, [c, d]) && End(w2, [c, d]) == w4;
    assert [a, b, c, d][1..] == [b, c, d] && ValidRun(w1, [b, c, d]) && End(w1, [b, c, d]) == w4;
  }

  // A player who comes back 119 seconds after the mark finds the session with its tags,
  // although the scanner has been there.
  lemma ReturnInTime(t: int, tags: Tags)
    requires t > 0
    ensures ValidRun(Start(t), Absence(t, tags, t + 119))
    ensures var w := End(Start(t), Absence(t, tags, t + 119));
            && Enabled(w, Receive(Reconnect(ALICE, "gw-2", map[])))
            && Lookup(Next(w, Receive(Reconnect(ALICE, "gw-2", map[]))).live, ALICE) == Some(Session("gw-2", tags, 0))
  {
    AbsenceRun(t, tags, t + 119);
  }

  // A second later the session is gone, and the reconnect changes nothing.
  lemma ReturnTooLate(t: int, tags: Tags)
    requires t > 0
    ensures ValidRun(Start(t), Absence(t, tags, t + 120))
    ensures var w := End(Start(t), Absence(t, tags, t + 120));
            && ALICE !in w.live
            && Enabled(w, Receive(Reconnect(ALICE, "gw-2", map[])))
            && Next(w, Receive(Reconnect(ALICE, "gw-2", map[]))) == w
  {
    AbsenceRun(t, tags, t + 120);
    RejectedChangesNothing(End(Start(t), Absence(t, tags, t + 120)).live, Reconnect(ALICE, "gw-2", map[]));
  }

  // ---- a snapshot that nothing interrupts ----

  const WHOLE_SNAPSHOT: seq<Step> := [Capture, WriteTmp, Rename, RemoveJournal, CreateJournal]

  // It leaves exactly the live table on disk, whatever was there before: recovery after
  // it mends every difference listed above.
  lemma WholeSnapshotIsExact(w: World)
    requires w.phase == Idle
    ensures ValidRun(w, WHOLE_SNAPSHOT)
    ensures var e := End(w, WHOLE_SNAPSHOT);
            && e.live == w.live && e.disk == Disk(Some(w.live), None, Some([])) && Recovered(e.disk) == w.live
  {
    var st := WHOLE_SNAPSHOT;
    var w1 := Next(w, Capture);
    var w2 := Next(w1, WriteTmp);
    var w3 := Next(w2, Rename);
    var w4 := Next(w3, RemoveJournal);
    var w5 := Next(w4, CreateJournal);
    assert st[1..][1..][1..][1..][1..] == [];
    assert ValidRun(w5, st[1..][1..][1..][1..][1..]);
    assert ValidRun(w4, st[1..][1..][1..][1..]);
    assert ValidRun(w3, st[1..][1..][1..]);
    assert ValidRun(w2, st[1..][1..]);
    assert ValidRun(w1, st[1..]);
    assert w5 == End(w, st);
  }
}
