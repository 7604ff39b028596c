/**
 The gateway protocol over SessionSvr's disk: the messages that SessionSvr processes in
 a protocol run are a run of the machine with journal and snapshots, so what is known of
 one holds of the other.
 */
module Persisted {
  import opened Wrappers
  import opened Sessions
  import opened ReplayFacts
  import opened Gateways
  import P = Protocol
  import R = Recovery
  import H = Handshake

  // What SessionSvr does in one step of the protocol.
  function Served(w: P.World, st: P.Step): seq<R.Step>
    requires P.WellFormed(w) && P.Enabled(w, st)
  {
    match st
    case Delivers(i, now, _) =>
      if w.net[i].ToServer? && !w.net[i].up.Get?
      then [R.Tick(now), R.Receive(P.EntryOf(w.net[i].from, w.net[i].up, now))] else []
    case Expires(now) => [R.Tick(now), R.Expire(P.PLAYER, now)]
    case _ => []
  }

  function ServedRun(w: P.World, steps: seq<P.Step>): seq<R.Step>
    requires P.WellFormed(w) && P.ValidRun(w, steps)
    decreases |steps|
  {
    if steps == [] then []
    else
      P.StepKeepsWellFormed(w, steps[0]);
      Served(w, steps[0]) + ServedRun(P.Next(w, steps[0]), steps[1..])
  }

  // SessionSvr's clock does not go back.
  predicate Timed(steps: seq<P.Step>, clock: int)
    decreases |steps|
  {
    steps != [] ==>
      if steps[0].Delivers? || steps[0].Expires?
      then clock <= steps[0].now && Timed(steps[1..], steps[0].now)
      else Timed(steps[1..], clock)
  }

  // The disk machine is at the protocol's session, and no snapshot is being taken.
  predicate Follows(r: R.World, w: P.World) {
    r.phase == R.Idle && Lookup(r.live, P.PLAYER) == w.session
  }

  // ---- runs one after the other ----

  lemma {:induction false} RunConcat(r: R.World, a: seq<R.Step>, b: seq<R.Step>, p: PlayerId)
    requires R.ValidRun(r, a) && R.ValidRun(R.End(r, a), b)
    ensures R.ValidRun(r, a + b) && R.End(r, a + b) == R.End(R.End(r, a), b)
    ensures R.CarefulRun(r, a, p) && R.CarefulRun(R.End(r, a), b, p) ==> R.CarefulRun(r, a + b, p)
    ensures R.TagCarefulRun(r, a, p) && R.TagCarefulRun(R.End(r, a), b, p) ==> R.TagCarefulRun(r, a + b, p)
    decreases |a|
  {
    hide R.Next, R.Careful, R.TagCareful, R.Enabled;
    if a == [] {
      assert a + b == b;
    } else {
      assert (a + b)[1..] == a[1..] + b;
      RunConcat(R.Next(r, a[0]), a[1..], b, p);
    }
  }

  lemma TwoSteps(r: R.World, a: R.Step, b: R.Step, p: PlayerId)
    requires R.Enabled(r, a) && R.Enabled(R.Next(r, a), b)
    ensures R.ValidRun(r, [a, b]) && R.End(r, [a, b]) == R.Next(R.Next(r, a), b)
    ensures R.Careful(r, a, p) && R.Careful(R.Next(r, a), b, p) ==> R.CarefulRun(r, [a, b], p)
    ensures R.TagCareful(r, a, p) && R.TagCareful(R.Next(r, a), b, p) ==> R.TagCarefulRun(r, [a, b], p)
  {
    hide R.Next, R.Careful, R.TagCareful, R.Enabled;
    var r1 := R.Next(r, a);
    assert [a, b][1..] == [b] && [b][1..] == [];
    assert R.ValidRun(r1, [b]);
    assert R.End(r1, [b]) == R.Next(r1, b);
    assert R.Careful(r1, b, p) ==> R.CarefulRun(r1, [b], p);
    assert R.TagCareful(r1, b, p) ==> R.TagCarefulRun(r1, [b], p);
  }

  // ---- the disk machine follows the protocol ----

  lemma ReceiveFollows(r: R.World, e: Entry)
    requires r.phase == R.Idle && R.Enabled(r, R.Receive(e))
    ensures var r' := R.Next(r, R.Receive(e));
            && r'.phase == R.Idle && r'.clock == r.clock
            && Lookup(r'.live, e.player) == Live(Lookup(r.live, e.player), e)
  {
    hide Live, Handle;
    R.HandleOwn(r.live, e);
  }

  lemma StepFollows(w: P.World, st: P.Step, r: R.World)
    requires P.WellFormed(w) && P.Enabled(w, st) && Follows(r, w) && Timed([st], r.clock)
    ensures var served := Served(w, st);
            && R.ValidRun(r, served)
            && Follows(R.End(r, served), P.Next(w, st))
            && R.End(r, served).clock == if served == [] then r.clock else st.now
  {
    hide Live, Handle;
    if Served(w, st) != [] {
      var r1 := R.Next(r, R.Tick(st.now));
      if st.Delivers? {
        var e := P.EntryOf(w.net[st.i].from, w.net[st.i].up, st.now);
        ReceiveFollows(r1, e);
        TwoSteps(r, R.Tick(st.now), R.Receive(e), P.PLAYER);
      } else {
        TwoSteps(r, R.Tick(st.now), R.Expire(P.PLAYER, st.now), P.PLAYER);
      }
    } else if st.Delivers? {
      DeliveryToGateway(w, st);
    }
  }

  lemma DeliveryToGateway(w: P.World, st: P.Step)
    requires P.WellFormed(w) && P.Enabled(w, st) && st.Delivers? && Served(w, st) == []
    ensures P.Next(w, st).session == w.session
  {
  }

  // Whatever the gateways and the network do, the served steps are a run of the disk
  // machine, and they leave it at the protocol's session.
  lemma {:induction false} DiskFollowsProtocol(w: P.World, steps: seq<P.Step>, r: R.World)
    requires P.WellFormed(w) && P.ValidRun(w, steps) && Follows(r, w) && Timed(steps, r.clock)
    ensures R.ValidRun(r, ServedRun(w, steps))
    ensures Follows(R.End(r, ServedRun(w, steps)), P.End(w, steps))
    decreases |steps|
  {
    hide P.Next, R.Next, Served, Follows;
    if steps != [] {
      var st := steps[0];
      TimedFirst(steps, r.clock);
      P.StepKeepsWellFormed(w, st);
      StepFollows(w, st, r);
      var r1 := R.End(r, Served(w, st));
      TimedRest(w, steps, r.clock, r1.clock);
      DiskFollowsProtocol(P.Next(w, st), steps[1..], r1);
      RunConcat(r, Served(w, st), ServedRun(P.Next(w, st), steps[1..]), P.PLAYER);
    }
  }

  lemma TimedFirst(steps: seq<P.Step>, clock: int)
    requires steps != [] && Timed(steps, clock)
    ensures Timed([steps[0]], clock)
  {
    assert [steps[0]][1..] == [];
  }

  lemma TimedRest(w: P.World, steps: seq<P.Step>, clock: int, clock': int)
    requires steps != [] && Timed(steps, clock)
    requires P.WellFormed(w) && P.Enabled(w, steps[0])
    requires clock' == if Served(w, steps[0]) == [] then clock else steps[0].now
    ensures Timed(steps[1..], clock')
  {
    if Served(w, steps[0]) == [] && (steps[0].Delivers? || steps[0].Expires?) {
      TimedEarlier(steps[1..], clock, steps[0].now);
    }
  }

  lemma {:induction false} TimedEarlier(steps: seq<P.Step>, earlier: int, clock: int)
    requires Timed(steps, clock) && earlier <= clock
    ensures Timed(steps, earlier)
    decreases |steps|
  {
    if steps != [] && !(steps[0].Delivers? || steps[0].Expires?) {
      TimedEarlier(steps[1..], earlier, clock);
    }
  }

  // So a crash at any point of a protocol run recovers what the protocol holds, if the
  // run was careful with the player.
  lemma ProtocolSurvivesCrash(
    w: P.World, steps: seq<P.Step>, r: R.World, clock: int, before: seq<R.Step>)
    requires P.WellFormed(w) && P.ValidRun(w, steps) && Follows(r, w) && Timed(steps, r.clock)
    requires R.Reached(r, clock, before, P.PLAYER)
    requires R.ValidRun(r, ServedRun(w, steps)) && R.CarefulRun(r, ServedRun(w, steps), P.PLAYER)
    ensures var r' := R.End(r, ServedRun(w, steps));
            Agree(P.End(w, steps).session, Lookup(R.Recovered(r'.disk), P.PLAYER), r'.clock)
  {
    DiskFollowsProtocol(w, steps, r);
    RunConcat(R.Start(clock), before, ServedRun(w, steps), P.PLAYER);
    R.CrashRecovery(R.End(r, ServedRun(w, steps)), clock, before + ServedRun(w, steps), P.PLAYER);
  }

  // ---- a handshake clears no tags that are on disk ----

  // What the exchange is yet to save is not empty, or there are no tags on disk.
  predicate SaveIsCareful(r: R.World, stage: nat, o: Option<Session>) {
    stage < H.DONE && Collect(H.Restored(o)) == map[] ==> R.NoTagsOnDisk(r, P.PLAYER)
  }

  lemma TaglessKeepsDisk(r: R.World, e: Entry)
    requires R.Enabled(r, R.Receive(e)) && e.player == P.PLAYER && e.tags == map[] && R.NoTagsOnDisk(r, P.PLAYER)
    ensures R.NoTagsOnDisk(R.Next(r, R.Receive(e)), P.PLAYER)
  {
    hide Handle, Of;
    OfAppend(R.Journal(r.disk), e, P.PLAYER);
    var k := Of(R.Journal(r.disk), P.PLAYER);
    assert (k + [e])[..|k|] == k;
    NoTagsFront(k + [e]);
  }

  // The entry SessionSvr gets in a step of the exchange, and that it does no harm.
  lemma StepIsCareful(w: P.World, st: P.Step, stage: nat, stage': nat, g: string, c: nat, o: Option<Session>, r: R.World)
    requires H.At(w, stage, g, c, o) && P.Enabled(w, st) && H.Admitted(w, st, g)
    requires Follows(r, w) && Timed([st], r.clock) && SaveIsCareful(r, stage, o)
    requires stage <= stage' && (H.TakesSave(w, st, g) <==> stage <= 4 < stage')
    ensures R.ValidRun(r, Served(w, st))
    ensures R.CarefulRun(r, Served(w, st), P.PLAYER) && R.TagCarefulRun(r, Served(w, st), P.PLAYER)
    ensures SaveIsCareful(R.End(r, Served(w, st)), stage', o)
  {
    hide H.Net, H.GatewayAt, Handle, R.NoTagsOnDisk, Collect;
    StepFollows(w, st, r);
    if Served(w, st) != [] {
      var i := st.i;
      var e := P.EntryOf(w.net[i].from, w.net[i].up, st.now);
      var r1 := R.Next(r, R.Tick(st.now));
      TickKeepsDisk(r, st.now);
      H.CoreOrNoise(w.net, stage, g, o, i);
      assert e.Disconnect? ==> P.PLAYER in r1.live;
      TwoSteps(r, R.Tick(st.now), R.Receive(e), P.PLAYER);
      if R.NoTagsOnDisk(r1, P.PLAYER) && e.tags == map[] {
        TaglessKeepsDisk(r1, e);
      }
    }
  }

  lemma TickKeepsDisk(r: R.World, now: int)
    requires R.Enabled(r, R.Tick(now))
    ensures R.NoTagsOnDisk(R.Next(r, R.Tick(now)), P.PLAYER) == R.NoTagsOnDisk(r, P.PLAYER)
  {
  }

  lemma {:induction false} RunIsCareful(
    w: P.World, stage: nat, g: string, c: nat, o: Option<Session>, steps: seq<P.Step>, r: R.World)
    requires H.At(w, stage, g, c, o) && P.ValidRun(w, steps) && H.AdmittedRun(w, steps, g)
    requires Follows(r, w) && Timed(steps, r.clock) && SaveIsCareful(r, stage, o)
    ensures var served := ServedRun(w, steps);
            R.ValidRun(r, served) && R.CarefulRun(r, served, P.PLAYER) && R.TagCarefulRun(r, served, P.PLAYER)
    decreases |steps|
  {
    hide P.Next, R.Next, Served, Follows, H.Net, H.GatewayAt, H.SessionAt, H.Admitted, H.Takes, H.TakesSave, SaveIsCareful;
    if steps != [] {
      var st := steps[0];
      TimedFirst(steps, r.clock);
      P.StepKeepsWellFormed(w, st);
      var stage' := H.StepMovesOn(w, st, stage, g, c, o);
      StepFollows(w, st, r);
      StepIsCareful(w, st, stage, stage', g, c, o, r);
      var r1 := R.End(r, Served(w, st));
      TimedRest(w, steps, r.clock, r1.clock);
      RunIsCareful(P.Next(w, st), stage', g, c, o, steps[1..], r1);
      RunConcat(r, Served(w, st), ServedRun(P.Next(w, st), steps[1..]), P.PLAYER);
    }
  }

  // A live session without tags has none on disk.
  lemma TaglessOnDisk(r: R.World, clock: int, before: seq<R.Step>)
    requires R.ReachedWithTags(r, clock, before, P.PLAYER)
    requires P.PLAYER in r.live && r.live[P.PLAYER].connTags == map[]
    ensures R.NoTagsOnDisk(r, P.PLAYER)
  {
    R.ReachedIsGood(r, clock, before, P.PLAYER);
    ReplayClearsNothing(Lookup(R.Base(r.disk), P.PLAYER), R.Share(r, P.PLAYER));
  }

  // A connection whose exchange keeps the session's tags, or that finds no session and no
  // tags on disk, keeps the run free of cleared tags: a new player's first connection, and
  // a return to a session marked disconnected. After it a crash recovers exactly the
  // session that the exchange ends with.
  lemma HandshakeIsPersisted(
    w: P.World, g: string, c: nat, steps: seq<P.Step>, r: R.World, clock: int, before: seq<R.Step>)
    requires H.Completed(w, g, c, steps) && Follows(r, w) && Timed(steps, r.clock)
    requires R.ReachedWithTags(r, clock, before, P.PLAYER)
    requires w.session.None? ==> R.NoTagsOnDisk(r, P.PLAYER)
    requires w.session.Some? ==>
               (w.session.value.disconnectedAt != 0 && Syncable(w.session.value.connTags)) || w.session.value.connTags == map[]
    ensures var served := ServedRun(H.Connected(w, g, c), steps);
            && R.ValidRun(r, served)
            && R.ReachedWithTags(R.End(r, served), clock, before + served, P.PLAYER)
            && Lookup(R.Recovered(R.End(r, served).disk), P.PLAYER) == Some(Session(g, Collect(H.Restored(w.session)), 0))
  {
    hide Collect, Syncable, R.NoTagsOnDisk, R.Recovered, P.Next;
    var w1 := H.Connected(w, g, c);
    H.ConnectStarts(w, g, c);
    CollectIsSyncable(H.Restored(w.session));
    H.EmptyCollects();
    if w.session.Some? && w.session.value.connTags == map[] {
      TaglessOnDisk(r, clock, before);
    }
    RunIsCareful(w1, 0, g, c, w.session, steps, r);
    DiskFollowsProtocol(w1, steps, r);
    var served := ServedRun(w1, steps);
    RunConcat(R.Start(clock), before, served, P.PLAYER);
    H.HandshakeOutcome(w, g, c, steps);
    R.CrashRecoveryOfTags(R.End(r, served), clock, before + served, P.PLAYER);
  }

  // In particular for a player that nobody has heard of.
  lemma FirstConnectionIsPersisted(w: P.World, g: string, c: nat, steps: seq<P.Step>, clock: int)
    requires H.Completed(w, g, c, steps) && w.session.None? && clock > 0 && Timed(steps, clock)
    ensures var r, served := R.Start(clock), ServedRun(H.Connected(w, g, c), steps);
            && R.ValidRun(r, served)
            && R.CarefulRun(r, served, P.PLAYER) && R.TagCarefulRun(r, served, P.PLAYER)
            && Lookup(R.Recovered(R.End(r, served).disk), P.PLAYER) == Some(Session(g, map[], 0))
  {
    var r, served := R.Start(clock), ServedRun(H.Connected(w, g, c), steps);
    HandshakeIsPersisted(w, g, c, steps, r, clock, []);
    assert [] + served == served;
    H.EmptyCollects();
  }
}
