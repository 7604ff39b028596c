/**
 The exchange that follows a client's connection to gateway g, when no other message
 about the player is under way: what it does to the session and to the connection, in
 whatever order its messages are delivered, and whenever the connections it makes stale
 come to a stop.
 */
module Handshake {
  import opened Wrappers
  import opened Sessions
  import opened Gateways
  import opened Protocol

  // Disconnects from other gateways, and the news that another gateway was left.
  predicate Noise(m: Msg, g: string) {
    if m.ToServer? then m.from != g && m.up == MarkDown else m.down.Left? && m.down.gateway != g
  }

  ghost predicate AllNoise(net: seq<Msg>, g: string) {
    forall j | 0 <= j < |net| :: Noise(net[j], g)
  }

  ghost predicate NoiseBut(net: seq<Msg>, i: nat, g: string) {
    forall j | 0 <= j < |net| && j != i :: Noise(net[j], g)
  }

  predicate Marked(o: Option<Session>) {
    o.Some? && o.value.disconnectedAt != 0
  }

  predicate AttachedTo(o: Option<Session>, g: string) {
    o.Some? && o.value.gatewayId == g
  }

  // The tags the exchange puts on the new connection.
  function Restored(o: Option<Session>): Tags {
    if Marked(o) then o.value.connTags else map[]
  }

  const DONE: nat := 5

  // The exchange's own message at each of its stages; none at the last. `o` is the
  // session as it was when the client connected. Stages 2 and 3 are for a marked one.
  function Core(stage: nat, g: string, o: Option<Session>): Msg {
    if stage == 0 then ToServer(g, Get)
    else if stage == 1 then ToGateway(g, Answer(if o.Some? then o.value else FRESH))
    else if stage == 2 then ToServer(g, Recon)
    else if stage == 3 then ToGateway(g, Answer(Session(g, Restored(o), 0)))
    else ToServer(g, SaveTags(Collect(Restored(o))))
  }

  function After(stage: nat, o: Option<Session>): nat {
    if stage == 1 && !Marked(o) then 4 else stage + 1
  }

  function SessionAt(stage: nat, g: string, o: Option<Session>): Option<Session> {
    if stage >= DONE then Some(Session(g, Collect(Restored(o)), 0))
    else if stage >= 3 && Marked(o) then Some(Session(g, Restored(o), 0))
    else o
  }

  // The network at a stage: the exchange's message, and noise around it once the session
  // is with g.
  ghost predicate Net(net: seq<Msg>, stage: nat, g: string, o: Option<Session>) {
    && (if stage < DONE then exists i | 0 <= i < |net| :: net[i] == Core(stage, g, o) && NoiseBut(net, i, g)
        else AllNoise(net, g))
    && (!AttachedTo(SessionAt(stage, g, o), g) ==> |net| == 1)
  }

  ghost predicate GatewayAt(gw: Gw, stage: nat, c: nat, o: Option<Session>) {
    && gw.current == Some(c) && c in gw.props
    && gw.props[c] == (if stage <= 1 then map[] else Restored(o))
    && (gw.queued ==> gw.released || (stage <= 1 && gw.waiting))
  }

  ghost predicate At(w: World, stage: nat, g: string, c: nat, o: Option<Session>) {
    && WellFormed(w) && g in w.gws && stage <= DONE && (2 <= stage <= 3 ==> Marked(o))
    && w.session == SessionAt(stage, g, o)
    && GatewayAt(w.gws[g], stage, c, o)
    && Net(w.net, stage, g, o)
  }

  // ---- one step ----

  // What may happen while the exchange runs: its messages are delivered, with SessionSvr
  // reachable for the answers; a CheckReconnect goes on; and, once the session is with g,
  // connections of other gateways stop and their disconnects are retried.
  predicate Admitted(w: World, st: Step, g: string) {
    match st
    case Delivers(i, _, up) => i < |w.net| && (up || !(w.net[i].ToGateway? && w.net[i].down.Answer?))
    case ClientDrops(h, _, _) => h != g && AttachedTo(w.session, g)
    case Retries(h, _) => h != g && AttachedTo(w.session, g)
    case Proceeds(_) => true
    case _ => false
  }

  lemma OnlyCoreLeft(net: seq<Msg>, i: nat, g: string)
    requires i < |net| && NoiseBut(net, i, g)
    ensures AllNoise(Without(net, i), g)
  {
  }

  lemma NetOf(rest: seq<Msg>, stage: nat, more: seq<Msg>, g: string, o: Option<Session>)
    requires AllNoise(rest, g) && AllNoise(more, g) && stage < DONE
    requires !AttachedTo(SessionAt(stage, g, o), g) ==> rest == [] && more == []
    ensures Net(rest + ([Core(stage, g, o)] + more), stage, g, o)
  {
    var net := rest + ([Core(stage, g, o)] + more);
    assert net[|rest|] == Core(stage, g, o);
    forall j | 0 <= j < |net| && j != |rest| ensures Noise(net[j], g) {
      assert net[j] == if j < |rest| then rest[j] else more[j - |rest| - 1];
    }
    assert NoiseBut(net, |rest|, g);
  }

  // What delivering the exchange's own message sends: the next one, and from stage 2 the
  // invalidations of the gateway that was left.
  function More(w: World, stage: nat, g: string, o: Option<Session>): seq<Msg> {
    if stage == 2 && o.Some? && o.value.gatewayId != "" && o.value.gatewayId != g
    then Invalidations(w.ids, o.value.gatewayId) else []
  }

  lemma CoreDelivery(w: World, stage: nat, g: string, c: nat, o: Option<Session>, i: nat, now: int)
    requires At(w, stage, g, c, o) && stage < DONE && i < |w.net| && now > 0
    requires w.net[i] == Core(stage, g, o)
    ensures var w' := Deliver(w, i, now, true);
            && w'.session == SessionAt(After(stage, o), g, o)
            && GatewayAt(w'.gws[g], After(stage, o), c, o)
            && w'.net == Without(w.net, i)
                         + (if stage == 4 then [] else [Core(After(stage, o), g, o)] + More(w, stage, g, o))
  {
    hide Net, Collect, Invalidations;
    assert map[] + Restored(o) == Restored(o);
    EmptyCollects();
  }

  lemma EmptyCollects()
    ensures Collect(map[]) == map[]
  {
  }

  lemma AnsweredUpIsIrrelevant(w: World, i: nat, now: int, up: bool, up': bool)
    requires WellFormed(w) && i < |w.net| && !(w.net[i].ToGateway? && w.net[i].down.Answer?)
    ensures Deliver(w, i, now, up) == Deliver(w, i, now, up')
  {
  }

  lemma CoreMovesOn(w: World, stage: nat, g: string, c: nat, o: Option<Session>, i: nat, now: int)
    requires At(w, stage, g, c, o) && stage < DONE && i < |w.net| && now > 0
    requires w.net[i] == Core(stage, g, o)
    ensures At(Deliver(w, i, now, true), After(stage, o), g, c, o)
  {
    hide Deliver, GatewayAt, Collect;
    StepKeepsWellFormed(w, Delivers(i, now, true));
    CoreDelivery(w, stage, g, c, o, i, now);
    CoreIsAlone(w.net, stage, g, o, i);
    var rest := Without(w.net, i);
    if stage == 4 {
      assert rest + [] == rest;
    } else {
      NetOf(rest, After(stage, o), More(w, stage, g, o), g, o);
    }
  }

  lemma CoreIsAlone(net: seq<Msg>, stage: nat, g: string, o: Option<Session>, i: nat)
    requires Net(net, stage, g, o) && stage < DONE && i < |net| && net[i] == Core(stage, g, o)
    ensures AllNoise(Without(net, i), g)
    ensures !AttachedTo(SessionAt(stage, g, o), g) ==> Without(net, i) == []
  {
    var k :| 0 <= k < |net| && net[k] == Core(stage, g, o) && NoiseBut(net, k, g);
    assert k != i ==> Noise(net[i], g);
    OnlyCoreLeft(net, i, g);
  }

  lemma CoreOrNoise(net: seq<Msg>, stage: nat, g: string, o: Option<Session>, i: nat)
    requires Net(net, stage, g, o) && i < |net|
    ensures if stage < DONE && net[i] == Core(stage, g, o) then !Noise(net[i], g)
            else Noise(net[i], g) && AttachedTo(SessionAt(stage, g, o), g) && Net(Without(net, i), stage, g, o)
  {
    if stage < DONE {
      var k :| 0 <= k < |net| && net[k] == Core(stage, g, o) && NoiseBut(net, k, g);
      if k != i {
        var rest, k' := Without(net, i), if k < i then k else k - 1;
        assert rest[k'] == Core(stage, g, o) && NoiseBut(rest, k', g);
      }
    }
  }

  // The invalidation and the stale disconnects it causes change neither the session nor
  // gateway g, and send nothing.
  lemma NoiseIsInert(w: World, g: string, i: nat, now: int, up: bool)
    requires WellFormed(w) && g in w.gws && i < |w.net|
    requires Noise(w.net[i], g) && AttachedTo(w.session, g)
    ensures var w' := Deliver(w, i, now, up);
            w'.session == w.session && w'.net == Without(w.net, i) && g in w'.gws && w'.gws[g] == w.gws[g]
  {
    var rest := Without(w.net, i);
    assert rest + [] == rest;
    assert w.net[i].ToGateway? ==> Post(w.net[i].to, []) == [];
  }

  lemma NoiseAdded(net: seq<Msg>, m: Msg, stage: nat, g: string, o: Option<Session>)
    requires Net(net, stage, g, o) && Noise(m, g) && AttachedTo(SessionAt(stage, g, o), g)
    ensures Net(net + [m], stage, g, o)
  {
    var net' := net + [m];
    if stage < DONE {
      var k :| 0 <= k < |net| && net[k] == Core(stage, g, o) && NoiseBut(net, k, g);
      assert net'[k] == Core(stage, g, o) && NoiseBut(net', k, g);
    }
  }

  // Connections elsewhere that stop, disconnects elsewhere that are retried, and a
  // CheckReconnect that goes on leave the exchange where it is.
  lemma SideStep(w: World, st: Step, stage: nat, g: string, c: nat, o: Option<Session>)
    requires At(w, stage, g, c, o) && Enabled(w, st) && Admitted(w, st, g) && !st.Delivers?
    ensures At(Next(w, st), stage, g, c, o)
  {
    hide Net, Collect, SessionAt;
    StepKeepsWellFormed(w, st);
    var w' := Next(w, st);
    if !st.Proceeds? && w'.net != w.net {
      var m := ToServer(st.g, MarkDown);
      assert w'.net == w.net + [m];
      NoiseAdded(w.net, m, stage, g, o);
    }
  }

  lemma DeliveryMovesOn(w: World, st: Step, stage: nat, g: string, c: nat, o: Option<Session>) returns (stage': nat)
    requires At(w, stage, g, c, o) && Enabled(w, st) && Admitted(w, st, g) && st.Delivers?
    ensures At(Next(w, st), stage', g, c, o)
    ensures stage' == if stage < DONE && w.net[st.i] == Core(stage, g, o) then After(stage, o) else stage
  {
    hide Deliver, Net, GatewayAt, Collect, SessionAt, Core;
    CoreOrNoise(w.net, stage, g, o, st.i);
    if stage < DONE && w.net[st.i] == Core(stage, g, o) {
      if !st.up {
        AnsweredUpIsIrrelevant(w, st.i, st.now, st.up, true);
      }
      CoreMovesOn(w, stage, g, c, o, st.i, st.now);
      stage' := After(stage, o);
    } else {
      StepKeepsWellFormed(w, st);
      NoiseIsInert(w, g, st.i, st.now, st.up);
      stage' := stage;
    }
  }

  // ---- whole runs ----

  predicate AdmittedRun(w: World, steps: seq<Step>, g: string)
    requires WellFormed(w) && ValidRun(w, steps)
    decreases |steps|
  {
    steps != [] ==>
      && Admitted(w, steps[0], g)
      && (StepKeepsWellFormed(w, steps[0]); AdmittedRun(Next(w, steps[0]), steps[1..], g))
  }

  predicate Takes(w: World, st: Step, m: Msg) {
    st.Delivers? && st.i < |w.net| && w.net[st.i] == m
  }

  predicate TakesSave(w: World, st: Step, g: string) {
    st.Delivers? && st.i < |w.net| && w.net[st.i].ToServer? && w.net[st.i].from == g && w.net[st.i].up.SaveTags?
  }

  // How many reconnects, and how many saves, SessionSvr gets from g in a run.
  function Recons(w: World, steps: seq<Step>, g: string): nat
    requires WellFormed(w) && ValidRun(w, steps)
    decreases |steps|
  {
    if steps == [] then 0
    else
      StepKeepsWellFormed(w, steps[0]);
      (if Takes(w, steps[0], ToServer(g, Recon)) then 1 else 0) + Recons(Next(w, steps[0]), steps[1..], g)
  }

  function Saves(w: World, steps: seq<Step>, g: string): nat
    requires WellFormed(w) && ValidRun(w, steps)
    decreases |steps|
  {
    if steps == [] then 0
    else
      StepKeepsWellFormed(w, steps[0]);
      (if TakesSave(w, steps[0], g) then 1 else 0) + Saves(Next(w, steps[0]), steps[1..], g)
  }

  lemma StepMovesOn(w: World, st: Step, stage: nat, g: string, c: nat, o: Option<Session>) returns (stage': nat)
    requires At(w, stage, g, c, o) && Enabled(w, st) && Admitted(w, st, g)
    ensures At(Next(w, st), stage', g, c, o) && stage <= stage'
    ensures Takes(w, st, ToServer(g, Recon)) <==> Marked(o) && stage <= 2 < stage'
    ensures TakesSave(w, st, g) <==> stage <= 4 < stage'
  {
    hide Next, Net, GatewayAt, SessionAt, Collect;
    if st.Delivers? {
      stage' := DeliveryMovesOn(w, st, stage, g, c, o);
      CoreOrNoise(w.net, stage, g, o, st.i);
    } else {
      SideStep(w, st, stage, g, c, o);
      stage' := stage;
    }
  }

  lemma {:induction false} RunMovesOn(w: World, stage: nat, g: string, c: nat, o: Option<Session>, steps: seq<Step>)
    returns (stage': nat)
    requires At(w, stage, g, c, o) && ValidRun(w, steps) && AdmittedRun(w, steps, g)
    ensures At(End(w, steps), stage', g, c, o) && stage <= stage'
    ensures Recons(w, steps, g) == if Marked(o) && stage <= 2 < stage' then 1 else 0
    ensures Saves(w, steps, g) == if stage <= 4 < stage' then 1 else 0
    decreases |steps|
  {
    hide Next, Net, GatewayAt, SessionAt, Takes, TakesSave, Admitted;
    if steps == [] {
      stage' := stage;
    } else {
      var mid := StepMovesOn(w, steps[0], stage, g, c, o);
      stage' := RunMovesOn(Next(w, steps[0]), mid, g, c, o, steps[1..]);
    }
  }

  // No message about the player is under way.
  ghost predicate Quiet(w: World, g: string, c: nat) {
    WellFormed(w) && g in w.gws && c !in w.gws[g].props && w.net == []
  }

  // A run in which client c connects to g, SessionSvr being reachable, and what follows
  // goes on until no message is left.
  ghost predicate Completed(w: World, g: string, c: nat, steps: seq<Step>) {
    && Quiet(w, g, c)
    && var st := ClientConnects(g, c, true);
       StepKeepsWellFormed(w, st);
       var w1 := Next(w, st);
       ValidRun(w1, steps) && AdmittedRun(w1, steps, g) && End(w1, steps).net == []
  }

  // The world the exchange starts from.
  function Connected(w: World, g: string, c: nat): (w1: World)
    requires WellFormed(w) && g in w.gws && c !in w.gws[g].props
    ensures WellFormed(w1)
  {
    StepKeepsWellFormed(w, ClientConnects(g, c, true));
    Next(w, ClientConnects(g, c, true))
  }

  lemma ConnectStarts(w: World, g: string, c: nat)
    requires Quiet(w, g, c)
    ensures At(Connected(w, g, c), 0, g, c, w.session)
  {
    var w1 := Connected(w, g, c);
    assert w1.net == [Core(0, g, w.session)];
    assert w1.net[0] == Core(0, g, w.session) && NoiseBut(w1.net, 0, g);
  }

  // In every such run the exchange sends one save, and one reconnect if and only if the
  // session was marked disconnected. It ends with the player attached to g, the tags of a
  // marked session on the connection and the synced ones of them in the session, and a
  // disconnect in g's retry queue only until CheckReconnect goes on.
  lemma HandshakeOutcome(w: World, g: string, c: nat, steps: seq<Step>)
    requires Completed(w, g, c, steps)
    ensures var w1 := Connected(w, g, c);
            var e := End(w1, steps);
            && e.session == Some(Session(g, Collect(Restored(w.session)), 0))
            && g in e.gws && c in e.gws[g].props && e.gws[g].props[c] == Restored(w.session)
            && e.gws[g].current == Some(c) && (e.gws[g].queued ==> e.gws[g].released)
            && Saves(w1, steps, g) == 1 && Recons(w1, steps, g) == if Marked(w.session) then 1 else 0
  {
    hide Collect;
    ConnectStarts(w, g, c);
    var stage := RunMovesOn(Connected(w, g, c), 0, g, c, w.session, steps);
    assert stage == DONE;
  }

  // The player was marked disconnected with tags that are synced: all of them are back on
  // the connection and in the session.
  lemma ReconnectRestores(w: World, g: string, c: nat, s: Session, steps: seq<Step>)
    requires Completed(w, g, c, steps)
    requires w.session == Some(s) && s.disconnectedAt != 0
    ensures var e := End(Connected(w, g, c), steps);
            && g in e.gws && c in e.gws[g].props && e.gws[g].props[c] == s.connTags
            && e.session == Some(Session(g, Collect(s.connTags), 0))
            && (Syncable(s.connTags) ==> e.session == Some(Session(g, s.connTags, 0)))
  {
    HandshakeOutcome(w, g, c, steps);
    CollectIsSyncable(s.connTags);
  }

  // Without a disconnect mark the new, still tagless connection overwrites the session.
  lemma ConnectOverwrites(w: World, g: string, c: nat, steps: seq<Step>)
    requires Completed(w, g, c, steps)
    requires w.session.Some? ==> w.session.value.disconnectedAt == 0
    ensures End(Connected(w, g, c), steps).session == Some(Session(g, map[], 0))
  {
    HandshakeOutcome(w, g, c, steps);
  }

  // So a session's tags survive a connection if and only if the session was marked
  // disconnected when the gateway asked and all its tags are synced ones, or there were
  // none to lose.
  lemma TagsSurviveIff(w: World, g: string, c: nat, s: Session, steps: seq<Step>)
    requires Completed(w, g, c, steps) && w.session == Some(s)
    ensures var e := End(Connected(w, g, c), steps);
            && e.session.Some? && e.session.value.gatewayId == g && e.session.value.disconnectedAt == 0
            && (e.session.value.connTags == s.connTags
                <==> (s.disconnectedAt != 0 && Syncable(s.connTags)) || s.connTags == map[])
  {
    HandshakeOutcome(w, g, c, steps);
    CollectIsSyncable(Restored(w.session));
  }

  // ---- the condition on tags holds by itself ----

  ghost predicate SyncableEverywhere(w: World) {
    && (w.session.Some? ==> Syncable(w.session.value.connTags))
    && (forall i | 0 <= i < |w.net| :: w.net[i].ToServer? && w.net[i].up.SaveTags? ==> Syncable(w.net[i].up.tags))
  }

  lemma PostedKeepSyncable(w: World, g: string, r: Result)
    requires SyncableEverywhere(w)
    requires forall u | u in r.sent :: u.SaveTags? ==> Syncable(u.tags)
    ensures SyncableEverywhere(AtGateway(w, g, r))
  {
  }

  lemma TakingKeepsSyncable(w: World, i: nat)
    requires SyncableEverywhere(w) && i < |w.net|
    ensures SyncableEverywhere(w.(net := Without(w.net, i)))
  {
  }

  lemma DeliveryKeepsSyncable(w: World, i: nat, now: int, up: bool)
    requires WellFormed(w) && SyncableEverywhere(w) && i < |w.net|
    ensures SyncableEverywhere(Deliver(w, i, now, up))
  {
    hide Syncable, Collect;
    TakingKeepsSyncable(w, i);
    var taken := w.(net := Without(w.net, i));
    match w.net[i]
    case ToServer(g, u) => NothingIsEmpty();
    case ToGateway(g, Answer(s)) =>
      var gw := w.gws[g];
      if gw.current.Some? && gw.current.value in gw.props {
        CollectIsSyncable(gw.props[gw.current.value]);
      }
      PostedKeepSyncable(taken, g, Reply(gw, s, up));
    case ToGateway(g, Left(left)) => PostedKeepSyncable(taken, g, Result(Forget(w.gws[g], g, left), []));
  }

  lemma NothingIsEmpty()
    ensures Syncable(map[])
  {
  }

  lemma StepKeepsSyncable(w: World, st: Step)
    requires WellFormed(w) && Enabled(w, st) && SyncableEverywhere(w)
    ensures SyncableEverywhere(Next(w, st))
  {
    hide Syncable, Collect, Deliver, SyncableEverywhere;
    match st
    case ClientConnects(g, c, up) => PostedKeepSyncable(w, g, Connect(w.gws[g], c, up));
    case ClientDrops(g, c, up) => PostedKeepSyncable(w, g, Stop(w.gws[g], c, up));
    case TagsArrive(g, c, tags, up) =>
      CollectIsSyncable(w.gws[g].props[c] + tags);
      PostedKeepSyncable(w, g, ApplyTags(w.gws[g], c, tags, up));
    case Retries(g, up) => PostedKeepSyncable(w, g, Retry(w.gws[g], up));
    case Proceeds(_) => SessionOrGatewayKeepsSyncable(w, Next(w, st));
    case GivesUp(g) => SessionOrGatewayKeepsSyncable(w, Next(w, st));
    case Expires(_) => SessionOrGatewayKeepsSyncable(w, Next(w, st));
    case Delivers(i, now, up) => DeliveryKeepsSyncable(w, i, now, up);
  }

  lemma SessionOrGatewayKeepsSyncable(w: World, w': World)
    requires SyncableEverywhere(w) && w'.net == w.net && (w'.session == w.session || w'.session == None)
    ensures SyncableEverywhere(w')
  {
  }

  // Every session any run arrives at holds only synced keys with non-empty values.
  lemma {:induction false} SessionTagsAreSyncable(w: World, steps: seq<Step>)
    requires WellFormed(w) && ValidRun(w, steps) && SyncableEverywhere(w)
    ensures SyncableEverywhere(End(w, steps))
    decreases |steps|
  {
    if steps != [] {
      StepKeepsSyncable(w, steps[0]);
      StepKeepsWellFormed(w, steps[0]);
      SessionTagsAreSyncable(Next(w, steps[0]), steps[1..]);
    }
  }
}
