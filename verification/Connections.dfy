/**
 What becomes of a client's connection: it is registered and asked about, its end
 reaches SessionSvr sooner or later, and its tags travel with the player.
 */
module Connections {
  import opened Wrappers
  import opened Sessions
  import opened Gateways
  import opened Protocol
  import H = Handshake

  // ---- one callback ----

  // A gateway that cannot reach SessionSvr sends nothing, and otherwise does the same.
  lemma UnreachableSendsNothing(gw: Gw, c: nat, s: Session, tags: Tags)
    ensures Connect(gw, c, false).sent == [] && Stop(gw, c, false).sent == [] && Retry(gw, false) == Result(gw, [])
    ensures Reply(gw, s, false) == Result(Reply(gw, s, true).gw, [])
    ensures c in gw.props ==> ApplyTags(gw, c, tags, false) == Result(ApplyTags(gw, c, tags, true).gw, [])
  {
  }

  // An answer for a player who has no open connection any more changes nothing but that
  // the waiter is signalled, and sends nothing.
  lemma AnswerWithoutConnection(gw: Gw, s: Session, up: bool)
    requires gw.current.None? || gw.current.value !in gw.props
    ensures Reply(gw, s, up) == Result(gw.(waiting := false, released := gw.released || gw.waiting), [])
  {
  }

  // With a connection: a marked session's tags override those of the connection, key by
  // key, an unmarked one's do not; no other connection changes; and one message goes back,
  // a reconnect for a marked session and otherwise a save of what the connection has.
  lemma AnswerEffect(gw: Gw, s: Session, c: nat, d: nat, k: string)
    requires gw.current == Some(c) && c in gw.props
    ensures var r := Reply(gw, s, true);
            && r.gw.current == Some(c) && r.gw.props.Keys == gw.props.Keys
            && (d in gw.props && d != c ==> r.gw.props[d] == gw.props[d])
            && (k in r.gw.props[c] <==> k in gw.props[c] || (s.disconnectedAt != 0 && k in s.connTags))
            && (k in r.gw.props[c] ==>
                  r.gw.props[c][k] == if s.disconnectedAt != 0 && k in s.connTags then s.connTags[k] else gw.props[c][k])
            && r.sent == [if s.disconnectedAt != 0 then Recon else SaveTags(Collect(gw.props[c]))]
            && r.gw.queued == gw.queued && !r.gw.waiting && (r.gw.released <==> gw.released || gw.waiting)
  {
  }

  // Tags that leave the connection without any synced one are not sent, but kept; no tags
  // at all change nothing. And with nothing queued there is nothing to retry.
  lemma NothingToSend(gw: Gw, c: nat, tags: Tags, up: bool)
    requires c in gw.props
    ensures Collect(gw.props[c] + tags) == map[] ==>
              ApplyTags(gw, c, tags, up) == Result(gw.(props := gw.props[c := gw.props[c] + tags]), [])
    ensures ApplyTags(gw, c, map[], up) == Result(gw, [])
    ensures !gw.queued ==> Retry(gw, up) == Result(gw, [])
  {
    assert gw.props[c] + map[] == gw.props[c];
    assert gw.props[c := gw.props[c]] == gw.props;
  }

  // A client's connection is the player's from then on, without tags, and SessionSvr is
  // asked if it can be. Nothing else at the gateway changes.
  lemma ConnectRegisters(w: World, g: string, c: nat, up: bool)
    requires WellFormed(w) && Enabled(w, ClientConnects(g, c, up))
    ensures var w' := Next(w, ClientConnects(g, c, up));
            && w'.session == w.session && w'.gws == w.gws[g := w'.gws[g]]
            && w'.gws[g].current == Some(c) && c in w'.gws[g].props && w'.gws[g].props[c] == map[]
            && w'.gws[g].props - {c} == w.gws[g].props && w'.gws[g].queued == w.gws[g].queued
            && w'.net == w.net + (if up then [ToServer(g, Get)] else [])
            && (up ==> w'.gws[g].waiting)
  {
    assert up ==> Post(g, [Get]) == [ToServer(g, Get)];
  }

  // A connection that ends is gone with its properties, and the gateway knows no
  // connection of the player's. SessionSvr is told at once, or the news is queued.
  lemma DropIsSentOrQueued(w: World, g: string, c: nat, up: bool)
    requires WellFormed(w) && Enabled(w, ClientDrops(g, c, up))
    ensures var w' := Next(w, ClientDrops(g, c, up));
            && w'.session == w.session && w'.gws == w.gws[g := w'.gws[g]]
            && w'.gws[g].current == None && w'.gws[g].props == w.gws[g].props - {c}
            && (up ==> w'.net == w.net + [ToServer(g, MarkDown)] && w'.gws[g].queued == w.gws[g].queued)
            && (!up ==> w'.net == w.net && w'.gws[g].queued)
  {
    assert up ==> Post(g, [MarkDown]) == [ToServer(g, MarkDown)];
    assert !up ==> Post(g, []) == [];
  }

  // A delivered disconnect marks the session of the gateway it comes from, and keeps its
  // tags.
  lemma DownMarks(w: World, i: nat, g: string, now: int, up: bool)
    requires WellFormed(w) && i < |w.net| && w.net[i] == ToServer(g, MarkDown)
    requires w.session.Some? && w.session.value.gatewayId == g
    ensures Deliver(w, i, now, up).session == Some(Session(g, w.session.value.connTags, now))
  {
    assert w.net[i].from in w.gws;
  }

  // ---- the retry queue ----

  predicate Keeps(st: Step, g: string) {
    !(st.Proceeds? && st.g == g) && !(st.Retries? && st.g == g && st.up)
  }

  lemma StepKeepsQueued(w: World, st: Step, g: string)
    requires WellFormed(w) && Enabled(w, st) && Keeps(st, g)
    requires g in w.gws && w.gws[g].queued
    ensures g in Next(w, st).gws && Next(w, st).gws[g].queued
  {
    hide Live, Answers, Collect;
  }

  lemma {:induction false} RunKeepsQueued(w: World, steps: seq<Step>, g: string)
    requires WellFormed(w) && ValidRun(w, steps) && (forall st | st in steps :: Keeps(st, g))
    requires g in w.gws && w.gws[g].queued
    ensures WellFormed(End(w, steps)) && g in End(w, steps).gws && End(w, steps).gws[g].queued
    decreases |steps|
  {
    hide Next, Keeps;
    if steps != [] {
      assert steps[0] in steps;
      StepKeepsWellFormed(w, steps[0]);
      StepKeepsQueued(w, steps[0], g);
      RunKeepsQueued(Next(w, steps[0]), steps[1..], g);
    }
  }

  // A disconnect that could not be sent is sent by the first retry that finds SessionSvr
  // reachable, whatever happens before it, unless a CheckReconnect of the player's goes
  // on at that gateway in between; and it is sent once.
  lemma QueuedDisconnectIsSent(w: World, g: string, c: nat, steps: seq<Step>)
    requires WellFormed(w) && Enabled(w, ClientDrops(g, c, false))
    requires var w1 := Next(w, ClientDrops(g, c, false));
             WellFormed(w1) && ValidRun(w1, steps) && forall st | st in steps :: Keeps(st, g)
    ensures var e := End(Next(w, ClientDrops(g, c, false)), steps);
            && WellFormed(e) && Enabled(e, Retries(g, true))
            && Next(e, Retries(g, true)).net == e.net + [ToServer(g, MarkDown)]
            && !Next(e, Retries(g, true)).gws[g].queued
  {
    DropIsSentOrQueued(w, g, c, false);
    var w1 := Next(w, ClientDrops(g, c, false));
    RunKeepsQueued(w1, steps, g);
    assert Post(g, [MarkDown]) == [ToServer(g, MarkDown)];
  }

  // A CheckReconnect that goes on leaves nothing queued, and goes on once.
  lemma ProceedClearsQueue(w: World, g: string)
    requires WellFormed(w) && Enabled(w, Proceeds(g))
    ensures var w' := Next(w, Proceeds(g));
            && !w'.gws[g].queued && !Enabled(w', Proceeds(g))
            && w'.gws == w.gws[g := w'.gws[g]] && w'.net == w.net && w'.session == w.session
            && w'.gws[g].props == w.gws[g].props && w'.gws[g].current == w.gws[g].current
  {
  }

  lemma StepKeepsUnsignalled(w: World, st: Step, g: string)
    requires WellFormed(w) && Enabled(w, st) && !(st.ClientConnects? && st.g == g)
    requires g in w.gws && !w.gws[g].waiting && !w.gws[g].released
    ensures g in Next(w, st).gws && !Next(w, st).gws[g].waiting && !Next(w, st).gws[g].released
  {
    hide Live, Answers, Collect;
  }

  // One that has given up never clears the queue: no late answer makes it go on.
  lemma {:induction false} GivenUpNeverProceeds(w: World, steps: seq<Step>, g: string)
    requires WellFormed(w) && ValidRun(w, steps) && (forall st | st in steps :: !(st.ClientConnects? && st.g == g))
    requires g in w.gws && !w.gws[g].waiting && !w.gws[g].released
    ensures Proceeds(g) !in steps && WellFormed(End(w, steps)) && !Enabled(End(w, steps), Proceeds(g))
    decreases |steps|
  {
    hide Next;
    if steps != [] {
      assert steps[0] in steps;
      StepKeepsWellFormed(w, steps[0]);
      StepKeepsUnsignalled(w, steps[0], g);
      GivenUpNeverProceeds(Next(w, steps[0]), steps[1..], g);
    }
  }

  lemma GivingUp(w: World, g: string)
    requires WellFormed(w) && Enabled(w, GivesUp(g))
    ensures var w' := Next(w, GivesUp(g));
            && !w'.gws[g].waiting && w'.gws[g] == w.gws[g].(waiting := false)
            && w'.net == w.net && w'.session == w.session && w'.gws == w.gws[g := w'.gws[g]]
  {
  }

  // ---- tags travel with the player ----

  // Tags from a backend reach the session: they are on the connection at once, and the
  // synced ones of the connection are in the session once their save is delivered.
  lemma TagsReachSession(w: World, g: string, c: nat, tags: Tags, now: int, up: bool)
    requires WellFormed(w) && Enabled(w, TagsArrive(g, c, tags, true)) && tags != map[]
    requires Collect(w.gws[g].props[c] + tags) != map[]
    ensures var w1, all := Next(w, TagsArrive(g, c, tags, true)), w.gws[g].props[c] + tags;
            && WellFormed(w1) && w1.gws == w.gws[g := w.gws[g].(props := w.gws[g].props[c := all])]
            && w1.net == w.net + [ToServer(g, SaveTags(Collect(all)))] && w1.session == w.session
            && Deliver(w1, |w.net|, now, up) == w1.(session := Some(Session(g, Collect(all), 0)), net := w.net)
  {
    var w1, all := Next(w, TagsArrive(g, c, tags, true)), w.gws[g].props[c] + tags;
    StepKeepsWellFormed(w, TagsArrive(g, c, tags, true));
    assert Post(g, [SaveTags(Collect(all))]) == [ToServer(g, SaveTags(Collect(all)))];
    assert Without(w1.net, |w.net|) + [] == w.net;
  }

  // A player gets tags on connection c of gateway g, the save is delivered, the client is
  // lost, and the disconnect is delivered.
  function Left(w: World, g: string, c: nat, tags: Tags, now: int, later: int): (w': World)
    requires WellFormed(w) && w.net == [] && Enabled(w, TagsArrive(g, c, tags, true)) && tags != map[]
    requires Collect(w.gws[g].props[c] + tags) != map[] && later > 0
    ensures WellFormed(w') && w'.net == [] && w'.gws.Keys == w.gws.Keys
    ensures w'.session == Some(Session(g, Collect(w.gws[g].props[c] + tags), later))
  {
    TagsReachSession(w, g, c, tags, now, true);
    var w1 := Next(w, TagsArrive(g, c, tags, true));
    var w2 := Deliver(w1, 0, now, true);
    DropIsSentOrQueued(w2, g, c, true);
    StepKeepsWellFormed(w2, ClientDrops(g, c, true));
    var w3 := Next(w2, ClientDrops(g, c, true));
    DownMarks(w3, 0, g, later, true);
    StepKeepsWellFormed(w3, Delivers(0, later, true));
    assert Without(w3.net, 0) + [] == [];
    Deliver(w3, 0, later, true)
  }

  // When the player then connects to any gateway, in every run of the exchange, the
  // synced tags of the lost connection are on the new one and in the session.
  lemma TagsTravel(
    w: World, g1: string, c1: nat, tags: Tags, now: int, later: int, g2: string, c2: nat, steps: seq<Step>)
    requires WellFormed(w) && w.net == [] && Enabled(w, TagsArrive(g1, c1, tags, true)) && tags != map[]
    requires Collect(w.gws[g1].props[c1] + tags) != map[] && later > 0
    requires H.Completed(Left(w, g1, c1, tags, now, later), g2, c2, steps)
    ensures var synced := Collect(w.gws[g1].props[c1] + tags);
            var e := End(H.Connected(Left(w, g1, c1, tags, now, later), g2, c2), steps);
            && e.session == Some(Session(g2, synced, 0))
            && g2 in e.gws && e.gws[g2].current == Some(c2)
            && c2 in e.gws[g2].props && e.gws[g2].props[c2] == synced
  {
    hide Left, Collect;
    var synced := Collect(w.gws[g1].props[c1] + tags);
    H.HandshakeOutcome(Left(w, g1, c1, tags, now, later), g2, c2, steps);
    CollectIsSyncable(w.gws[g1].props[c1] + tags);
    CollectIsSyncable(synced);
  }
}
