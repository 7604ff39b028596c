/** Message exchanges end: nothing SessionSvr and the gateways say to each other echoes forever. */
module Exchange {
  import opened Wrappers
  import opened Sessions
  import opened Gateways
  import opened Protocol

  // An upper bound on the deliveries a message can cause, itself included, with n
  // gateways to broadcast to.
  function Weight(m: Msg, n: nat): nat {
    match m
    case ToServer(_, Get) => n + 5
    case ToServer(_, Recon) => n + 3
    case ToServer(_, _) => 1
    case ToGateway(_, Answer(s)) => if s.disconnectedAt != 0 then n + 4 else 2
    case ToGateway(_, Left(_)) => 1
  }

  function Total(net: seq<Msg>, n: nat): nat {
    if net == [] then 0 else Weight(net[0], n) + Total(net[1..], n)
  }

  lemma {:induction false} TotalOfConcat(a: seq<Msg>, b: seq<Msg>, n: nat)
    ensures Total(a + b, n) == Total(a, n) + Total(b, n)
  {
    if a == [] {
      assert a + b == b;
    } else {
      assert (a + b)[1..] == a[1..] + b;
      TotalOfConcat(a[1..], b, n);
    }
  }

  lemma TotalWithout(net: seq<Msg>, i: nat, n: nat)
    requires i < |net|
    ensures Total(net, n) == Total(Without(net, i), n) + Weight(net[i], n)
  {
    assert net == net[..i] + ([net[i]] + net[i + 1..]);
    TotalOfConcat(net[..i], [net[i]] + net[i + 1..], n);
    TotalOfConcat([net[i]], net[i + 1..], n);
    TotalOfConcat(net[..i], net[i + 1..], n);
    assert [net[i]][1..] == [];
  }

  lemma {:induction false} TotalOfInvalidations(ids: seq<string>, left: string, n: nat)
    ensures Total(Invalidations(ids, left), n) == |ids|
  {
    if ids != [] {
      assert Invalidations(ids, left)[1..] == Invalidations(ids[1..], left);
      TotalOfInvalidations(ids[1..], left, n);
    }
  }

  lemma TotalOfOne(m: Msg, n: nat)
    ensures Total([m], n) == Weight(m, n)
  {
  }

  lemma AnswersWeighLess(w: World, g: string, u: Up)
    ensures Total(Answers(w.session, g, u, w.ids), |w.ids|) < Weight(ToServer(g, u), |w.ids|)
  {
    var n := |w.ids|;
    match u
    case Get => TotalOfOne(ToGateway(g, Answer(if w.session.Some? then w.session.value else FRESH)), n);
    case Recon =>
      if w.session.Some? {
        var first := ToGateway(g, Answer(Attach(w.session.value, g, map[])));
        var more := Invalidations(w.ids, w.session.value.gatewayId);
        TotalOfOne(first, n);
        TotalOfInvalidations(w.ids, w.session.value.gatewayId, n);
        TotalOfConcat([first], more, n);
        assert [first] + [] == [first];
      }
    case _ =>
  }

  lemma PostsWeighLess(g: string, r: Result, m: Msg, n: nat)
    requires |r.sent| <= 1
    requires r.sent == [] || Weight(ToServer(g, r.sent[0]), n) < Weight(m, n)
    ensures Total(Post(g, r.sent), n) < Weight(m, n)
  {
  }

  // Every delivery, of any message in any world, uses up more than it adds.
  lemma DeliveryDecreases(w: World, i: nat, now: int, up: bool)
    requires WellFormed(w) && i < |w.net|
    ensures Total(Deliver(w, i, now, up).net, |w.ids|) < Total(w.net, |w.ids|)
  {
    var n, rest := |w.ids|, Without(w.net, i);
    TotalWithout(w.net, i, n);
    match w.net[i]
    case ToServer(g, u) =>
      AnswersWeighLess(w, g, u);
      TotalOfConcat(rest, Answers(w.session, g, u, w.ids), n);
    case ToGateway(g, Answer(s)) =>
      PostsWeighLess(g, Reply(w.gws[g], s, up), w.net[i], n);
      TotalOfConcat(rest, Post(g, Reply(w.gws[g], s, up).sent), n);
    case ToGateway(g, Left(left)) =>
      assert Deliver(w, i, now, up).net == rest;
  }

  // The client connections that are open, at any gateway.
  ghost function Open(w: World): set<(string, nat)> {
    set g, c | g in w.gws && c in w.gws[g].props :: (g, c)
  }

  lemma DeliveryOpensNothing(w: World, i: nat, now: int, up: bool)
    requires WellFormed(w) && i < |w.net|
    ensures Open(Deliver(w, i, now, up)) == Open(w)
  {
    hide Live, Answers, Collect;
    var w' := Deliver(w, i, now, up);
    forall g ensures g in w'.gws <==> g in w.gws
             ensures g in w.gws ==> w'.gws[g].props.Keys == w.gws[g].props.Keys
    {
    }
    SameOpen(w, w');
  }

  lemma SameOpen(w: World, w': World)
    requires forall g :: g in w'.gws <==> g in w.gws
    requires forall g | g in w.gws :: w'.gws[g].props.Keys == w.gws[g].props.Keys
    ensures Open(w') == Open(w)
  {
    forall x: (string, nat) ensures x in Open(w') <==> x in Open(w) {
      assert x.0 in w.gws ==> (x.1 in w'.gws[x.0].props <==> x.1 in w'.gws[x.0].props.Keys);
    }
  }

  lemma DropCloses(w: World, g: string, c: nat, up: bool)
    requires WellFormed(w) && g in w.gws && c in w.gws[g].props
    ensures var w' := Next(w, ClientDrops(g, c, up));
            && |Open(w')| == |Open(w)| - 1
            && Total(w'.net, |w.ids|) <= Total(w.net, |w.ids|) + 1
  {
    var w' := Next(w, ClientDrops(g, c, up));
    assert (g, c) in Open(w);
    assert Open(w') == Open(w) - {(g, c)} by {
      forall x: (string, nat) ensures x in Open(w') <==> x in Open(w) && x != (g, c) {
      }
    }
    var sent := Stop(w.gws[g], c, up).sent;
    TotalOfConcat(w.net, Post(g, sent), |w.ids|);
    if sent != [] {
      assert Post(g, sent) == [ToServer(g, MarkDown)];
      TotalOfOne(ToServer(g, MarkDown), |w.ids|);
    } else {
      assert Post(g, sent) == [];
    }
  }

  // No client connects, no tags arrive and nothing is retried: messages are delivered,
  // and connections close, by invalidation or by themselves.
  predicate OnlyConsequences(steps: seq<Step>) {
    forall st | st in steps :: st.Delivers? || st.ClientDrops?
  }

  // From any world, however many messages are in flight, such a run is no longer than
  // their total weight and twice the open connections: every exchange ends, the stops
  // that invalidations cause included.
  lemma {:induction false} ExchangesTerminate(w: World, steps: seq<Step>)
    requires WellFormed(w) && ValidRun(w, steps) && OnlyConsequences(steps)
    ensures |steps| <= Total(w.net, |w.ids|) + 2 * |Open(w)|
    decreases |steps|
  {
    hide Next, Total, Open;
    if steps != [] {
      var st := steps[0];
      assert st in steps;
      StepKeepsWellFormed(w, st);
      if st.Delivers? {
        NextIsDeliver(w, st);
        DeliveryDecreases(w, st.i, st.now, st.up);
        DeliveryOpensNothing(w, st.i, st.now, st.up);
      } else {
        DropCloses(w, st.g, st.c, st.up);
      }
      ExchangesTerminate(Next(w, st), steps[1..]);
    }
  }

  lemma NextIsDeliver(w: World, st: Step)
    requires WellFormed(w) && Enabled(w, st) && st.Delivers?
    ensures Next(w, st) == Deliver(w, st.i, st.now, st.up)
  {
  }
}

/** A player who moves to another gateway is out of reach of the one they left. */
module GatewaySwitch {
  import opened Wrappers
  import opened Sessions
  import opened Gateways
  import opened Protocol

  // The session is with some gateway other than g.
  predicate Elsewhere(w: World, g: string) {
    w.session.Some? && w.session.value.gatewayId != "" && w.session.value.gatewayId != g
  }

  // SessionSvr processes a save or a reconnect from g.
  predicate AttachesTo(w: World, st: Step, g: string) {
    && st.Delivers? && st.i < |w.net| && w.net[st.i].ToServer?
    && w.net[st.i].from == g && (w.net[st.i].up.SaveTags? || w.net[st.i].up.Recon?)
  }

  predicate IsDownFrom(w: World, st: Step, g: string) {
    st.Delivers? && st.i < |w.net| && w.net[st.i] == ToServer(g, MarkDown)
  }

  // No step attaches the player to g, and the session does not expire.
  predicate StaysAway(w: World, steps: seq<Step>, g: string)
    requires WellFormed(w) && ValidRun(w, steps)
    decreases |steps|
  {
    steps != [] ==>
      && !AttachesTo(w, steps[0], g)
      && Next(w, steps[0]).session.Some?
      && (StepKeepsWellFormed(w, steps[0]); StaysAway(Next(w, steps[0]), steps[1..], g))
  }

  // Every delivery of a disconnect from g leaves the session as it was.
  predicate DownsAreInert(w: World, steps: seq<Step>, g: string)
    requires WellFormed(w) && ValidRun(w, steps)
    decreases |steps|
  {
    steps != [] ==>
      && (IsDownFrom(w, steps[0], g) ==> Next(w, steps[0]).session == w.session)
      && (StepKeepsWellFormed(w, steps[0]); DownsAreInert(Next(w, steps[0]), steps[1..], g))
  }

  lemma StepKeepsElsewhere(w: World, st: Step, g: string)
    requires WellFormed(w) && Enabled(w, st) && Elsewhere(w, g)
    requires !AttachesTo(w, st, g) && Next(w, st).session.Some?
    ensures Elsewhere(Next(w, st), g)
    ensures IsDownFrom(w, st, g) ==> Next(w, st).session == w.session
  {
  }

  // While the player is with another gateway, no disconnect from g changes the
  // session, whether it was in flight, queued for retry or caused by the
  // invalidation, in any interleaving, until the player is attached to g again.
  lemma {:induction false} LeftGatewayIsInert(w: World, steps: seq<Step>, g: string)
    requires WellFormed(w) && ValidRun(w, steps) && Elsewhere(w, g)
    requires StaysAway(w, steps, g)
    ensures DownsAreInert(w, steps, g) && Elsewhere(End(w, steps), g)
    decreases |steps|
  {
    if steps != [] {
      hide Elsewhere, Next, IsDownFrom;
      StepKeepsElsewhere(w, steps[0], g);
      StepKeepsWellFormed(w, steps[0]);
      LeftGatewayIsInert(Next(w, steps[0]), steps[1..], g);
    }
  }

  // Exactly when a delivered disconnect from g changes the session: there is none, or it
  // is with no gateway yet, or it is with g and not yet marked at this second.
  lemma DownTakesEffectIff(w: World, i: nat, g: string, now: int, up: bool)
    requires WellFormed(w) && i < |w.net| && w.net[i] == ToServer(g, MarkDown)
    ensures Deliver(w, i, now, up).session != w.session
            <==> || w.session.None? || w.session.value.gatewayId == ""
                 || (w.session.value.gatewayId == g && w.session.value.disconnectedAt != now)
  {
    assert w.net[i].from in w.gws;
  }

  // A reconnect that moves the player from g1 to g2 attaches the session to g2, tells
  // every gateway that g1 was left, and only g1 does anything about it.
  lemma SwitchInvalidatesOnlyTheLeft(w: World, i: nat, g1: string, g2: string, now: int, up: bool, h: string)
    requires WellFormed(w) && i < |w.net| && w.net[i] == ToServer(g2, Recon)
    requires w.session.Some? && w.session.value.gatewayId == g1 && g1 != "" && g1 != g2
    ensures var w' := Deliver(w, i, now, up);
            && Elsewhere(w', g1) && w'.session.value == Attach(w.session.value, g2, map[])
            && (forall k | 0 <= k < |w.ids| :: ToGateway(w.ids[k], Left(g1)) in w'.net)
            && (forall m | m in w'.net && m !in w.net :: m == ToGateway(g2, Answer(w'.session.value))
                                                        || (m.ToGateway? && m.down == Left(g1)))
            && (h in w.gws ==> Forget(w.gws[h], h, g1) == if h == g1 then w.gws[h].(current := None) else w.gws[h])
  {
    var w' := Deliver(w, i, now, up);
    var inv := Invalidations(w.ids, g1);
    forall k | 0 <= k < |w.ids| ensures ToGateway(w.ids[k], Left(g1)) in w'.net {
      assert inv[k] in inv;
    }
    assert w.net[i].from in w.gws;
  }

  // The two together: after the move, in every run, g1's disconnects are inert.
  lemma SwitchIsSafe(w: World, i: nat, g1: string, g2: string, now: int, up: bool, steps: seq<Step>)
    requires WellFormed(w) && i < |w.net| && w.net[i] == ToServer(g2, Recon)
    requires w.session.Some? && w.session.value.gatewayId == g1 && g1 != "" && g1 != g2
    requires now > 0 && Enabled(w, Delivers(i, now, up)) && ValidRun(w, [Delivers(i, now, up)] + steps)
    requires StaysAway(w, [Delivers(i, now, up)] + steps, g1)
    ensures DownsAreInert(w, [Delivers(i, now, up)] + steps, g1)
    ensures Elsewhere(End(w, [Delivers(i, now, up)] + steps), g1)
  {
    var st := Delivers(i, now, up);
    var w' := Next(w, st);
    SwitchInvalidatesOnlyTheLeft(w, i, g1, g2, now, up, g1);
    StepKeepsWellFormed(w, st);
    assert ([st] + steps)[1..] == steps;
    LeftGatewayIsInert(w', steps, g1);
  }

  // ---- who can bring the player back ----

  // What undoes a switch: of all messages in flight, a save or a reconnect from g.
  lemma DeliveryUndoesSwitchIff(w: World, i: nat, g: string, now: int, up: bool)
    requires WellFormed(w) && Elsewhere(w, g) && i < |w.net|
    ensures !Elsewhere(Deliver(w, i, now, up), g)
            <==> w.net[i].ToServer? && w.net[i].from == g && (w.net[i].up.SaveTags? || w.net[i].up.Recon?)
  {
    assert w.net[i].ToServer? ==> w.net[i].from in w.gws;
  }

  // Gateway g has no client connection and no save or reconnect of its is in flight. It
  // may still have requests, answers and disconnects under way.
  ghost predicate Silent(w: World, g: string) {
    && g in w.gws && w.gws[g].props == map[]
    && forall i | 0 <= i < |w.net| :: !Attaching(w.net[i], g)
  }

  predicate Attaching(m: Msg, g: string) {
    m.ToServer? && m.from == g && (m.up.SaveTags? || m.up.Recon?)
  }

  lemma PostsKeepSilent(w: World, h: string, r: Result, g: string)
    requires Silent(w, g)
    requires h == g ==> r.gw.props == map[] && forall u | u in r.sent :: !u.SaveTags? && !u.Recon?
    ensures Silent(AtGateway(w, h, r), g)
  {
  }

  lemma DeliveryKeepsSilent(w: World, i: nat, now: int, up: bool, g: string)
    requires WellFormed(w) && Silent(w, g) && i < |w.net|
    ensures Silent(Deliver(w, i, now, up), g)
  {
    hide Live, Collect;
    var taken := w.(net := Without(w.net, i));
    assert Silent(taken, g);
    match w.net[i]
    case ToServer(h, u) =>
    case ToGateway(h, Answer(s)) => PostsKeepSilent(taken, h, Reply(w.gws[h], s, up), g);
    case ToGateway(h, Left(left)) => PostsKeepSilent(taken, h, Result(Forget(w.gws[h], h, left), []), g);
  }

  lemma StepKeepsSilent(w: World, st: Step, g: string)
    requires WellFormed(w) && Enabled(w, st) && Silent(w, g)
    requires st.ClientConnects? ==> st.g != g
    ensures Silent(Next(w, st), g) && !AttachesTo(w, st, g)
  {
    hide Deliver, Collect;
    match st
    case ClientConnects(h, c, up) => PostsKeepSilent(w, h, Connect(w.gws[h], c, up), g);
    case ClientDrops(h, c, up) => PostsKeepSilent(w, h, Stop(w.gws[h], c, up), g);
    case TagsArrive(h, c, tags, up) => PostsKeepSilent(w, h, ApplyTags(w.gws[h], c, tags, up), g);
    case Retries(h, up) => PostsKeepSilent(w, h, Retry(w.gws[h], up), g);
    case Delivers(i, now, up) => DeliveryKeepsSilent(w, i, now, up, g);
    case _ =>
  }

  // The player does not connect to g, and the session does not expire.
  predicate NeverReturns(w: World, steps: seq<Step>, g: string)
    requires WellFormed(w) && ValidRun(w, steps)
    decreases |steps|
  {
    steps != [] ==>
      && !(steps[0].ClientConnects? && steps[0].g == g)
      && Next(w, steps[0]).session.Some?
      && (StepKeepsWellFormed(w, steps[0]); NeverReturns(Next(w, steps[0]), steps[1..], g))
  }

  lemma {:induction false} SilentStaysAway(w: World, steps: seq<Step>, g: string)
    requires WellFormed(w) && ValidRun(w, steps) && Silent(w, g) && NeverReturns(w, steps, g)
    ensures StaysAway(w, steps, g)
    decreases |steps|
  {
    if steps != [] {
      hide Silent, Next, AttachesTo;
      StepKeepsSilent(w, steps[0], g);
      StepKeepsWellFormed(w, steps[0]);
      SilentStaysAway(Next(w, steps[0]), steps[1..], g);
    }
  }

  // A player who is elsewhere stays elsewhere for as long as they do not connect to g
  // again, whatever else g and everyone else sends.
  lemma SwitchIsFinal(w: World, steps: seq<Step>, g: string)
    requires WellFormed(w) && ValidRun(w, steps) && Elsewhere(w, g)
    requires Silent(w, g) && NeverReturns(w, steps, g)
    ensures DownsAreInert(w, steps, g) && Elsewhere(End(w, steps), g)
  {
    SilentStaysAway(w, steps, g);
    LeftGatewayIsInert(w, steps, g);
  }

  // A session that has expired is no protection: a late disconnect from the gateway
  // that was left makes a new session there.
  lemma LateDownAfterExpiry(w: World, i: nat, g: string, now: int, up: bool)
    requires WellFormed(w) && i < |w.net| && w.net[i] == ToServer(g, MarkDown)
    requires w.session.None?
    ensures Deliver(w, i, now, up).session == Some(Session(g, map[], now))
  {
  }
}
