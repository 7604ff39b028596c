/**
 SessionSvr and several gateways exchanging messages about one player, in any order
 and interleaving: the network is a list from which any message may be taken next.
 */
module Protocol {
  import opened Wrappers
  import opened Sessions
  import opened Gateways

  // The player being followed. The handlers never compare it with anything.
  const PLAYER: PlayerId := 1

  datatype Down = Answer(session: Session) | Left(gateway: string)
  datatype Msg = ToServer(from: string, up: Up) | ToGateway(to: string, down: Down)

  // `ids` are the gateways SessionSvr is connected to.
  datatype World = World(session: Option<Session>, ids: seq<string>, gws: map<string, Gw>, net: seq<Msg>)

  datatype Step =
    | ClientConnects(g: string, c: nat, up: bool)
    | ClientDrops(g: string, c: nat, up: bool)
    | TagsArrive(g: string, c: nat, tags: Tags, up: bool)
    | GivesUp(g: string)
    | Retries(g: string, up: bool)
    | Expires(now: int)
    | Delivers(i: nat, now: int, up: bool)
    | Proceeds(g: string)

  // Distinct-ness of IDs is in the map: one gateway per ID, and no empty ID.
  predicate WellFormed(w: World) {
    && (forall i | 0 <= i < |w.ids| :: w.ids[i] in w.gws)
    && "" !in w.gws
    && (forall i | 0 <= i < |w.net| ::
          if w.net[i].ToServer? then w.net[i].from in w.gws else w.net[i].to in w.gws)
  }

  predicate Enabled(w: World, st: Step) {
    match st
    case ClientConnects(g, c, _) => g in w.gws && c !in w.gws[g].props
    case ClientDrops(g, c, _) => g in w.gws && c in w.gws[g].props
    case TagsArrive(g, c, _, _) => g in w.gws && c in w.gws[g].props
    case GivesUp(g) => g in w.gws
    case Retries(g, _) => g in w.gws
    case Expires(_) => true
    case Delivers(i, now, _) => i < |w.net| && now > 0
    case Proceeds(g) => g in w.gws && w.gws[g].released
  }

  function Post(g: string, ms: seq<Up>): seq<Msg> {
    seq(|ms|, i requires 0 <= i < |ms| => ToServer(g, ms[i]))
  }

  function AtGateway(w: World, g: string, r: Result): World {
    w.(gws := w.gws[g := r.gw], net := w.net + Post(g, r.sent))
  }

  // The broadcast of handleReconnect.
  function Invalidations(ids: seq<string>, left: string): seq<Msg> {
    seq(|ids|, i requires 0 <= i < |ids| => ToGateway(ids[i], Left(left)))
  }

  function EntryOf(g: string, up: Up, now: int): Entry
    requires !up.Get?
  {
    match up
    case SaveTags(t) => Save(PLAYER, g, t)
    case MarkDown => Disconnect(PLAYER, g, map[], now)
    case Recon => Reconnect(PLAYER, g, map[])
  }

  // What SessionSvr sends on receiving `up` from g while the session is o.
  function Answers(o: Option<Session>, g: string, up: Up, ids: seq<string>): seq<Msg> {
    match up
    case Get => [ToGateway(g, Answer(if o.Some? then o.value else FRESH))]
    case Recon =>
      if o.None? then []
      else
        [ToGateway(g, Answer(Attach(o.value, g, map[])))]
        + (if o.value.gatewayId != "" && o.value.gatewayId != g then Invalidations(ids, o.value.gatewayId) else [])
    case _ => []
  }

  function Deliver(w: World, i: nat, now: int, up: bool): World
    requires WellFormed(w) && i < |w.net|
  {
    var m, rest := w.net[i], Without(w.net, i);
    match m
    case ToServer(g, u) =>
      w.(session := if u.Get? then w.session else Live(w.session, EntryOf(g, u, now)),
         net := rest + Answers(w.session, g, u, w.ids))
    case ToGateway(g, Answer(s)) => AtGateway(w.(net := rest), g, Reply(w.gws[g], s, up))
    case ToGateway(g, Left(left)) => AtGateway(w.(net := rest), g, Result(Forget(w.gws[g], g, left), []))
  }

  function Next(w: World, st: Step): World
    requires WellFormed(w) && Enabled(w, st)
  {
    match st
    case ClientConnects(g, c, up) => AtGateway(w, g, Connect(w.gws[g], c, up))
    case ClientDrops(g, c, up) => AtGateway(w, g, Stop(w.gws[g], c, up))
    case TagsArrive(g, c, tags, up) => AtGateway(w, g, ApplyTags(w.gws[g], c, tags, up))
    case GivesUp(g) => w.(gws := w.gws[g := Timeout(w.gws[g])])
    case Retries(g, up) => AtGateway(w, g, Retry(w.gws[g], up))
    case Expires(now) =>
      if w.session.Some? && Expired(w.session.value, now) then w.(session := None) else w
    case Delivers(i, now, up) => Deliver(w, i, now, up)
    case Proceeds(g) => w.(gws := w.gws[g := Proceed(w.gws[g])])
  }

  lemma AtGatewayKeepsWellFormed(w: World, g: string, r: Result)
    requires WellFormed(w) && g in w.gws
    ensures WellFormed(AtGateway(w, g, r)) && AtGateway(w, g, r).gws.Keys == w.gws.Keys
  {
  }

  lemma TakingKeepsWellFormed(w: World, i: nat)
    requires WellFormed(w) && i < |w.net|
    ensures WellFormed(w.(net := Without(w.net, i)))
  {
  }

  lemma AnswersAreAddressed(w: World, g: string, up: Up)
    requires WellFormed(w) && g in w.gws
    ensures WellFormed(w.(net := w.net + Answers(w.session, g, up, w.ids)))
  {
  }

  lemma StepKeepsWellFormed(w: World, st: Step)
    requires WellFormed(w) && Enabled(w, st)
    ensures WellFormed(Next(w, st))
    ensures Next(w, st).ids == w.ids && Next(w, st).gws.Keys == w.gws.Keys
  {
    hide Reply, Forget, Connect, Stop, ApplyTags, Retry, Answers, Live;
    match st
    case ClientConnects(g, c, up) => AtGatewayKeepsWellFormed(w, g, Connect(w.gws[g], c, up));
    case ClientDrops(g, c, up) => AtGatewayKeepsWellFormed(w, g, Stop(w.gws[g], c, up));
    case TagsArrive(g, c, tags, up) => AtGatewayKeepsWellFormed(w, g, ApplyTags(w.gws[g], c, tags, up));
    case Retries(g, up) => AtGatewayKeepsWellFormed(w, g, Retry(w.gws[g], up));
    case GivesUp(_) =>
    case Expires(_) =>
    case Proceeds(_) =>
    case Delivers(i, now, up) =>
      TakingKeepsWellFormed(w, i);
      var taken := w.(net := Without(w.net, i));
      match w.net[i]
      case ToServer(g, u) => AnswersAreAddressed(taken, g, u);
      case ToGateway(g, Answer(s)) => AtGatewayKeepsWellFormed(taken, g, Reply(w.gws[g], s, up));
      case ToGateway(g, Left(left)) => AtGatewayKeepsWellFormed(taken, g, Result(Forget(w.gws[g], g, left), []));
  }

  predicate ValidRun(w: World, steps: seq<Step>)
    requires WellFormed(w)
    decreases |steps|
  {
    steps != [] ==>
      Enabled(w, steps[0]) && (StepKeepsWellFormed(w, steps[0]); ValidRun(Next(w, steps[0]), steps[1..]))
  }

  function End(w: World, steps: seq<Step>): World
    requires WellFormed(w) && ValidRun(w, steps)
    decreases |steps|
  {
    if steps == [] then w
    else
      StepKeepsWellFormed(w, steps[0]);
      End(Next(w, steps[0]), steps[1..])
  }
}
