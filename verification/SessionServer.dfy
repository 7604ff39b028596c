/**
 SessionSvr as the source has it: session objects updated field by field, a table of
 references to them, loops over the table. Every method is tied to the functions of
 module Sessions, about which the recovery results are proved.
 */
module SessionServer {
  import opened Wrappers
  import opened Sessions

  // Messages to gateways and, on expiry, to RoomSvr and MatchSvr. An invalidation is
  // broadcast: every connected gateway gets it.
  datatype Message =
    | GetReply(player: PlayerId, session: Session)
    | ReconnectReply(player: PlayerId, session: Session)
    | Invalidate(player: PlayerId, gateway: string)
    | ForceLeaveRoom(player: PlayerId, matchId: string, key: string)
    | ForceLeaveQueue(player: PlayerId, matchType: string)

  // What the scanner sends for a session it deletes; notifyForceLeaveRoom routes by
  // server ID, or by match ID when there is none.
  function Notices(p: PlayerId, s: Session): seq<Message> {
    var room, mid, kind := Tag(s.connTags, TAG_ROOM_SVR_ID), Tag(s.connTags, TAG_MATCH_ID), Tag(s.connTags, TAG_MATCH_TYPE);
    (if mid != "" then [ForceLeaveRoom(p, mid, if room == "" then mid else room)] else [])
    + (if kind != "" then [ForceLeaveQueue(p, kind)] else [])
  }

  // What handleReconnect sends: the reply, and an invalidation if the gateway changed.
  function ReconnectSends(o: Option<Session>, p: PlayerId, g: string, t: Tags): seq<Message> {
    if o.None? then []
    else
      [ReconnectReply(p, Attach(o.value, g, t))]
      + (if o.value.gatewayId != "" && o.value.gatewayId != g then [Invalidate(p, o.value.gatewayId)] else [])
  }

  // An invalidation goes out for exactly the gateway the session was with, if that is
  // another one; the reply goes out first and carries the session as it now is.
  lemma InvalidationNamesTheLeft(o: Option<Session>, p: PlayerId, g: string, t: Tags, x: string)
    ensures var sends := ReconnectSends(o, p, g, t);
            && (Invalidate(p, x) in sends <==> o.Some? && o.value.gatewayId == x && x != "" && x != g)
            && (sends != [] <==> o.Some?)
            && (o.Some? ==>
                  && sends[0] == ReconnectReply(p, Session(g, if t == map[] then o.value.connTags else t, 0))
                  && forall m | m in sends[1..] :: m == Invalidate(p, o.value.gatewayId))
            && |sends| <= 2
  {
  }

  // RoomSvr is told the match and is reached by server ID, or by match ID if there is
  // none; MatchSvr is told the match type. A session without the tag causes no notice.
  lemma NoticesSay(p: PlayerId, s: Session, m: Message)
    ensures m in Notices(p, s) <==>
              var room, mid := Tag(s.connTags, "room_server_id"), Tag(s.connTags, "match_id");
              || (m.ForceLeaveRoom? && m.player == p && m.matchId == mid && mid != "" && m.key == if room == "" then mid else room)
              || (m.ForceLeaveQueue? && m.player == p && m.matchType == Tag(s.connTags, "match_type") && m.matchType != "")
    ensures |Notices(p, s)| <= 2 && (|Notices(p, s)| == 2 ==> Notices(p, s)[0] != Notices(p, s)[1])
  {
    var room, mid, kind := Tag(s.connTags, "room_server_id"), Tag(s.connTags, "match_id"), Tag(s.connTags, "match_type");
    var a, b := ForceLeaveRoom(p, mid, if room == "" then mid else room), ForceLeaveQueue(p, kind);
    assert Notices(p, s) == (if mid != "" then [a] else []) + (if kind != "" then [b] else []);
  }

  class SessionCell {
    const playerId: PlayerId
    var gatewayId: string
    var connTags: Tags
    var disconnectedAt: int

    constructor (p: PlayerId)
      ensures playerId == p && Value() == FRESH
    {
      playerId := p;
      gatewayId, connTags, disconnectedAt := "", map[], 0;
    }

    constructor Loaded(p: PlayerId, s: Session)
      ensures playerId == p && Value() == s
    {
      playerId := p;
      gatewayId, connTags, disconnectedAt := s.gatewayId, s.connTags, s.disconnectedAt;
    }

    function Value(): Session
      reads this
    {
      Session(gatewayId, connTags, disconnectedAt)
    }

    // The sections that the source runs under the session's lock.

    method SetSaved(g: string, t: Tags)
      modifies this
      ensures Value() == Session(g, t, 0)
    {
      gatewayId := g;
      connTags := t;
      disconnectedAt := 0;
    }

    method SetAttached(g: string, t: Tags)
      modifies this
      ensures Value() == Attach(old(Value()), g, t)
    {
      disconnectedAt := 0;
      gatewayId := g;
      if |t| > 0 {
        connTags := t;
      }
    }

    method SetDown(g: string, t: Tags, at: int) returns (accepted: bool)
      modifies this
      ensures accepted == !Stale(old(Value()), g)
      ensures Value() == if accepted then MarkDown(old(Value()), g, t, at) else old(Value())
    {
      if gatewayId != "" && gatewayId != g {
        return false;
      }
      if gatewayId == "" {
        gatewayId := g;
      }
      if connTags == map[] {
        connTags := t;
      }
      disconnectedAt := at;
      return true;
    }
  }

  class Server {
    var sessions: map<PlayerId, SessionCell>
    var journal: seq<Entry>
    var sent: seq<Message>

    // The table the cells add up to.
    ghost var view: Table
    ghost var cells: set<SessionCell>

    // Each cell is stored under its own player, so no two keys share a cell.
    ghost predicate Valid()
      reads this`sessions, this`view, this`cells, cells
    {
      && view.Keys == sessions.Keys
      && forall p | p in sessions :: Holds(sessions[p], p, view[p])
    }

    ghost predicate Holds(c: SessionCell, p: PlayerId, s: Session)
      reads this`cells, cells
    {
      c in cells && c.playerId == p && c.Value() == s
    }

    constructor ()
      ensures Valid() && view == map[] && cells == {} && journal == [] && sent == []
    {
      sessions, journal, sent, view, cells := map[], [], [], map[], {};
    }

    lemma KeysMatch()
      requires Valid()
      ensures sessions.Keys == view.Keys
    {
    }

    method LoadOrStore(p: PlayerId) returns (s: SessionCell)
      requires Valid()
      modifies this`sessions, this`view, this`cells
      ensures Valid() && p in sessions && sessions[p] == s
      ensures if p in old(sessions) then sessions == old(sessions) && view == old(view) && cells == old(cells)
              else fresh(s) && sessions == old(sessions)[p := s] && cells == old(cells) + {s} && view == old(view)[p := FRESH]
    {
      if p in sessions {
        s := sessions[p];
      } else {
        s := new SessionCell(p);
        sessions, cells := sessions[p := s], cells + {s};
        view := view[p := FRESH];
      }
    }

    // The locked section of a handler, on the cell the table holds for p. No other
    // player's cell changes.

    method Overwrite(p: PlayerId, g: string, t: Tags)
      requires Valid() && p in sessions
      modifies cells, this`view
      ensures Valid() && view == old(view)[p := Session(g, t, 0)]
    {
      KeysMatch();
      var s := sessions[p];
      assert Holds(s, p, view[p]);
      s.SetSaved(g, t);
      view := view[p := Session(g, t, 0)];
    }

    method Reattach(p: PlayerId, g: string, t: Tags) returns (oldGateway: string, session: Session)
      requires Valid() && p in sessions && p in view
      modifies cells, this`view
      ensures Valid() && view == old(view)[p := session]
      ensures oldGateway == old(view)[p].gatewayId && session == Attach(old(view)[p], g, t)
    {
      var s := sessions[p];
      assert Holds(s, p, view[p]);
      oldGateway := s.gatewayId;
      s.SetAttached(g, t);
      session := Session(s.gatewayId, s.connTags, 0);
      view := view[p := session];
    }

    method Down(p: PlayerId, g: string, t: Tags, at: int) returns (accepted: bool)
      requires Valid() && p in sessions && p in view
      modifies cells, this`view
      ensures Valid() && accepted == !Stale(old(view)[p], g)
      ensures view == if accepted then old(view)[p := MarkDown(old(view)[p], g, t, at)] else old(view)
    {
      var s := sessions[p];
      assert Holds(s, p, view[p]);
      accepted := s.SetDown(g, t, at);
      if accepted {
        view := view[p := Session(s.gatewayId, s.connTags, s.disconnectedAt)];
      }
    }

    method HandleSave(p: PlayerId, g: string, t: Tags)
      requires Valid()
      modifies this`sessions, this`journal, this`view, this`cells, cells
      ensures Valid() && fresh(cells - old(cells))
      ensures view == Handle(old(view), Save(p, g, t))
      ensures journal == old(journal) + [Save(p, g, t)]
    {
      hide Valid;
      var s := LoadOrStore(p);
      Overwrite(p, g, t);
      StoredTwice(old(view), p, view[p]);
      journal := journal + [Save(p, g, t)];
    }

    // Replies even for a player it does not know.
    method HandleGet(p: PlayerId)
      requires Valid()
      modifies this`sent
      ensures Valid() && view == old(view)
      ensures sent == old(sent) + [GetReply(p, if p in view then view[p] else FRESH)]
    {
      var r := FRESH;
      if p in sessions {
        var s := sessions[p];
        r := Session(s.gatewayId, s.connTags, s.disconnectedAt);
      }
      sent := sent + [GetReply(p, r)];
    }

    method HandleDisconnect(p: PlayerId, g: string, t: Tags, now: int)
      requires Valid()
      modifies this`sessions, this`journal, this`view, this`cells, cells
      ensures Valid() && fresh(cells - old(cells))
      ensures view == Handle(old(view), Disconnect(p, g, t, now))
      ensures journal == old(journal)
                         + if Accepted(Lookup(old(view), p), Disconnect(p, g, t, now)) then [Disconnect(p, g, t, now)] else []
    {
      hide Valid;
      KeysMatch();
      var s := LoadOrStore(p);
      KeysMatch();
      var accepted := Down(p, g, t, now);
      if !accepted {
        return;
      }
      StoredTwice(old(view), p, view[p]);
      journal := journal + [Disconnect(p, g, t, now)];
    }

    method HandleReconnect(p: PlayerId, g: string, t: Tags)
      requires Valid()
      modifies this`journal, this`sent, this`view, cells
      ensures Valid()
      ensures view == Handle(old(view), Reconnect(p, g, t))
      ensures journal == old(journal)
                         + if Accepted(Lookup(old(view), p), Reconnect(p, g, t)) then [Reconnect(p, g, t)] else []
      ensures sent == old(sent) + ReconnectSends(Lookup(old(view), p), p, g, t)
    {
      hide Valid;
      KeysMatch();
      if p !in sessions {
        return;
      }
      var oldGateway, session := Reattach(p, g, t);
      journal := journal + [Reconnect(p, g, t)];
      sent := sent + [ReconnectReply(p, session)];
      if oldGateway != "" && oldGateway != g {
        sent := sent + [Invalidate(p, oldGateway)];
      }
    }

    // The scanner's visit to one session.
    method Visit(p: PlayerId, now: int) returns (expired: bool)
      requires Valid() && p in view
      modifies this`sessions, this`sent, this`view
      ensures Valid() && expired == Expired(old(view)[p], now)
      ensures view == if expired then old(view) - {p} else old(view)
      ensures sent == old(sent) + if expired then Notices(p, old(view)[p]) else []
    {
      var s := sessions[p];
      assert Holds(s, p, view[p]);
      expired := s.disconnectedAt != 0 && now - s.disconnectedAt >= TTL;
      if expired {
        var matchId, matchType := Tag(s.connTags, TAG_MATCH_ID), Tag(s.connTags, TAG_MATCH_TYPE);
        var roomSvrId := Tag(s.connTags, TAG_ROOM_SVR_ID);
        if matchId != "" {
          sent := sent + [ForceLeaveRoom(p, matchId, if roomSvrId == "" then matchId else roomSvrId)];
        }
        if matchType != "" {
          sent := sent + [ForceLeaveQueue(p, matchType)];
        }
        sessions, view := sessions - {p}, view - {p};
      }
    }

    // One pass of StartExpiryScanner, in whatever order the table is walked: exactly
    // the expired sessions go, and each takes its own notices with it.
    method ScanExpired(now: int) returns (ghost order: seq<PlayerId>)
      requires Valid()
      modifies this`sessions, this`sent, this`view
      ensures Valid() && view == Scan(old(view), now)
      ensures Enumerates(order, old(view).Keys) && sent == old(sent) + PassNotices(old(view), order, now)
    {
      hide Valid, PartlyScanned, Enumerates, PassNotices, Notices;
      ghost var before := view;
      order := [];
      var todo := sessions.Keys;
      KeysMatch();
      PassStart(before, now);
      while todo != {}
        invariant Valid() && PartlyScanned(before, view, order, todo, now)
        invariant sent == old(sent) + PassNotices(before, order, now)
        decreases todo
      {
        var p := Pick(todo);
        PartlyScannedExtend(before, view, order, todo, p, now);
        var expired := Visit(p, now);
        order, todo := order + [p], todo - {p};
      }
      PartlyScannedDone(before, view, order, now);
    }

    // snapshotSessions.
    method Snapshot() returns (state: Table)
      requires Valid()
      ensures state == view
    {
      state := map[];
      var todo := sessions.Keys;
      while todo != {}
        invariant todo <= sessions.Keys
        invariant state == view - todo
        decreases todo
      {
        var p := Pick(todo);
        var s := sessions[p];
        state := state[s.playerId := Session(s.gatewayId, s.connTags, s.disconnectedAt)];
        todo := todo - {p};
      }
    }

    method StoreLoaded(p: PlayerId, v: Session)
      requires Valid()
      modifies this`sessions, this`view, this`cells
      ensures Valid() && fresh(cells - old(cells))
      ensures view == old(view)[p := v]
    {
      var s := new SessionCell.Loaded(p, v);
      sessions, cells := sessions[p := s], cells + {s};
      view := view[p := v];
    }

    // loadSnapshot: new cells replace whatever was stored under the same players.
    method LoadSnapshot(state: Table)
      requires Valid()
      modifies this`sessions, this`view, this`cells
      ensures Valid() && fresh(cells - old(cells))
      ensures view == old(view) + state
    {
      hide Valid;
      var todo := state.Keys;
      while todo != {}
        invariant Valid() && todo <= state.Keys
        invariant fresh(cells - old(cells))
        invariant view == old(view) + (state - todo)
        decreases todo
      {
        var p := Pick(todo);
        StoreLoaded(p, state[p]);
        todo := todo - {p};
      }
      assert state - todo == state;
    }

    // replaySession.
    method ReplayOne(e: Entry)
      requires Valid()
      modifies this`sessions, this`view, this`cells, cells
      ensures Valid() && fresh(cells - old(cells))
      ensures view == ReplayEntry(old(view), e)
    {
      hide Valid;
      KeysMatch();
      match e
      case Save(p, g, t) =>
        var s := LoadOrStore(p);
        KeysMatch();
        var _, session := Reattach(p, g, t);
        StoredTwice(old(view), p, session);
      case Disconnect(p, g, t, at) =>
        if p !in sessions {
          return;
        }
        var stamp := at;
        if at == 0 {
          stamp := StampOf(p);
        }
        var _ := Down(p, g, t, stamp);
      case Reconnect(p, g, t) =>
        if p !in sessions {
          return;
        }
        var _, _ := Reattach(p, g, t);
    }

    method StampOf(p: PlayerId) returns (at: int)
      requires Valid() && p in sessions && p in view
      ensures at == view[p].disconnectedAt
    {
      assert Holds(sessions[p], p, view[p]);
      at := sessions[p].disconnectedAt;
    }
  }

  lemma StoredTwice(m: Table, p: PlayerId, v: Session)
    ensures m[p := FRESH][p := v] == m[p := v]
  {
  }

  // Every key once, in some order.
  ghost predicate Enumerates(order: seq<PlayerId>, keys: set<PlayerId>) {
    (forall p :: p in order <==> p in keys) && |order| == |keys|
  }

  // The notices of a pass over `order`, oldest visit first.
  function PassNotices(m: Table, order: seq<PlayerId>, now: int): seq<Message> {
    if order == [] then []
    else
      var p := order[|order| - 1];
      PassNotices(m, order[..|order| - 1], now)
      + if p in m && Expired(m[p], now) then Notices(p, m[p]) else []
  }

  // A pass sends a message if and only if it is a notice of a player visited in it whose
  // session is marked two minutes ago or longer.
  lemma {:induction false} PassSendsIff(m: Table, order: seq<PlayerId>, now: int, msg: Message)
    ensures msg in PassNotices(m, order, now) <==>
              exists i | 0 <= i < |order| ::
                order[i] in m && m[order[i]].disconnectedAt != 0 && now >= m[order[i]].disconnectedAt + 120
                && msg in Notices(order[i], m[order[i]])
  {
    hide Notices;
    if order != [] {
      var k := |order| - 1;
      PassSendsIff(m, order[..k], now, msg);
      assert forall i | 0 <= i < k :: order[..k][i] == order[i];
    }
  }

  // `left` is `m` without the expired players outside `todo`, visited in `order`.
  ghost predicate PartlyScanned(m: Table, left: Table, order: seq<PlayerId>, todo: set<PlayerId>, now: int) {
    && todo <= left.Keys && left.Keys <= m.Keys
    && (forall p | p in left :: left[p] == m[p])
    && (forall p | p in m && p !in todo :: p in left <==> !Expired(m[p], now))
    && Enumerates(order, m.Keys - todo)
  }

  lemma PassStart(m: Table, now: int)
    ensures PartlyScanned(m, m, [], m.Keys, now) && PassNotices(m, [], now) == []
  {
  }

  lemma PartlyScannedExtend(m: Table, left: Table, order: seq<PlayerId>, todo: set<PlayerId>, p: PlayerId, now: int)
    requires PartlyScanned(m, left, order, todo, now) && p in todo
    ensures p in left && p in m && left[p] == m[p]
    ensures PartlyScanned(m, if Expired(m[p], now) then left - {p} else left, order + [p], todo - {p}, now)
    ensures PassNotices(m, order + [p], now)
            == PassNotices(m, order, now) + if Expired(m[p], now) then Notices(p, m[p]) else []
  {
  }

  lemma PartlyScannedDone(m: Table, left: Table, order: seq<PlayerId>, now: int)
    requires PartlyScanned(m, left, order, {}, now)
    ensures left == Scan(m, now) && Enumerates(order, m.Keys)
  {
    var scanned := Scan(m, now);
    assert forall p :: p in left.Keys <==> p in scanned.Keys;
    assert forall p | p in left.Keys :: left[p] == scanned[p];
    assert m.Keys - {} == m.Keys;
  }

  // Recovery as OpenStore runs it: a new server loads the snapshot and replays the
  // journal, and holds exactly the table the recovery results speak of.
  method Recover(snapshot: Option<Table>, journal: seq<Entry>) returns (server: Server)
    ensures fresh(server) && server.Valid() && fresh(server.cells)
    ensures server.view == ReplayAll(if snapshot.Some? then snapshot.value else map[], journal)
  {
    server := new Server();
    if snapshot.Some? {
      server.LoadSnapshot(snapshot.value);
      assert map[] + snapshot.value == snapshot.value;
    }
    ghost var base := server.view;
    assert journal[..0] == [];
    for i := 0 to |journal|
      invariant server.Valid() && fresh(server.cells)
      invariant server.view == ReplayAll(base, journal[..i])
    {
      server.ReplayOne(journal[i]);
      assert journal[..i + 1][..i] == journal[..i];
    }
    assert journal[..|journal|] == journal;
  }
}
