/**
 The session table of SessionSvr as values: what the live handlers do to one
 player's session, what the journal replayer does with the entry they wrote, and
 the lifting of both to the whole table. The two are different code in the
 source, so they are different functions here.

 Tags: a nil map and an empty one are the same value. Both encodings drop an empty
 map (protobuf has no presence for maps, and the journal and snapshot fields are
 `omitempty`), so every tag map the server ever holds is nil or non-empty.
 */
module Sessions {
  import opened Wrappers

  // The int64 identity a token carries; only ever compared.
  type PlayerId = int
  type Tags = map<string, string>

  const TAG_ROOM_SVR_ID := "room_server_id"
  const TAG_MATCH_ID := "match_id"
  const TAG_MATCH_TYPE := "match_type"

  // A missing tag reads as the empty string.
  function Tag(tags: Tags, key: string): string {
    if key in tags then tags[key] else ""
  }

  // SessionTTL, in seconds.
  const TTL: int := 120

  // disconnectedAt is a unix timestamp; 0 means connected.
  datatype Session = Session(gatewayId: string, connTags: Tags, disconnectedAt: int)

  // What LoadOrStore puts in the table for a player it has not seen.
  const FRESH: Session := Session("", map[], 0)

  type Table = map<PlayerId, Session>

  // A message as a handler sees it, and the journal entry it writes if it accepts
  // the message: both carry the same fields. `at` is the handler's clock reading.
  datatype Entry =
    | Save(player: PlayerId, gateway: string, tags: Tags)
    | Disconnect(player: PlayerId, gateway: string, tags: Tags, at: int)
    | Reconnect(player: PlayerId, gateway: string, tags: Tags)

  // ---- one player ----

  // A disconnect from a gateway the player has already left.
  predicate Stale(s: Session, gateway: string) {
    s.gatewayId != "" && s.gatewayId != gateway
  }

  function MarkDown(s: Session, gateway: string, tags: Tags, at: int): Session {
    Session(if s.gatewayId == "" then gateway else s.gatewayId,
            if s.connTags == map[] then tags else s.connTags,
            at)
  }

  function Attach(s: Session, gateway: string, tags: Tags): Session {
    Session(gateway, if tags != map[] then tags else s.connTags, 0)
  }

  // handleSave, handleDisconnect and handleReconnect on the sender's own session.
  function Live(o: Option<Session>, e: Entry): Option<Session> {
    match e
    case Save(_, g, t) => Some(Session(g, t, 0))
    case Disconnect(_, g, t, at) =>
      var s := if o.Some? then o.value else FRESH;
      if Stale(s, g) then o else Some(MarkDown(s, g, t, at))
    case Reconnect(_, g, t) =>
      if o.None? then None else Some(Attach(o.value, g, t))
  }

  // Whether the handler gets as far as its journalAppend.
  predicate Accepted(o: Option<Session>, e: Entry) {
    match e
    case Save(_, _, _) => true
    case Disconnect(_, g, _, _) => o.None? || !Stale(o.value, g)
    case Reconnect(_, _, _) => o.Some?
  }

  // replaySession on the same session.
  function Replay(o: Option<Session>, e: Entry): Option<Session> {
    match e
    case Save(_, g, t) => Some(Attach(if o.Some? then o.value else FRESH, g, t))
    case Disconnect(_, g, t, at) =>
      if o.None? || Stale(o.value, g) then o
      else Some(MarkDown(o.value, g, t, if at != 0 then at else o.value.disconnectedAt))
    case Reconnect(_, g, t) =>
      if o.None? then None else Some(Attach(o.value, g, t))
  }

  predicate Expired(s: Session, now: int) {
    s.disconnectedAt != 0 && now - s.disconnectedAt >= TTL
  }

  // ---- the whole table ----

  function Lookup(m: Table, p: PlayerId): Option<Session> {
    if p in m then Some(m[p]) else None
  }

  function Put(m: Table, p: PlayerId, o: Option<Session>): Table {
    if o.Some? then m[p := o.value] else m - {p}
  }

  function Handle(m: Table, e: Entry): Table {
    Put(m, e.player, Live(Lookup(m, e.player), e))
  }

  function ReplayEntry(m: Table, e: Entry): Table {
    Put(m, e.player, Replay(Lookup(m, e.player), e))
  }

  function ReplayAll(m: Table, j: seq<Entry>): Table {
    if j == [] then m else ReplayEntry(ReplayAll(m, j[..|j| - 1]), j[|j| - 1])
  }

  // One pass of the expiry scanner that nothing interrupts.
  function Scan(m: Table, now: int): Table {
    map p | p in m && !Expired(m[p], now) :: m[p]
  }

  // A scan keeps exactly the sessions that are connected or marked less than two minutes
  // ago, and changes none of them.
  lemma ScanKeepsIff(m: Table, now: int, p: PlayerId)
    ensures p in Scan(m, now)
            <==> p in m && (m[p].disconnectedAt == 0 || now < m[p].disconnectedAt + 120)
    ensures p in Scan(m, now) ==> Scan(m, now)[p] == m[p]
  {
  }

  // ---- one player's share of a journal ----

  function Of(j: seq<Entry>, p: PlayerId): (k: seq<Entry>)
    ensures |k| <= |j|
    ensures forall i | 0 <= i < |k| :: k[i].player == p
  {
    if j == [] then []
    else
      var k := Of(j[..|j| - 1], p);
      if j[|j| - 1].player == p then k + [j[|j| - 1]] else k
  }

  function Fold(o: Option<Session>, k: seq<Entry>): Option<Session> {
    if k == [] then o else Replay(Fold(o, k[..|k| - 1]), k[|k| - 1])
  }

  lemma OfAppend(j: seq<Entry>, e: Entry, p: PlayerId)
    ensures Of(j + [e], p) == if e.player == p then Of(j, p) + [e] else Of(j, p)
  {
  }

  lemma FoldAppend(o: Option<Session>, k: seq<Entry>, e: Entry)
    ensures Fold(o, k + [e]) == Replay(Fold(o, k), e)
  {
  }

  // Replaying a journal over a table is, player by player, replaying that player's
  // own entries: no entry leaks into another player's session.
  lemma {:induction false} ReplayIsPerPlayer(m: Table, j: seq<Entry>, p: PlayerId)
    ensures Lookup(ReplayAll(m, j), p) == Fold(Lookup(m, p), Of(j, p))
  {
    if j != [] {
      var front, e := j[..|j| - 1], j[|j| - 1];
      ReplayIsPerPlayer(m, front, p);
      FoldAppend(Lookup(m, p), Of(front, p), e);
    }
  }
}
