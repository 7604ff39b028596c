/**
 The gateway's side of the session protocol. `Gw` is what one gateway knows about one
 player; the functions say what each callback does to it and which messages it sends
 to SessionSvr. `up` is whether the registry finds a connection to SessionSvr.
 */
module Gateways {
  import opened Wrappers
  import opened Sessions

  // connkey.SyncTagKeys.
  const SYNC_KEYS: seq<string> := [TAG_ROOM_SVR_ID, TAG_MATCH_ID, TAG_MATCH_TYPE]

  // current: the player's entry in PlayerConns. props: the string properties of every
  // open client connection. waiting and queued: an entry in pendingSessionGets and in
  // pendingDisconnects. released: a CheckReconnect has been signalled and has not gone on.
  datatype Gw = Gw(current: Option<nat>, props: map<nat, Tags>, waiting: bool, released: bool, queued: bool)

  // What a gateway sends to SessionSvr; its ID and the player go with each.
  datatype Up = Get | SaveTags(tags: Tags) | MarkDown | Recon

  datatype Result = Result(gw: Gw, sent: seq<Up>)

  function Collect(props: Tags): Tags {
    map k | k in props && k in SYNC_KEYS && props[k] != "" :: props[k]
  }

  // OnConnStart with CheckReconnect's request.
  function Connect(gw: Gw, c: nat, up: bool): Result {
    Result(gw.(current := Some(c), props := gw.props[c := map[]], waiting := gw.waiting || up),
           if up then [Get] else [])
  }

  // CheckReconnect giving up.
  function Timeout(gw: Gw): Gw {
    gw.(waiting := false)
  }

  // CheckReconnect going on after its signal: it drops the queued disconnect and
  // whatever waits under the player's name.
  function Proceed(gw: Gw): Gw {
    gw.(waiting := false, released := false, queued := false)
  }

  // MarkDisconnected.
  function Mark(gw: Gw, up: bool): Result {
    if up then Result(gw, [MarkDown]) else Result(gw.(queued := true), [])
  }

  // OnConnStop: the PlayerConns entry goes whichever connection it names.
  function Stop(gw: Gw, c: nat, up: bool): Result {
    Mark(gw.(current := None, props := gw.props - {c}), up)
  }

  // HandleSessionGet, for replies to Get and to Reconnect alike.
  function Reply(gw: Gw, s: Session, up: bool): Result {
    var gw1 := gw.(waiting := false, released := gw.released || gw.waiting);
    if gw.current.None? || gw.current.value !in gw.props then Result(gw1, [])
    else
      var c := gw.current.value;
      if s.disconnectedAt != 0 then
        Result(gw1.(props := gw.props[c := gw.props[c] + s.connTags]), if up then [Recon] else [])
      else Result(gw1, if up then [SaveTags(Collect(gw.props[c]))] else [])
  }

  // HandleSessionInvalidate at gateway `id`, naming the gateway that was left. It stops
  // the connection as well, whose OnConnStop runs by itself some time later.
  function Forget(gw: Gw, id: string, left: string): Gw {
    if left != id then gw else gw.(current := None)
  }

  // retryPendingDisconnects.
  function Retry(gw: Gw, up: bool): Result {
    if gw.queued && up then Result(gw.(queued := false), [MarkDown]) else Result(gw, [])
  }

  // A backend response sets tags on a connection, and SyncSessionTags pushes them.
  function ApplyTags(gw: Gw, c: nat, tags: Tags, up: bool): Result
    requires c in gw.props
  {
    if tags == map[] then Result(gw, [])
    else
      var props := gw.props[c] + tags;
      Result(gw.(props := gw.props[c := props]),
             if up && Collect(props) != map[] then [SaveTags(Collect(props))] else [])
  }

  // Only keys that are synced, and no empty values: what Collect produces and keeps.
  predicate Syncable(tags: Tags) {
    forall k | k in tags :: k in SYNC_KEYS && tags[k] != ""
  }

  // The synced tags are the room server, the match and the match type, when not empty.
  lemma CollectKeepsIff(props: Tags, k: string, v: string)
    ensures k in Collect(props) && Collect(props)[k] == v
            <==> k in props && props[k] == v && v != "" && (k == "room_server_id" || k == "match_id" || k == "match_type")
  {
  }

  lemma CollectIsSyncable(props: Tags)
    ensures Syncable(Collect(props))
    ensures Syncable(props) <==> Collect(props) == props
  {
  }
}

/** The gateway object: tables over all its players, and the callbacks that change them. */
module GatewayServer {
  import opened Wrappers
  import opened Sessions
  import opened Gateways

  datatype Sent = Sent(player: PlayerId, m: Up)

  // The reconnect notice to RoomSvr.
  datatype RoomNotice = RoomNotice(player: PlayerId, matchId: string, key: string, conn: nat)

  function SentBy(p: PlayerId, ms: seq<Up>): (sent: seq<Sent>)
    ensures |sent| == |ms| && forall i | 0 <= i < |ms| :: sent[i].player == p && sent[i].m == ms[i]
  {
    seq(|ms|, i requires 0 <= i < |ms| => Sent(p, ms[i]))
  }

  // The room of a restored session, if it has one, is told the new connection. The
  // notice is routed by server ID, or by match ID when there is none.
  function RoomNotices(p: PlayerId, c: nat, tags: Tags): seq<RoomNotice> {
    var matchId, server := Tag(tags, TAG_MATCH_ID), Tag(tags, TAG_ROOM_SVR_ID);
    if matchId == "" then [] else [RoomNotice(p, matchId, if server == "" then matchId else server, c)]
  }

  // A restored session with a match causes one notice, about that match and that
  // connection; without a match none.
  lemma RoomNoticesSay(p: PlayerId, c: nat, tags: Tags, n: RoomNotice)
    ensures n in RoomNotices(p, c, tags) <==>
              && n.player == p && n.conn == c && n.matchId == Tag(tags, "match_id") && n.matchId != ""
              && n.key == if Tag(tags, "room_server_id") == "" then n.matchId else Tag(tags, "room_server_id")
    ensures |RoomNotices(p, c, tags)| <= 1
  {
  }

  class Server {
    const id: string
    var playerConns: map<PlayerId, nat>
    var props: map<nat, Tags>
    var waiting: set<PlayerId>
    var released: set<PlayerId>
    var queued: set<PlayerId>
    var sent: seq<Sent>
    var toRooms: seq<RoomNotice>

    constructor (id: string)
      ensures this.id == id && sent == [] && toRooms == []
      ensures forall p :: View(p) == Gw(None, map[], false, false, false)
    {
      this.id := id;
      playerConns, props, waiting, released, queued, sent, toRooms := map[], map[], {}, {}, {}, [], [];
    }

    ghost function View(p: PlayerId): Gw
      reads this
    {
      Gw(if p in playerConns then Some(playerConns[p]) else None, props, p in waiting, p in released, p in queued)
    }

    // Only player p's entries may differ from before, apart from connection properties.
    twostate predicate OthersUntouched(p: PlayerId)
      reads this
    {
      forall q | q != p :: View(q) == old(View(q)).(props := props)
    }

    method OnConnStart(p: PlayerId, c: nat, up: bool)
      modifies this
      ensures View(p) == Connect(old(View(p)), c, up).gw && OthersUntouched(p)
      ensures sent == old(sent) + SentBy(p, Connect(old(View(p)), c, up).sent)
    {
      props := props[c := map[]];
      playerConns := playerConns[p := c];
      if up {
        waiting := waiting + {p};
        sent := sent + [Sent(p, Get)];
      }
    }

    // CheckReconnect gives up waiting.
    method TimeOut(p: PlayerId)
      modifies this`waiting
      ensures View(p) == Timeout(old(View(p))) && OthersUntouched(p)
    {
      waiting := waiting - {p};
    }

    // CheckReconnect goes on after HandleSessionGet has signalled it.
    method GoOn(p: PlayerId)
      modifies this`waiting, this`released, this`queued
      ensures View(p) == Proceed(old(View(p))) && OthersUntouched(p)
    {
      released := released - {p};
      queued := queued - {p};
      waiting := waiting - {p};
    }

    method MarkDisconnected(p: PlayerId, up: bool)
      modifies this`queued, this`sent
      ensures View(p) == Mark(old(View(p)), up).gw && OthersUntouched(p)
      ensures sent == old(sent) + SentBy(p, Mark(old(View(p)), up).sent)
    {
      if !up {
        queued := queued + {p};
        return;
      }
      sent := sent + [Sent(p, MarkDown)];
    }

    method OnConnStop(p: PlayerId, c: nat, up: bool)
      modifies this
      ensures View(p) == Stop(old(View(p)), c, up).gw && OthersUntouched(p)
      ensures sent == old(sent) + SentBy(p, Stop(old(View(p)), c, up).sent)
    {
      playerConns := playerConns - {p};
      props := props - {c};
      MarkDisconnected(p, up);
    }

    method CollectTags(c: nat) returns (tags: Tags)
      requires c in props
      ensures tags == Collect(props[c])
    {
      tags := map[];
      for i := 0 to |SYNC_KEYS|
        invariant tags == map k | k in props[c] && k in SYNC_KEYS[..i] && props[c][k] != "" :: props[c][k]
      {
        var key := SYNC_KEYS[i];
        if key in props[c] && props[c][key] != "" {
          tags := tags[key := props[c][key]];
        }
        assert SYNC_KEYS[..i + 1] == SYNC_KEYS[..i] + [key];
      }
      assert SYNC_KEYS[..|SYNC_KEYS|] == SYNC_KEYS;
    }

    // The connection's properties take the session's tags one by one.
    method RestoreTags(c: nat, tags: Tags)
      requires c in props
      modifies this`props
      ensures props == old(props)[c := old(props)[c] + tags]
    {
      var conn, todo := props[c], tags.Keys;
      while todo != {}
        invariant todo <= tags.Keys
        invariant props == old(props) && conn == old(props)[c] + (tags - todo)
        decreases todo
      {
        var k := Pick(todo);
        conn := conn[k := tags[k]];
        todo := todo - {k};
      }
      assert tags - todo == tags;
      props := props[c := conn];
    }

    method Signal(p: PlayerId)
      modifies this`waiting, this`released
      ensures View(p) == old(View(p)).(waiting := false, released := old(View(p)).released || old(View(p)).waiting)
      ensures OthersUntouched(p)
    {
      if p in waiting {
        waiting, released := waiting - {p}, released + {p};
      }
    }

    // A session marked disconnected goes back onto the connection.
    method Restore(p: PlayerId, c: nat, s: Session, up: bool)
      requires c in props
      modifies this`props, this`sent, this`toRooms
      ensures props == old(props)[c := old(props)[c] + s.connTags]
      ensures toRooms == old(toRooms) + RoomNotices(p, c, s.connTags)
      ensures sent == old(sent) + if up then [Sent(p, Recon)] else []
    {
      RestoreTags(c, s.connTags);
      var matchId, server := Tag(s.connTags, TAG_MATCH_ID), Tag(s.connTags, TAG_ROOM_SVR_ID);
      if matchId != "" {
        toRooms := toRooms + [RoomNotice(p, matchId, if server == "" then matchId else server, c)];
      }
      if up {
        sent := sent + [Sent(p, Recon)];
      }
    }

    method HandleSessionGet(p: PlayerId, s: Session, up: bool)
      modifies this
      ensures View(p) == Reply(old(View(p)), s, up).gw && OthersUntouched(p)
      ensures sent == old(sent) + SentBy(p, Reply(old(View(p)), s, up).sent)
      ensures toRooms == old(toRooms)
                         + if p in old(playerConns) && old(playerConns[p]) in old(props) && s.disconnectedAt != 0
                           then RoomNotices(p, old(playerConns[p]), s.connTags) else []
    {
      hide Collect, RoomNotices;
      Signal(p);
      if p !in playerConns || playerConns[p] !in props {
        return;
      }
      var c := playerConns[p];
      if s.disconnectedAt != 0 {
        Restore(p, c, s, up);
      } else {
        var tags := CollectTags(c);
        if up {
          sent := sent + [Sent(p, SaveTags(tags))];
        }
      }
    }

    // `stops` is the connection it stops.
    method HandleSessionInvalidate(p: PlayerId, left: string) returns (stops: Option<nat>)
      modifies this`playerConns
      ensures View(p) == (if p == 0 then old(View(p)) else Forget(old(View(p)), id, left)) && OthersUntouched(p)
      ensures stops == if left == id && p != 0 && p in old(playerConns) && old(playerConns[p]) in props
                       then Some(old(playerConns[p])) else None
    {
      if left != id || p == 0 || p !in playerConns {
        return None;
      }
      var c := playerConns[p];
      playerConns := playerConns - {p};
      if c !in props {
        return None;
      }
      return Some(c);
    }

    // The connection's tags, if it has any and a player, are saved.
    method SyncSessionTags(q: PlayerId, c: nat, up: bool)
      requires c in props
      modifies this`sent
      ensures sent == old(sent)
                      + if q != 0 && up && Collect(props[c]) != map[] then [Sent(q, SaveTags(Collect(props[c])))] else []
    {
      hide Collect;
      if q == 0 {
        return;
      }
      var tags := CollectTags(c);
      if |tags| == 0 {
        return;
      }
      if up {
        sent := sent + [Sent(q, SaveTags(tags))];
      }
    }

    // applyConnTags, with the tags it saves, for a connection of player p. `named` is
    // the number in the tag that makes the connection another player's, if there is one.
    method ApplyConnTags(p: PlayerId, c: nat, tags: Tags, named: Option<PlayerId>, up: bool)
      requires c in props && (named.Some? ==> tags != map[])
      modifies this`props, this`playerConns, this`sent
      ensures props == old(props)[c := old(props)[c] + tags]
      ensures playerConns == if named.Some? then old(playerConns)[named.value := c] else old(playerConns)
      ensures var q := if named.Some? then named.value else p;
              sent == old(sent) + SentBy(q, if q == 0 then [] else ApplyTags(old(View(q)), c, tags, up).sent)
    {
      hide Collect;
      if |tags| == 0 {
        NothingApplied(c);
        return;
      }
      RestoreTags(c, tags);
      var q := p;
      if named.Some? {
        playerConns := playerConns[named.value := c];
        q := named.value;
      }
      SyncSessionTags(q, c, up);
    }

    lemma NothingApplied(c: nat)
      requires c in props
      ensures props == props[c := props[c] + map[]]
    {
      assert props[c] + map[] == props[c];
    }

    // One tick of the retry loop, in whatever order the queue is walked.
    method RetryPendingDisconnects(up: bool) returns (ghost order: seq<PlayerId>)
      modifies this`queued, this`sent
      ensures forall p :: View(p) == Retry(old(View(p)), up).gw
      ensures |order| == (if up then |old(queued)| else 0) && (forall p | p in order :: p in old(queued))
      ensures forall p | p in old(queued) :: up ==> p in order
      ensures sent == old(sent) + seq(|order|, i requires 0 <= i < |order| => Sent(order[i], MarkDown))
    {
      order := [];
      var todo := queued;
      while todo != {}
        invariant todo <= queued <= old(queued)
        invariant queued == if up then todo else old(queued)
        invariant |order| == (if up then |old(queued)| - |todo| else 0)
        invariant forall p | p in order :: p in old(queued) && p !in todo
        invariant forall p | p in old(queued) && p !in todo :: up ==> p in order
        invariant sent == old(sent) + seq(|order|, i requires 0 <= i < |order| => Sent(order[i], MarkDown))
        decreases todo
      {
        var p := Pick(todo);
        if up {
          sent := sent + [Sent(p, MarkDown)];
          queued := queued - {p};
          order := order + [p];
        }
        todo := todo - {p};
      }
    }
  }
}
