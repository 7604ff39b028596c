/** RoomSvr as the source has it: a table of member lists, search loops, a broadcast loop. */
module RoomServer {
  import opened Rooms

  class Server {
    var rooms: Table
    var sent: seq<Push>
    var destroyed: seq<string>

    constructor ()
      ensures rooms == map[] && sent == [] && destroyed == []
    {
      rooms, sent, destroyed := map[], [], [];
    }

    method Find(players: seq<Member>, p: string) returns (i: nat)
      ensures i == IndexOf(Ids(players), p)
    {
      i := 0;
      while i < |players| && players[i].playerId != p
        invariant i <= |players| && forall j | 0 <= j < i :: players[j].playerId != p
      {
        i := i + 1;
      }
      assert i < |players| ==> Ids(players)[i] == p;
      assert forall j | 0 <= j < i :: Ids(players)[j] != p;
    }

    method BroadcastRoomEvent(m: string, members: seq<Member>, e: Event)
      modifies this`sent
      ensures sent == old(sent) + Broadcast(m, members, e)
    {
      var all := Broadcast(m, members, e);
      for i := 0 to |members|
        invariant sent == old(sent) + all[..i]
      {
        sent := sent + [Push(members[i], m, e)];
      }
      assert all[..|members|] == all;
    }

    // `ok` is the success flag of the reply; the reply is an error for a player who
    // is already in the room.
    method HandleJoin(m: string, x: Member) returns (ok: bool)
      modifies this`rooms, this`sent
      ensures var o := Join(old(rooms), m, x);
              && ok == (x.playerId !in Ids(RoomOf(old(rooms), m)))
              && rooms == o.rooms && sent == old(sent) + o.pushes
    {
      var players := if m in rooms then rooms[m] else [];
      rooms := rooms[m := players];
      var i := Find(players, x.playerId);
      if i < |players| {
        return false;
      }
      players := players + [x];
      rooms := rooms[m := players];
      if |players| > 1 {
        BroadcastRoomEvent(m, players[..|players| - 1], Joined(x.playerId, |players|));
      }
      assert players[..|players| - 1] == RoomOf(old(rooms), m);
      return true;
    }

    // `replyTo` is the client the leave reply is for, as known to the room.
    method HandleLeave(m: string, p: string) returns (left: bool, replyTo: nat)
      modifies this`rooms, this`sent, this`destroyed
      ensures var o, room := Leave(old(rooms), m, p), RoomOf(old(rooms), m);
              && rooms == o.rooms && sent == old(sent) + o.pushes
              && destroyed == old(destroyed) + (if o.destroyed then [m] else [])
              && left == (p in Ids(room))
              && (left ==> replyTo == room[IndexOf(Ids(room), p)].senderId)
    {
      if m !in rooms {
        return false, 0;
      }
      var players := rooms[m];
      var idx := Find(players, p);
      if idx == |players| {
        return false, 0;
      }
      var leftPlayer := players[idx];
      players := players[..idx] + players[idx + 1..];
      if |players| == 0 {
        rooms := rooms - {m};
        destroyed := destroyed + [m];
      } else {
        rooms := rooms[m := players];
        BroadcastRoomEvent(m, players, Left(p, |players|));
      }
      return true, leftPlayer.senderId;
    }

    // Sent by SessionSvr when a session's TTL runs out.
    method HandleForceLeave(m: string, p: string) returns (left: bool, replyTo: nat)
      modifies this`rooms, this`sent, this`destroyed
      ensures var o, room := Leave(old(rooms), m, p), RoomOf(old(rooms), m);
              && rooms == o.rooms && sent == old(sent) + o.pushes
              && destroyed == old(destroyed) + (if o.destroyed then [m] else [])
              && left == (p in Ids(room))
              && (left ==> replyTo == room[IndexOf(Ids(room), p)].senderId)
    {
      if m !in rooms {
        return false, 0;
      }
      var players := rooms[m];
      var idx := Find(players, p);
      if idx == |players| {
        return false, 0;
      }
      var leftPlayer := players[idx];
      players := players[..idx] + players[idx + 1..];
      if |players| == 0 {
        rooms := rooms - {m};
        destroyed := destroyed + [m];
      } else {
        rooms := rooms[m := players];
        BroadcastRoomEvent(m, players, Left(p, |players|));
      }
      return true, leftPlayer.senderId;
    }

    method HandleReconnected(m: string, x: Member)
      modifies this`rooms
      ensures rooms == Reconnected(old(rooms), m, x).rooms
    {
      if m !in rooms {
        return;
      }
      var players := rooms[m];
      var i := Find(players, x.playerId);
      if i < |players| {
        players := players[i := Member(players[i].playerId, x.conn, x.senderId)];
        rooms := rooms[m := players];
      }
    }
  }
}
