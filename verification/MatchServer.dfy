/** MatchSvr as the source has it: three tables updated by handlers and search loops. */
module MatchServer {
  import opened Matchmaking

  datatype Push = MatchResult(conn: nat, senderId: nat, matchId: string, serverId: string, matchType: string, players: seq<int>)

  // One result per member, each naming the whole group.
  function Results(group: seq<Queued>, id: string, server: string, t: string): (pushes: seq<Push>)
    ensures |pushes| == |group|
    ensures forall i | 0 <= i < |group| ::
              && pushes[i].conn == group[i].conn && pushes[i].senderId == group[i].senderId
              && pushes[i].matchId == id && pushes[i].serverId == server && pushes[i].matchType == t
              && |pushes[i].players| == |group|
              && forall j | 0 <= j < |group| :: pushes[i].players[j] == group[j].playerId
  {
    seq(|group|, i requires 0 <= i < |group| =>
      MatchResult(group[i].conn, group[i].senderId, id, server, t, PlayerIds(group)))
  }

  function PlayerIds(group: seq<Queued>): (ids: seq<int>)
    ensures |ids| == |group| && forall i | 0 <= i < |group| :: ids[i] == group[i].playerId
  {
    seq(|group|, i requires 0 <= i < |group| => group[i].playerId)
  }

  class Server {
    var activeMatches: map<string, Dir>
    var queues: map<string, seq<Queued>>
    var loadCounts: map<string, int>
    var sent: seq<Push>

    ghost function Value(): State
      reads this
    {
      State(activeMatches, queues, loadCounts)
    }

    constructor ()
      ensures Value() == EMPTY && sent == []
    {
      activeMatches, queues, loadCounts, sent := map[], map[], map[], [];
    }

    // A least loaded server, the first one listed; "" if there is none.
    method PickLeastLoaded(servers: seq<string>) returns (best: string)
      ensures best == PickLeast(loadCounts, servers)
      ensures best != "" ==> best in servers && forall s | s in servers :: LoadOf(loadCounts, best) <= LoadOf(loadCounts, s)
    {
      if servers == [] {
        return "";
      }
      best := "";
      var minCount := MAX_INT;
      ghost var k := 0;
      for i := 0 to |servers|
        invariant k <= i
        invariant forall j | 0 <= j < i :: minCount <= LoadOf(loadCounts, servers[j])
        invariant if minCount == MAX_INT then best == ""
                  else k < i && minCount < MAX_INT && best == servers[k] && LoadOf(loadCounts, best) == minCount
        invariant minCount < MAX_INT ==> forall j | 0 <= j < k :: minCount < LoadOf(loadCounts, servers[j])
      {
        var count := 0;
        if servers[i] in loadCounts {
          count := loadCounts[servers[i]];
        }
        if count < minCount {
          minCount, best, k := count, servers[i], i;
        }
      }
      var least := LeastIndex(loadCounts, servers);
      assert minCount < MAX_INT ==> least == k;
    }

    method IncreaseLoad(server: string)
      modifies this`loadCounts
      ensures loadCounts == IncLoad(old(loadCounts), server)
    {
      var v := 0;
      if server in loadCounts {
        v := loadCounts[server];
      }
      loadCounts := loadCounts[server := v + 1];
    }

    method DecreaseLoad(server: string)
      modifies this`loadCounts
      ensures loadCounts == DecLoad(old(loadCounts), server)
    {
      if server in loadCounts {
        var count := loadCounts[server] - 1;
        if count <= 0 {
          loadCounts := loadCounts - {server};
        } else {
          loadCounts := loadCounts[server := count];
        }
      }
    }

    method MatchPool(t: string, group: seq<Queued>, id: string, servers: seq<string>)
      modifies this
      ensures Value() == Place(old(Value()), id, t, PickLeast(old(loadCounts), servers))
      ensures sent == old(sent) + Results(group, id, PickLeast(old(loadCounts), servers), t)
    {
      var server := PickLeastLoaded(servers);
      activeMatches := activeMatches[id := Dir(server, t)];
      IncreaseLoad(server);
      var all := Results(group, id, server, t);
      for i := 0 to |group|
        invariant Value() == Place(old(Value()), id, t, server)
        invariant sent == old(sent) + all[..i]
      {
        var p := group[i];
        sent := sent + [MatchResult(p.conn, p.senderId, id, server, t, PlayerIds(group))];
      }
      assert all[..|group|] == all;
    }

    // `waiting` is the queue size reported to a player who has to wait.
    method HandleEnter(t: string, p: Queued, id: string, servers: seq<string>) returns (waiting: int)
      modifies this
      ensures Value() == Enter(old(Value()), t, p, id, servers)
      ensures var pool := QueueOf(old(Value()), t) + [p];
              if EnterMatches(old(Value()), t)
              then sent == old(sent) + Results(pool[..RequiredPlayers(t)], id, PickLeast(old(loadCounts), servers), t)
              else sent == old(sent) && waiting == |pool|
    {
      var pool := if t in queues then queues[t] else [];
      pool := pool + [p];
      queues := queues[t := pool];
      var needed := RequiredPlayers(t);
      if |pool| >= needed {
        MatchPool(t, pool[..needed], id, servers);
        queues := queues[t := pool[needed..]];
        return 0;
      }
      return |pool|;
    }

    method HandleAllocate(id: string, servers: seq<string>) returns (answer: AllocateResult)
      modifies this`activeMatches, this`loadCounts
      ensures Value() == Allocate(old(Value()), id, servers)
      ensures answer == AllocateAnswer(old(Value()), id, servers)
    {
      if id in activeMatches {
        return AlreadyExists;
      }
      var server := PickLeastLoaded(servers);
      if server == "" {
        return NoServer;
      }
      activeMatches := activeMatches[id := Dir(server, "allocated")];
      IncreaseLoad(server);
      return Allocated(server);
    }

    // A repeated or unknown notification changes nothing.
    method HandleDestroyed(id: string)
      modifies this`activeMatches, this`loadCounts
      ensures Value() == Destroyed(old(Value()), id) && id !in activeMatches
      ensures id !in old(activeMatches) ==> Value() == old(Value())
    {
      if id !in activeMatches {
        return;
      }
      var dir := activeMatches[id];
      activeMatches := activeMatches - {id};
      DecreaseLoad(dir.serverId);
    }

    method HandleForceLeaveQueue(t: string, player: int)
      modifies this`queues
      ensures Value() == ForceLeave(old(Value()), t, player)
    {
      if t !in queues {
        return;
      }
      var pool := queues[t];
      for i := 0 to |pool|
        invariant queues == old(queues)
        invariant forall j | 0 <= j < i :: pool[j].playerId != player
      {
        if pool[i].playerId == player {
          assert i == FirstOf(pool, player);
          queues := queues[t := pool[..i] + pool[i + 1..]];
          return;
        }
      }
      assert FirstOf(pool, player) == |pool|;
    }
  }
}
