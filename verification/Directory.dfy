/** Which matches the directory knows, and where. */
module Directory {
  import opened Wrappers
  import opened Matchmaking
  import LoadIndex

  // The step places a match under this ID: a full group, or an allocation that finds the
  // ID free and a server to put it on.
  predicate Places(s: State, st: Step, id: string) {
    match st
    case StepEnter(t, _, id', _) => id' == id && |QueueOf(s, t)| + 1 >= RequiredPlayers(t)
    case StepAllocate(id', servers) => id' == id && id !in s.active && PickLeast(s.loads, servers) != ""
    case _ => false
  }

  function TypeOf(st: Step): string {
    if st.StepEnter? then st.t else "allocated"
  }

  // A match is known after a step if and only if the step places it, or it was known and
  // the step is not its destruction. A match that is placed is where the least loaded
  // server was, and no other match moves.
  lemma StepDirectory(s: State, st: Step, id: string)
    ensures var s' := Next(s, st);
            && (id in s'.active <==> Places(s, st, id) || (id in s.active && st != StepDestroyed(id)))
            && (Places(s, st, id) ==> s'.active[id] == Dir(PickLeast(s.loads, st.servers), TypeOf(st)))
            && (id in s.active && id in s'.active && !Places(s, st, id) ==> s'.active[id] == s.active[id])
  {
    hide FirstOf, PickLeast;
  }

  // A placement adds one to the load of the server it chooses; a destruction takes one
  // from the server of the match; no step changes the load of any other server.
  lemma StepLoads(s: State, st: Step, server: string)
    requires LoadIndex.Exact(s)
    ensures var s' := Next(s, st);
            LoadOf(s'.loads, server)
            == LoadOf(s.loads, server)
               + (if exists id :: Places(s, st, id) && server == PickLeast(s.loads, st.servers) then 1 else 0)
               - (if st.StepDestroyed? && st.id in s.active && s.active[st.id].serverId == server then 1 else 0)
  {
    hide FirstOf, PickLeast;
    if st.StepEnter? || st.StepAllocate? {
      assert forall id :: Places(s, st, id) ==> id == st.id;
      assert Places(s, st, st.id) || !Places(s, st, st.id);
    } else if st.StepDestroyed? && st.id in s.active {
      var was := s.active[st.id].serverId;
      assert st.id in LoadIndex.On(s.active, was);
    }
  }

  // What an allocation answers, and what it leaves behind.
  lemma AllocateRecords(s: State, id: string, servers: seq<string>)
    ensures var answer, s' := AllocateAnswer(s, id, servers), Allocate(s, id, servers);
            && (answer == AlreadyExists <==> id in s.active)
            && (answer == NoServer <==> id !in s.active && PickLeast(s.loads, servers) == "")
            && (!answer.Allocated? ==> s' == s)
            && (answer.Allocated? ==>
                  && answer.serverId == PickLeast(s.loads, servers) && answer.serverId in servers
                  && id in s'.active && s'.active[id] == Dir(answer.serverId, "allocated")
                  && s'.active - {id} == s.active && s'.queues == s.queues
                  && LoadOf(s'.loads, answer.serverId) == LoadOf(s.loads, answer.serverId) + 1
                  && forall x | x != answer.serverId :: LoadOf(s'.loads, x) == LoadOf(s.loads, x))
  {
  }

  // A known match stays known through every run without its destruction, so every later
  // allocation of its ID is refused; its destruction ends that.
  lemma {:induction false} KnownUntilDestroyed(s: State, id: string, steps: seq<Step>, servers: seq<string>)
    requires id in s.active && StepDestroyed(id) !in steps
    ensures id in Run(s, steps).active
    ensures AllocateAnswer(Run(s, steps), id, servers) == AlreadyExists
    ensures id !in Destroyed(Run(s, steps), id).active
    ensures AllocateAnswer(Destroyed(Run(s, steps), id), id, servers) != AlreadyExists
    decreases |steps|
  {
    hide Next, PickLeast;
    if steps != [] {
      assert steps[0] in steps;
      StepDirectory(s, steps[0], id);
      KnownUntilDestroyed(Next(s, steps[0]), id, steps[1..], servers);
    }
  }

  // An allocation that succeeds is known from then on.
  lemma AllocatedOnce(s: State, id: string, servers: seq<string>, steps: seq<Step>, servers': seq<string>)
    requires AllocateAnswer(s, id, servers).Allocated? && StepDestroyed(id) !in steps
    ensures AllocateAnswer(Run(Allocate(s, id, servers), steps), id, servers') == AlreadyExists
  {
    AllocateRecords(s, id, servers);
    KnownUntilDestroyed(Allocate(s, id, servers), id, steps, servers');
  }

  // A full group is recorded under the new ID on the least loaded server and leaves the
  // queue, first come first served; a player who has to wait changes only the queue.
  lemma EnterRecords(s: State, t: string, p: Queued, id: string, servers: seq<string>)
    ensures var s', q := Enter(s, t, p, id, servers), QueueOf(s, t) + [p];
            && (forall t' | t' != t :: QueueOf(s', t') == QueueOf(s, t'))
            && (if |q| >= RequiredPlayers(t)
                then id in s'.active && s'.active[id] == Dir(PickLeast(s.loads, servers), t)
                     && s'.active - {id} == s.active - {id}
                     && QueueOf(s', t) == q[RequiredPlayers(t)..]
                else s'.active == s.active && s'.loads == s.loads && QueueOf(s', t) == q)
  {
  }

  // A group is two teams of the size the match type names; for any other type, a pair.
  lemma GroupsAreTwoTeams(t: string, team: nat)
    requires team == match t case "2v2" => 2 case "3v3" => 3 case "5v5" => 5 case _ => 1
    ensures RequiredPlayers(t) == 2 * team
  {
  }

  // A destroyed match is forgotten and no other; an unknown one changes nothing.
  lemma DestroyedForgets(s: State, id: string)
    ensures var s' := Destroyed(s, id);
            s'.active == s.active - {id} && s'.queues == s.queues && (id !in s.active ==> s' == s)
  {
  }

  // A forced leave takes out the player's first entry in that queue, if there is one, and
  // nothing else.
  lemma ForceLeaveRemovesFirst(s: State, t: string, player: int, i: nat)
    requires i < |QueueOf(s, t)| && QueueOf(s, t)[i].playerId == player
    requires forall j | 0 <= j < i :: QueueOf(s, t)[j].playerId != player
    ensures var s' := ForceLeave(s, t, player);
            && QueueOf(s', t) == Without(QueueOf(s, t), i)
            && (forall t' | t' != t :: QueueOf(s', t') == QueueOf(s, t'))
            && s'.active == s.active && s'.loads == s.loads
  {
    assert FirstOf(QueueOf(s, t), player) == i;
  }

  lemma ForceLeaveOfNobody(s: State, t: string, player: int)
    requires forall j | 0 <= j < |QueueOf(s, t)| :: QueueOf(s, t)[j].playerId != player
    ensures ForceLeave(s, t, player) == s
  {
    assert FirstOf(QueueOf(s, t), player) == |QueueOf(s, t)|;
  }
}
