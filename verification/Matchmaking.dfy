/**
 MatchSvr's state as values: the queue of each match type, the directory of active
 matches and the load index, one function per handler. A handler is one atomic step.
 */
module Matchmaking {
  import opened Wrappers

  datatype Dir = Dir(serverId: string, matchType: string)
  datatype Queued = Queued(playerId: int, elo: int, conn: nat, senderId: nat)

  datatype State = State(active: map<string, Dir>, queues: map<string, seq<Queued>>, loads: map<string, int>)

  const EMPTY: State := State(map[], map[], map[])

  // The largest Go int, the scan's starting minimum.
  const MAX_INT: int := 0x7FFF_FFFF_FFFF_FFFF

  function RequiredPlayers(matchType: string): (n: nat)
    ensures n >= 2
  {
    if matchType == "2v2" then 4
    else if matchType == "3v3" then 6
    else if matchType == "5v5" then 10
    else 2
  }

  function QueueOf(s: State, t: string): seq<Queued> {
    if t in s.queues then s.queues[t] else []
  }

  function LoadOf(loads: map<string, int>, server: string): int {
    if server in loads then loads[server] else 0
  }

  function IncLoad(loads: map<string, int>, server: string): map<string, int> {
    loads[server := LoadOf(loads, server) + 1]
  }

  function DecLoad(loads: map<string, int>, server: string): map<string, int> {
    if server !in loads then loads
    else if loads[server] - 1 <= 0 then loads - {server}
    else loads[server := loads[server] - 1]
  }

  // The first of the least loaded.
  function LeastIndex(loads: map<string, int>, servers: seq<string>): (k: nat)
    requires servers != []
    ensures k < |servers|
    ensures forall i | 0 <= i < |servers| :: LoadOf(loads, servers[k]) <= LoadOf(loads, servers[i])
    ensures forall i | 0 <= i < k :: LoadOf(loads, servers[k]) < LoadOf(loads, servers[i])
  {
    if |servers| == 1 then 0
    else
      var front, last := servers[..|servers| - 1], servers[|servers| - 1];
      var k := LeastIndex(loads, front);
      assert forall i | 0 <= i < |front| :: front[i] == servers[i];
      if LoadOf(loads, last) < LoadOf(loads, front[k]) then |servers| - 1 else k
  }

  function PickLeast(loads: map<string, int>, servers: seq<string>): string {
    if servers == [] then ""
    else
      var s := servers[LeastIndex(loads, servers)];
      if LoadOf(loads, s) < MAX_INT then s else ""
  }

  function Place(s: State, id: string, t: string, server: string): State {
    s.(active := s.active[id := Dir(server, t)], loads := IncLoad(s.loads, server))
  }

  // handleEnter; `id` is the match ID it would generate from the clock.
  function Enter(s: State, t: string, p: Queued, id: string, servers: seq<string>): State {
    var pool := QueueOf(s, t) + [p];
    var n := RequiredPlayers(t);
    if |pool| >= n then
      Place(s, id, t, PickLeast(s.loads, servers)).(queues := s.queues[t := pool[n..]])
    else s.(queues := s.queues[t := pool])
  }

  predicate EnterMatches(s: State, t: string) {
    |QueueOf(s, t)| + 1 >= RequiredPlayers(t)
  }

  datatype AllocateResult = Allocated(serverId: string) | AlreadyExists | NoServer

  function AllocateAnswer(s: State, id: string, servers: seq<string>): AllocateResult {
    if id in s.active then AlreadyExists
    else if PickLeast(s.loads, servers) == "" then NoServer
    else Allocated(PickLeast(s.loads, servers))
  }

  function Allocate(s: State, id: string, servers: seq<string>): State {
    if AllocateAnswer(s, id, servers).Allocated? then Place(s, id, "allocated", PickLeast(s.loads, servers)) else s
  }

  function Destroyed(s: State, id: string): State {
    if id in s.active then
      s.(active := s.active - {id}, loads := DecLoad(s.loads, s.active[id].serverId))
    else s
  }

  // The first waiting entry of a player, or the queue's length.
  function FirstOf(q: seq<Queued>, player: int): (i: nat)
    ensures i <= |q| && (i < |q| ==> q[i].playerId == player)
    ensures forall j | 0 <= j < i :: q[j].playerId != player
  {
    if q == [] || q[0].playerId == player then 0 else 1 + FirstOf(q[1..], player)
  }

  function ForceLeave(s: State, t: string, player: int): State {
    var q := QueueOf(s, t);
    var i := FirstOf(q, player);
    if i < |q| then s.(queues := s.queues[t := q[..i] + q[i + 1..]]) else s
  }

  datatype Step =
    | StepEnter(t: string, p: Queued, id: string, servers: seq<string>)
    | StepAllocate(id: string, servers: seq<string>)
    | StepDestroyed(id: string)
    | StepForceLeave(t: string, player: int)

  function Next(s: State, st: Step): State {
    match st
    case StepEnter(t, p, id, servers) => Enter(s, t, p, id, servers)
    case StepAllocate(id, servers) => Allocate(s, id, servers)
    case StepDestroyed(id) => Destroyed(s, id)
    case StepForceLeave(t, player) => ForceLeave(s, t, player)
  }

  function Run(s: State, steps: seq<Step>): State
    decreases |steps|
  {
    if steps == [] then s else Run(Next(s, steps[0]), steps[1..])
  }
}

/** The load index counts the directory. */
module LoadIndex {
  import opened Matchmaking

  ghost function On(active: map<string, Dir>, server: string): set<string> {
    set m | m in active && active[m].serverId == server
  }

  // Every entry is the number of active matches on its server, and none is zero.
  ghost predicate Exact(s: State) {
    && (forall server :: LoadOf(s.loads, server) == |On(s.active, server)|)
    && (forall server | server in s.loads :: s.loads[server] > 0)
  }

  lemma OnAfterAdd(active: map<string, Dir>, id: string, d: Dir, server: string)
    ensures On(active[id := d], server)
            == if d.serverId == server then On(active, server) + {id} else On(active, server) - {id}
  {
  }

  lemma OnAfterRemove(active: map<string, Dir>, id: string, server: string)
    ensures On(active - {id}, server) == On(active, server) - {id}
  {
  }

  // A placement keeps the index exact if and only if its match ID is new.
  lemma PlaceKeepsExactIff(s: State, id: string, t: string, server: string)
    requires Exact(s)
    ensures Exact(Place(s, id, t, server)) <==> id !in s.active
  {
    var s' := Place(s, id, t, server);
    forall x
      ensures |On(s'.active, x)|
              == |On(s.active, x)| + (if x == server && id !in On(s.active, x) then 1 else 0)
                 - (if x != server && id in On(s.active, x) then 1 else 0)
    {
      OnAfterAdd(s.active, id, Dir(server, t), x);
    }
    if id in s.active {
      var was := s.active[id].serverId;
      assert id in On(s.active, was);
      assert LoadOf(s'.loads, was) != |On(s'.active, was)| || LoadOf(s'.loads, server) != |On(s'.active, server)|;
    }
  }

  lemma DestroyedKeepsExact(s: State, id: string)
    requires Exact(s)
    ensures Exact(Destroyed(s, id))
  {
    if id in s.active {
      var s' := Destroyed(s, id);
      var was := s.active[id].serverId;
      assert id in On(s.active, was);
      forall x
        ensures LoadOf(s'.loads, x) == |On(s'.active, x)|
      {
        OnAfterRemove(s.active, id, x);
      }
    }
  }

  // The clock-based match ID of a match that forms is not in use.
  predicate FreshIds(s: State, steps: seq<Step>)
    decreases |steps|
  {
    steps != [] ==>
      && (steps[0].StepEnter? && EnterMatches(s, steps[0].t) ==> steps[0].id !in s.active)
      && FreshIds(Next(s, steps[0]), steps[1..])
  }

  lemma StepKeepsExact(s: State, st: Step)
    requires Exact(s) && FreshIds(s, [st])
    ensures Exact(Next(s, st))
  {
    match st
    case StepEnter(t, p, id, servers) =>
      if EnterMatches(s, t) {
        PlaceKeepsExactIff(s, id, t, PickLeast(s.loads, servers));
      }
    case StepAllocate(id, servers) => PlaceKeepsExactIff(s, id, "allocated", PickLeast(s.loads, servers));
    case StepDestroyed(id) => DestroyedKeepsExact(s, id);
    case StepForceLeave(_, _) =>
  }

  // In every reachable state the load index agrees with the directory.
  lemma {:induction false} LoadIndexIsExact(s: State, steps: seq<Step>)
    requires Exact(s) && FreshIds(s, steps)
    ensures Exact(Run(s, steps))
    decreases |steps|
  {
    if steps != [] {
      assert FreshIds(s, [steps[0]]);
      StepKeepsExact(s, steps[0]);
      LoadIndexIsExact(Next(s, steps[0]), steps[1..]);
    }
  }

  lemma EmptyIsExact()
    ensures Exact(EMPTY)
  {
  }
}

/** Placement spreads matches evenly. */
module Balance {
  import opened Wrappers
  import opened Matchmaking
  import opened LoadIndex

  function Total(loads: map<string, int>, servers: seq<string>): int {
    if servers == [] then 0
    else Total(loads, servers[..|servers| - 1]) + LoadOf(loads, servers[|servers| - 1])
  }

  // All loads are lo or lo + 1.
  predicate Level(loads: map<string, int>, servers: seq<string>, lo: int) {
    forall i | 0 <= i < |servers| :: lo <= LoadOf(loads, servers[i]) <= lo + 1
  }

  lemma {:induction false} TotalAfterInc(loads: map<string, int>, servers: seq<string>, x: string)
    requires Distinct(servers)
    ensures Total(IncLoad(loads, x), servers) == Total(loads, servers) + if x in servers then 1 else 0
  {
    if servers != [] {
      var front, last := servers[..|servers| - 1], servers[|servers| - 1];
      TotalAfterInc(loads, front, x);
      assert servers == front + [last];
      assert last !in front;
    }
  }

  lemma {:induction false} TotalOfLevel(loads: map<string, int>, servers: seq<string>, lo: int)
    requires Level(loads, servers, lo)
    ensures |servers| * lo <= Total(loads, servers) <= |servers| * lo + |servers|
    ensures (exists i | 0 <= i < |servers| :: LoadOf(loads, servers[i]) == lo) ==> Total(loads, servers) < |servers| * lo + |servers|
    ensures (exists i | 0 <= i < |servers| :: LoadOf(loads, servers[i]) == lo + 1) ==> Total(loads, servers) > |servers| * lo
  {
    if servers != [] {
      var front := servers[..|servers| - 1];
      assert forall i | 0 <= i < |front| :: front[i] == servers[i];
      TotalOfLevel(loads, front, lo);
      assert |servers| * lo == |front| * lo + lo;
    }
  }

  // One placement on a least loaded server of a level set leaves it level.
  lemma PlacementKeepsLevel(loads: map<string, int>, servers: seq<string>, lo: int) returns (lo': int)
    requires servers != [] && Distinct(servers) && Level(loads, servers, lo)
    requires exists i | 0 <= i < |servers| :: LoadOf(loads, servers[i]) == lo
    requires LoadOf(loads, servers[LeastIndex(loads, servers)]) < MAX_INT
    ensures var loads' := IncLoad(loads, PickLeast(loads, servers));
            && Level(loads', servers, lo')
            && (exists i | 0 <= i < |servers| :: LoadOf(loads', servers[i]) == lo')
            && Total(loads', servers) == Total(loads, servers) + 1
  {
    var k := LeastIndex(loads, servers);
    var loads' := IncLoad(loads, servers[k]);
    assert LoadOf(loads, servers[k]) == lo;
    TotalAfterInc(loads, servers, servers[k]);
    if j :| 0 <= j < |servers| && LoadOf(loads', servers[j]) == lo {
      lo' := lo;
    } else {
      lo' := lo + 1;
      forall i | 0 <= i < |servers|
        ensures LoadOf(loads', servers[i]) == lo + 1
      {
        assert LoadOf(loads', servers[i]) != lo;
        if i != k { assert servers[i] != servers[k]; }
      }
      assert LoadOf(loads', servers[0]) == lo';
    }
  }

  // A level load is the total divided by the number of servers, rounded down or up.
  lemma LevelIsFloorOrCeil(loads: map<string, int>, servers: seq<string>, lo: int, i: nat)
    requires servers != [] && Level(loads, servers, lo) && i < |servers|
    requires exists i | 0 <= i < |servers| :: LoadOf(loads, servers[i]) == lo
    ensures var n, k := Total(loads, servers), |servers|;
            LoadOf(loads, servers[i]) == n / k || (n % k != 0 && LoadOf(loads, servers[i]) == n / k + 1)
  {
    TotalOfLevel(loads, servers, lo);
    QuotientIs(Total(loads, servers), |servers|, lo);
    assert LoadOf(loads, servers[i]) == lo || LoadOf(loads, servers[i]) == lo + 1;
  }

  lemma QuotientIs(n: int, k: int, q: int)
    requires k > 0 && k * q <= n < k * q + k
    ensures n / k == q && n % k == n - k * q
  {
    var d := n / k - q;
    assert n == k * (n / k) + n % k;
    assert k * d == k * (n / k) - k * q;
    assert d >= 1 ==> k * d >= k;
    assert d <= -1 ==> k * d <= -k;
  }

  // ---- over runs ----

  // Fixed servers and no destroy notifications; match IDs are generated fresh.
  predicate PlacementRun(s: State, steps: seq<Step>, servers: seq<string>)
    decreases |steps|
  {
    steps != [] ==>
      && !steps[0].StepDestroyed?
      && (steps[0].StepEnter? || steps[0].StepAllocate? ==> steps[0].servers == servers)
      && FreshIds(s, [steps[0]])
      && PlacementRun(Next(s, steps[0]), steps[1..], servers)
  }

  ghost predicate Even(s: State, servers: seq<string>) {
    && Total(s.loads, servers) == |s.active|
    && exists lo :: EvenAt(s, servers, lo)
  }

  ghost predicate EvenAt(s: State, servers: seq<string>, lo: int) {
    Level(s.loads, servers, lo) && exists i | 0 <= i < |servers| :: LoadOf(s.loads, servers[i]) == lo
  }

  // Such a step either leaves directory and loads alone or makes one placement.
  predicate Untouched(s: State, s': State) {
    s'.active == s.active && s'.loads == s.loads
  }

  predicate Placed(s: State, s': State, id: string, servers: seq<string>) {
    && id !in s.active && s'.active.Keys == s.active.Keys + {id}
    && s'.loads == IncLoad(s.loads, PickLeast(s.loads, servers))
  }

  lemma StepPlacesAtMostOne(s: State, st: Step, servers: seq<string>)
    requires PlacementRun(s, [st], servers)
    ensures Untouched(s, Next(s, st))
            || ((st.StepEnter? || st.StepAllocate?) && Placed(s, Next(s, st), st.id, servers))
    ensures |s.active| <= |Next(s, st).active| <= |s.active| + 1
  {
    hide PickLeast, IncLoad, RequiredPlayers, FirstOf, Untouched, Placed;
    var s' := Next(s, st);
    match st
    case StepEnter(t, p, id, _) =>
      if EnterMatches(s, t) {
        PlaceIsPlaced(s, id, t, servers, s');
      } else {
        NothingPlaced(s, s');
      }
    case StepAllocate(id, _) =>
      if AllocateAnswer(s, id, servers).Allocated? {
        PlaceIsPlaced(s, id, "allocated", servers, s');
      } else {
        NothingPlaced(s, s');
      }
    case StepForceLeave(_, _) => NothingPlaced(s, s');
  }

  lemma NothingPlaced(s: State, s': State)
    requires s'.active == s.active && s'.loads == s.loads
    ensures Untouched(s, s')
  {
  }

  lemma PlaceIsPlaced(s: State, id: string, t: string, servers: seq<string>, s': State)
    requires id !in s.active
    requires s'.active == s.active[id := Dir(PickLeast(s.loads, servers), t)]
    requires s'.loads == IncLoad(s.loads, PickLeast(s.loads, servers))
    ensures Placed(s, s', id, servers) && |s'.active| == |s.active| + 1
  {
    assert s'.active.Keys == s.active.Keys + {id};
    assert |s'.active| == |s'.active.Keys| && |s.active| == |s.active.Keys|;
  }

  lemma PlacementKeepsEven(s: State, s': State, id: string, servers: seq<string>)
    requires servers != [] && Distinct(servers) && Even(s, servers) && Placed(s, s', id, servers)
    requires |s.active| < MAX_INT
    ensures Even(s', servers)
  {
    hide LeastIndex, Level, Total, PickLeast, IncLoad;
    assert |s'.active| == |s'.active.Keys| && |s.active| == |s.active.Keys|;
    var lo :| EvenAt(s, servers, lo);
    LeastBelowMax(s, servers, lo);
    var lo' := PlacementKeepsLevel(s.loads, servers, lo);
    assert EvenAt(s', servers, lo');
  }

  lemma StepKeepsEven(s: State, st: Step, servers: seq<string>)
    requires servers != [] && Distinct(servers) && Even(s, servers) && PlacementRun(s, [st], servers)
    requires |Next(s, st).active| <= MAX_INT
    ensures Even(Next(s, st), servers)
  {
    hide Next, Total, Level;
    StepPlacesAtMostOne(s, st, servers);
    var s' := Next(s, st);
    if Untouched(s, s') {
      var lo :| EvenAt(s, servers, lo);
      assert EvenAt(s', servers, lo);
    } else {
      assert |s'.active| == |s'.active.Keys| && |s.active| == |s.active.Keys|;
      PlacementKeepsEven(s, s', st.id, servers);
    }
  }

  lemma LeastBelowMax(s: State, servers: seq<string>, lo: int)
    requires servers != [] && Total(s.loads, servers) == |s.active| < MAX_INT && EvenAt(s, servers, lo)
    ensures LoadOf(s.loads, servers[LeastIndex(s.loads, servers)]) < MAX_INT
  {
    hide LeastIndex, Total;
    TotalOfLevel(s.loads, servers, lo);
    TimesAtLeast(|servers|, lo);
  }

  lemma TimesAtLeast(k: nat, q: int)
    requires k >= 1
    ensures q >= 0 ==> k * q >= q
  {
  }

  lemma {:induction false} RunKeepsEven(s: State, steps: seq<Step>, servers: seq<string>)
    requires servers != [] && Distinct(servers) && Even(s, servers) && PlacementRun(s, steps, servers)
    requires |Run(s, steps).active| <= MAX_INT
    ensures Even(Run(s, steps), servers)
    decreases |steps|
  {
    if steps != [] {
      var s' := Next(s, steps[0]);
      assert PlacementRun(s, [steps[0]], servers);
      OnlyGrowsRun(s', steps[1..], servers);
      StepKeepsEven(s, steps[0], servers);
      RunKeepsEven(s', steps[1..], servers);
    }
  }

  lemma {:induction false} OnlyGrowsRun(s: State, steps: seq<Step>, servers: seq<string>)
    requires PlacementRun(s, steps, servers)
    ensures |s.active| <= |Run(s, steps).active|
    decreases |steps|
  {
    if steps != [] {
      assert PlacementRun(s, [steps[0]], servers);
      StepPlacesAtMostOne(s, steps[0], servers);
      OnlyGrowsRun(Next(s, steps[0]), steps[1..], servers);
    }
  }

  // From empty, n matches on k fixed servers put n/k on each, rounded down or up.
  lemma PlacementIsBalanced(steps: seq<Step>, servers: seq<string>, i: nat)
    requires i < |servers| && Distinct(servers)
    requires PlacementRun(EMPTY, steps, servers) && |Run(EMPTY, steps).active| <= MAX_INT
    ensures var s := Run(EMPTY, steps);
            var n, k := |s.active|, |servers|;
            LoadOf(s.loads, servers[i]) == n / k || (n % k != 0 && LoadOf(s.loads, servers[i]) == n / k + 1)
  {
    EmptyTotal(servers);
    assert LoadOf(EMPTY.loads, servers[0]) == 0;
    assert EvenAt(EMPTY, servers, 0);
    RunKeepsEven(EMPTY, steps, servers);
    var s := Run(EMPTY, steps);
    var lo :| EvenAt(s, servers, lo);
    LevelIsFloorOrCeil(s.loads, servers, lo, i);
  }

  lemma {:induction false} EmptyTotal(servers: seq<string>)
    ensures Total(map[], servers) == 0
  {
    if servers != [] {
      EmptyTotal(servers[..|servers| - 1]);
    }
  }

  // With destroys as well: a placement never raises the highest load above what it
  // was or one more than the lowest.
  lemma PlacementRaisesTheMinimum(loads: map<string, int>, servers: seq<string>, high: int, i: nat)
    requires i < |servers| && PickLeast(loads, servers) != ""
    requires forall j | 0 <= j < |servers| :: LoadOf(loads, servers[j]) <= high
    ensures var loads' := IncLoad(loads, PickLeast(loads, servers));
            var low := LoadOf(loads, PickLeast(loads, servers));
            && (forall j | 0 <= j < |servers| :: low <= LoadOf(loads, servers[j]))
            && LoadOf(loads', servers[i]) <= (if high > low + 1 then high else low + 1)
  {
  }
}
