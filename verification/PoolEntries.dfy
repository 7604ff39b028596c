/** The backend pool's entries as values, and the effect of each section that runs under a lock. */
module PoolEntries {
  import opened Wrappers

  // A connection remembers the position of the entry it was dialled for.
  datatype Conn = Conn(owner: nat, serial: nat)

  // backoff is in milliseconds.
  datatype Entry = Entry(
    addr: string,
    conn: Option<Conn>,
    healthy: bool,
    stopped: bool,
    backoff: int,
    reconnecting: bool)

  const RECONNECT_INIT_BACKOFF := 200
  const RECONNECT_MAX_BACKOFF := 5000
  const DIAL_BACKOFF := 1000

  // OnDisconnect; the second result is whether it starts a reconnect loop.
  function Disconnected(e: Entry): (Entry, bool) {
    var d := e.(healthy := false, conn := None);
    if d.reconnecting || d.stopped then (d, false) else (d.(reconnecting := true), true)
  }

  // reconnectLoop after a dial that connected.
  function LoopInstalls(e: Entry, c: Conn): Entry {
    e.(conn := Some(c), healthy := true, backoff := RECONNECT_INIT_BACKOFF, reconnecting := false)
  }

  function Grow(backoff: int): int {
    if backoff < RECONNECT_MAX_BACKOFF then 2 * backoff else backoff
  }

  // reconnectLoop after a dial that failed; the second result is whether it goes on.
  function LoopFails(e: Entry): (Entry, bool) {
    if e.stopped then (e, false) else (e.(backoff := Grow(e.backoff)), true)
  }

  // The first connection of an entry made by Dial, and of one made by AddServer.
  function DialConnects(e: Entry, c: Conn): Entry {
    e.(conn := Some(c), healthy := true)
  }

  function AddConnects(e: Entry, c: Conn): Entry {
    if e.stopped then e else e.(conn := Some(c), healthy := true)
  }

  function NewEntry(addr: string): Entry {
    Entry(addr, None, false, false, RECONNECT_INIT_BACKOFF, false)
  }

  // The first entry of an address that is not stopped, or the pool's size.
  function FirstLive(es: seq<Entry>, addr: string): (i: nat)
    ensures i <= |es| && (i < |es| ==> es[i].addr == addr && !es[i].stopped)
    ensures forall j | 0 <= j < i :: es[j].addr != addr || es[j].stopped
  {
    if es == [] || (es[0].addr == addr && !es[0].stopped) then 0 else 1 + FirstLive(es[1..], addr)
  }

  function RemoveServer(es: seq<Entry>, addr: string): seq<Entry> {
    var i := FirstLive(es, addr);
    if i < |es| then es[i := es[i].(stopped := true)] else es
  }

  // AddServer run to its end: connected in time, or timed out and stopped.
  function AddServer(es: seq<Entry>, addr: string, inTime: bool): seq<Entry> {
    var e := NewEntry(addr);
    es + [if inTime then AddConnects(e, Conn(|es|, 0)) else e.(stopped := true)]
  }

  function HealthyConns(es: seq<Entry>): seq<Conn> {
    if es == [] then []
    else
      var e := es[|es| - 1];
      HealthyConns(es[..|es| - 1]) + if e.healthy && e.conn.Some? && !e.stopped then [e.conn.value] else []
  }

  function HashRoute(hash: nat, healthy: seq<Conn>): Option<Conn> {
    if healthy == [] then None else Some(healthy[hash % |healthy|])
  }
}

/** Reconnect loops, disconnect callbacks and removals in any interleaving. */
module PoolRuns {
  import opened Wrappers
  import opened PoolEntries

  // loops: the entry of every reconnect loop that has been started and has not ended.
  // dead: the connections that have stopped, whether or not an entry ever held them.
  datatype World = World(entries: seq<Entry>, loops: seq<nat>, dead: set<Conn>)

  datatype Step =
    | Drops(i: nat, serial: nat)
    | Installs(k: nat, serial: nat)
    | Fails(k: nat)
    | FirstConnects(i: nat, serial: nat)
    | AddedConnects(i: nat, serial: nat)
    | Adds(addr: string)
    | AddTimesOut(i: nat)
    | Removes(addr: string)
    | Closes

  predicate Enabled(w: World, st: Step) {
    match st
    case Drops(i, _) => i < |w.entries|
    case Installs(k, _) => k < |w.loops| && w.loops[k] < |w.entries|
    case Fails(k) => k < |w.loops| && w.loops[k] < |w.entries|
    case FirstConnects(i, _) => i < |w.entries|
    case AddedConnects(i, _) => i < |w.entries|
    case AddTimesOut(i) => i < |w.entries|
    case _ => true
  }

  function StopAll(es: seq<Entry>): seq<Entry> {
    seq(|es|, i requires 0 <= i < |es| => es[i].(stopped := true))
  }

  function Next(w: World, st: Step): World
    requires Enabled(w, st)
  {
    match st
    case Drops(i, serial) =>
      var (e, start) := Disconnected(w.entries[i]);
      World(w.entries[i := e], if start then w.loops + [i] else w.loops, w.dead + {Conn(i, serial)})
    case Installs(k, serial) =>
      var i := w.loops[k];
      World(w.entries[i := LoopInstalls(w.entries[i], Conn(i, serial))], w.loops[..k] + w.loops[k + 1..], w.dead)
    case Fails(k) =>
      var i := w.loops[k];
      var (e, goesOn) := LoopFails(w.entries[i]);
      World(w.entries[i := e], if goesOn then w.loops else w.loops[..k] + w.loops[k + 1..], w.dead)
    case FirstConnects(i, serial) => w.(entries := w.entries[i := DialConnects(w.entries[i], Conn(i, serial))])
    case AddedConnects(i, serial) => w.(entries := w.entries[i := AddConnects(w.entries[i], Conn(i, serial))])
    case Adds(addr) => w.(entries := w.entries + [NewEntry(addr)])
    case AddTimesOut(i) => w.(entries := w.entries[i := w.entries[i].(stopped := true)])
    case Removes(addr) => w.(entries := RemoveServer(w.entries, addr))
    case Closes => w.(entries := StopAll(w.entries))
  }

  predicate ValidRun(w: World, steps: seq<Step>)
    decreases |steps|
  {
    steps != [] ==> Enabled(w, steps[0]) && ValidRun(Next(w, steps[0]), steps[1..])
  }

  function End(w: World, steps: seq<Step>): World
    requires ValidRun(w, steps)
    decreases |steps|
  {
    if steps == [] then w else End(Next(w, steps[0]), steps[1..])
  }

  // A pool as NewPool or Dial makes it.
  predicate Initial(w: World) {
    && w.loops == []
    && forall i | 0 <= i < |w.entries| ::
         && !w.entries[i].reconnecting && !w.entries[i].stopped
         && (w.entries[i].conn.Some? ==> w.entries[i].conn.value.owner == i)
         && (w.entries[i].backoff == RECONNECT_INIT_BACKOFF || w.entries[i].backoff == DIAL_BACKOFF)
  }

  // ---- the invariants ----

  // At most one loop per entry, each with its flag up; and no flag without a loop,
  // except on an entry that was stopped.
  ghost predicate LoopsMatchFlags(w: World) {
    && (forall a, b | 0 <= a < b < |w.loops| :: w.loops[a] != w.loops[b])
    && (forall a | 0 <= a < |w.loops| :: w.loops[a] < |w.entries| && w.entries[w.loops[a]].reconnecting)
    && (forall i | 0 <= i < |w.entries| :: w.entries[i].reconnecting && !w.entries[i].stopped ==> i in w.loops)
  }

  // Every connection an entry holds was dialled for it.
  ghost predicate EntriesAreSound(w: World) {
    forall i | 0 <= i < |w.entries| :: w.entries[i].conn.Some? ==> w.entries[i].conn.value.owner == i
  }

  // ---- each step keeps them ----

  lemma DropKeepsLoops(w: World, i: nat, serial: nat)
    requires LoopsMatchFlags(w) && i < |w.entries|
    ensures LoopsMatchFlags(Next(w, Drops(i, serial)))
  {
    var w' := Next(w, Drops(i, serial));
    if w'.loops != w.loops {
      assert i !in w.loops;
      assert w'.loops == w.loops + [i];
      forall j | 0 <= j < |w'.entries| && w'.entries[j].reconnecting && !w'.entries[j].stopped
        ensures j in w'.loops
      {
        assert j in w.loops || w'.loops[|w.loops|] == j;
      }
    }
  }

  lemma EndedLoopKeepsLoops(w: World, k: nat, e: Entry)
    requires LoopsMatchFlags(w) && k < |w.loops| && (!e.reconnecting || e.stopped)
    ensures LoopsMatchFlags(World(w.entries[w.loops[k] := e], w.loops[..k] + w.loops[k + 1..], w.dead))
  {
  }

  lemma SameFlagsKeepLoops(w: World, w': World)
    requires LoopsMatchFlags(w) && w'.loops == w.loops && |w.entries| <= |w'.entries|
    requires forall i | 0 <= i < |w.entries| ::
               w'.entries[i].reconnecting == w.entries[i].reconnecting && (w.entries[i].stopped ==> w'.entries[i].stopped)
    requires forall i | |w.entries| <= i < |w'.entries| :: !w'.entries[i].reconnecting
    ensures LoopsMatchFlags(w')
  {
  }

  lemma StepKeepsLoops(w: World, st: Step)
    requires LoopsMatchFlags(w) && Enabled(w, st)
    ensures LoopsMatchFlags(Next(w, st))
  {
    hide LoopsMatchFlags, FirstLive;
    match st
    case Drops(i, serial) => DropKeepsLoops(w, i, serial);
    case Installs(k, serial) =>
      EndedLoopKeepsLoops(w, k, LoopInstalls(w.entries[w.loops[k]], Conn(w.loops[k], serial)));
    case Fails(k) =>
      if w.entries[w.loops[k]].stopped {
        EndedLoopKeepsLoops(w, k, w.entries[w.loops[k]]);
      } else {
        SameFlagsKeepLoops(w, Next(w, st));
      }
    case _ => SameFlagsKeepLoops(w, Next(w, st));
  }

  lemma StepKeepsSound(w: World, st: Step)
    requires EntriesAreSound(w) && Enabled(w, st)
    ensures EntriesAreSound(Next(w, st))
  {
    hide FirstLive;
  }

  lemma {:induction false} RunKeeps(w: World, steps: seq<Step>)
    requires LoopsMatchFlags(w) && EntriesAreSound(w) && ValidRun(w, steps)
    ensures LoopsMatchFlags(End(w, steps)) && EntriesAreSound(End(w, steps))
    decreases |steps|
  {
    if steps != [] {
      StepKeepsLoops(w, steps[0]);
      StepKeepsSound(w, steps[0]);
      RunKeeps(Next(w, steps[0]), steps[1..]);
    }
  }

  lemma InitialIsGood(w: World)
    requires Initial(w)
    ensures LoopsMatchFlags(w) && EntriesAreSound(w)
  {
  }

  // ---- main results ----

  // In every interleaving at most one reconnect loop is active per entry, the entry's
  // flag is up while it is, and an entry whose flag is up has its loop unless stopped.
  lemma ReconnectLoopsAreExclusive(w: World, steps: seq<Step>)
    requires Initial(w) && ValidRun(w, steps)
    ensures var e := End(w, steps);
            && (forall a, b | 0 <= a < b < |e.loops| :: e.loops[a] != e.loops[b])
            && (forall i | 0 <= i < |e.entries| :: i in e.loops ==> e.entries[i].reconnecting)
            && (forall i | 0 <= i < |e.entries| && !e.entries[i].stopped :: i in e.loops <==> e.entries[i].reconnecting)
  {
    InitialIsGood(w);
    RunKeeps(w, steps);
  }

  lemma {:induction false} HealthyAreLive(es: seq<Entry>, c: Conn)
    requires c in HealthyConns(es)
    ensures exists i | 0 <= i < |es| :: !es[i].stopped && es[i].healthy && es[i].conn == Some(c)
  {
    var front, e := es[..|es| - 1], es[|es| - 1];
    if c in HealthyConns(front) {
      HealthyAreLive(front, c);
      var i :| 0 <= i < |front| && !front[i].stopped && front[i].healthy && front[i].conn == Some(c);
      assert es[i] == front[i];
    } else {
      assert e.conn == Some(c);
    }
  }

  lemma {:induction false} StoppedStaysStopped(w: World, steps: seq<Step>, i: nat)
    requires ValidRun(w, steps) && i < |w.entries| && w.entries[i].stopped
    ensures i < |End(w, steps).entries| && End(w, steps).entries[i].stopped
    ensures End(w, steps).entries[i].addr == w.entries[i].addr
    decreases |steps|
  {
    if steps != [] {
      var w' := Next(w, steps[0]);
      assert i < |w'.entries| && w'.entries[i].stopped && w'.entries[i].addr == w.entries[i].addr;
      StoppedStaysStopped(w', steps[1..], i);
    }
  }

  // Once entry i is stopped, no later list of healthy connections holds a connection
  // of its, and so no route chosen from one, even if a loop already dialling succeeds
  // and marks the entry healthy.
  lemma RemovalIsFinal(w: World, before: seq<Step>, after: seq<Step>, i: nat, hash: nat)
    requires Initial(w) && ValidRun(w, before) && ValidRun(End(w, before), after)
    requires i < |End(w, before).entries| && End(w, before).entries[i].stopped
    ensures var healthy := HealthyConns(End(End(w, before), after).entries);
            && (forall c | c in healthy :: c.owner != i)
            && (HashRoute(hash, healthy).Some? ==> HashRoute(hash, healthy).value.owner != i)
  {
    var mid := End(w, before);
    InitialIsGood(w);
    RunKeeps(w, before);
    RunKeeps(mid, after);
    StoppedStaysStopped(mid, after, i);
    var e := End(mid, after);
    forall c | c in HealthyConns(e.entries) ensures c.owner != i {
      HealthyAreLive(e.entries, c);
    }
  }

  // ---- what can be routed to ----

  predicate Routable(e: Entry) {
    e.healthy && e.conn.Some? && !e.stopped
  }

  // How many of the first i entries can be routed to.
  function Rank(es: seq<Entry>, i: nat): nat
    requires i <= |es|
  {
    if i == 0 then 0 else Rank(es, i - 1) + if Routable(es[i - 1]) then 1 else 0
  }

  lemma {:induction false} RankOfFront(es: seq<Entry>, i: nat)
    requires es != [] && i < |es|
    ensures Rank(es[..|es| - 1], i) == Rank(es, i)
  {
    if i != 0 {
      RankOfFront(es, i - 1);
    }
  }

  // The healthy connections are those of the entries that can be routed to, all of them,
  // in the order of the entries.
  lemma {:induction false} HealthyConnsAreRoutable(es: seq<Entry>)
    ensures |HealthyConns(es)| == Rank(es, |es|)
    ensures forall i | 0 <= i < |es| && Routable(es[i]) ::
              Rank(es, i) < |HealthyConns(es)| && HealthyConns(es)[Rank(es, i)] == es[i].conn.value
  {
    if es != [] {
      var k := |es| - 1;
      var front := es[..k];
      HealthyConnsAreRoutable(front);
      if k > 0 {
        RankOfFront(es, k - 1);
      }
      assert Rank(front, k) == Rank(es, k) by { RankPrefix(es, k); }
      forall i | 0 <= i < |es| && Routable(es[i])
        ensures Rank(es, i) < |HealthyConns(es)| && HealthyConns(es)[Rank(es, i)] == es[i].conn.value
      {
        RankOfFront(es, i);
        if i < k {
          assert front[i] == es[i];
        }
      }
    }
  }

  lemma {:induction false} RankPrefix(es: seq<Entry>, i: nat)
    requires i < |es| == i + 1
    ensures Rank(es[..i], i) == Rank(es, i)
  {
    RankOfFront(es, i);
  }

  // A key routes to some healthy connection if and only if there is one, and for each of
  // them there are hashes that route to it.
  lemma EveryHealthyConnIsReached(es: seq<Entry>, i: nat, hash: nat)
    requires i < |es|
    ensures Routable(es[i]) ==> HashRoute(Rank(es, i), HealthyConns(es)) == es[i].conn
    ensures HashRoute(hash, HealthyConns(es)).None? <==> forall j | 0 <= j < |es| :: !Routable(es[j])
    ensures HashRoute(hash, HealthyConns(es)).Some? ==> HashRoute(hash, HealthyConns(es)).value in HealthyConns(es)
  {
    hide Rank, HealthyConns;
    var healthy := HealthyConns(es);
    HealthyConnsAreRoutable(es);
    if healthy != [] {
      assert healthy[0] in healthy;
      HealthyAreLive(es, healthy[0]);
      Modulo(hash, |healthy|);
      Modulo(Rank(es, i), |healthy|);
      assert healthy[hash % |healthy|] in healthy;
    }
  }

  lemma Modulo(n: nat, k: nat)
    requires k > 0
    ensures 0 <= n % k < k && (n < k ==> n % k == n)
  {
  }

  // An added server that connects in time can be routed to at once; one that does not
  // never can; and nothing changes for the others.
  lemma AddedServerIsRoutable(es: seq<Entry>, addr: string, inTime: bool)
    ensures HealthyConns(AddServer(es, addr, inTime)) == HealthyConns(es) + if inTime then [Conn(|es|, 0)] else []
    ensures var es' := AddServer(es, addr, inTime);
            |es'| == |es| + 1 && es'[|es|].addr == addr && es'[..|es|] == es && (es'[|es|].stopped <==> !inTime)
  {
    assert AddServer(es, addr, inTime)[..|es|] == es;
  }

  // ---- who looks after a lost connection ----

  // Entry i can be routed to, or a loop is at work on it, or it is out of use.
  ghost predicate Tended(w: World, i: nat) {
    i < |w.entries| && (w.entries[i].stopped || Routable(w.entries[i]) || i in w.loops)
  }

  lemma EndedLoop(w: World, k: nat, i: nat)
    requires k < |w.loops| && i != w.loops[k] && i in w.loops
    ensures i in w.loops[..k] + w.loops[k + 1..]
  {
    var a :| 0 <= a < |w.loops| && w.loops[a] == i;
    assert (w.loops[..k] + w.loops[k + 1..])[if a < k then a else a - 1] == i;
  }

  lemma StepKeepsTended(w: World, st: Step, i: nat)
    requires LoopsMatchFlags(w) && Enabled(w, st) && i < |w.entries|
    requires Tended(w, i) || (st.Drops? && st.i == i)
    ensures Tended(Next(w, st), i)
  {
    hide FirstLive;
    var w' := Next(w, st);
    if st.Drops? && st.i == i {
      assert w'.loops != w.loops ==> w'.loops[|w.loops|] == i;
    } else if st.Drops? {
      assert forall j | j in w.loops :: j in w'.loops;
    } else if (st.Installs? || st.Fails?) && i in w.loops && i != w.loops[st.k] {
      EndedLoop(w, st.k, i);
    }
  }

  lemma {:induction false} RunKeepsTended(w: World, steps: seq<Step>, i: nat)
    requires LoopsMatchFlags(w) && ValidRun(w, steps) && Tended(w, i)
    ensures Tended(End(w, steps), i)
    decreases |steps|
  {
    hide LoopsMatchFlags, Next, Tended;
    if steps != [] {
      TendedIsEntry(w, i);
      StepKeepsTended(w, steps[0], i);
      StepKeepsLoops(w, steps[0]);
      RunKeepsTended(Next(w, steps[0]), steps[1..], i);
    }
  }

  lemma TendedIsEntry(w: World, i: nat)
    requires Tended(w, i)
    ensures i < |w.entries|
  {
  }

  // An entry that loses its connection cannot be routed to any more, and from then on, in
  // every run, it can be routed to again, or a loop is at work on it, or it was stopped.
  lemma LostConnectionIsTended(w: World, before: seq<Step>, i: nat, serial: nat, after: seq<Step>)
    requires Initial(w) && ValidRun(w, before) && i < |End(w, before).entries|
    requires ValidRun(Next(End(w, before), Drops(i, serial)), after)
    ensures var lost := Next(End(w, before), Drops(i, serial));
            && !Routable(lost.entries[i]) && lost.entries[i].conn == None
            && (!lost.entries[i].stopped ==> i in lost.loops)
            && Tended(End(lost, after), i)
  {
    InitialIsGood(w);
    RunKeeps(w, before);
    var mid := End(w, before);
    var lost := Next(mid, Drops(i, serial));
    StepKeepsTended(mid, Drops(i, serial), i);
    StepKeepsLoops(mid, Drops(i, serial));
    RunKeepsTended(lost, after, i);
  }

  // A loop's dial that connects makes the entry routable, if it is not stopped, and ends
  // the loop; one that fails leaves the entry to its loop.
  lemma DialDecides(w: World, k: nat, serial: nat)
    requires LoopsMatchFlags(w) && k < |w.loops|
    ensures var i := w.loops[k];
            && (!w.entries[i].stopped ==>
                  && Routable(Next(w, Installs(k, serial)).entries[i])
                  && Next(w, Installs(k, serial)).entries[i].conn == Some(Conn(i, serial)))
            && i !in Next(w, Installs(k, serial)).loops
            && (i in Next(w, Fails(k)).loops <==> !w.entries[i].stopped)
  {
    var i := w.loops[k];
    var rest := w.loops[..k] + w.loops[k + 1..];
    assert forall a | 0 <= a < |rest| :: rest[a] == w.loops[if a < k then a else a + 1];
    assert w.loops[k] in w.loops;
  }

  // A closed pool routes nowhere, whatever its loops still do, until a server is added.
  lemma ClosedPoolRoutesNowhere(w: World, steps: seq<Step>)
    requires ValidRun(Next(w, Closes), steps) && (forall st | st in steps :: !st.Adds?)
    ensures HealthyConns(End(Next(w, Closes), steps).entries) == []
  {
    AllStopped(Next(w, Closes), steps);
    var es := End(Next(w, Closes), steps).entries;
    HealthyConnsAreRoutable(es);
    RankOfStopped(es, |es|);
  }

  lemma {:induction false} RankOfStopped(es: seq<Entry>, i: nat)
    requires i <= |es| && OutOfUse(es)
    ensures Rank(es, i) == 0
  {
    if i > 0 {
      RankOfStopped(es, i - 1);
    }
  }

  lemma SameSize(w: World, st: Step)
    requires Enabled(w, st) && !st.Adds?
    ensures |Next(w, st).entries| == |w.entries|
  {
    hide FirstLive;
  }

  lemma StepKeepsStopped(w: World, st: Step, i: nat)
    requires Enabled(w, st) && i < |w.entries| && w.entries[i].stopped
    ensures i < |Next(w, st).entries| && Next(w, st).entries[i].stopped
  {
    hide FirstLive;
  }

  predicate OutOfUse(es: seq<Entry>) {
    forall i | 0 <= i < |es| :: es[i].stopped
  }

  lemma {:induction false} AllStopped(w: World, steps: seq<Step>)
    requires ValidRun(w, steps) && (forall st | st in steps :: !st.Adds?)
    requires OutOfUse(w.entries)
    ensures OutOfUse(End(w, steps).entries)
    decreases |steps|
  {
    hide Next;
    if steps != [] {
      var st := steps[0];
      assert st in steps;
      SameSize(w, st);
      forall i | 0 <= i < |w.entries| ensures Next(w, st).entries[i].stopped {
        StepKeepsStopped(w, st, i);
      }
      AllStopped(Next(w, st), steps[1..]);
    }
  }

  // ---- backoff ----

  function Pow2(k: nat): nat {
    if k == 0 then 1 else 2 * Pow2(k - 1)
  }

  // An entry's backoff when its loop last started afresh, and the failures since.
  datatype Tally = Tally(base: int, failures: nat)

  function Track(t: Tally, w: World, st: Step, i: nat): Tally
    requires Enabled(w, st)
  {
    match st
    case Installs(k, _) => if w.loops[k] == i then Tally(RECONNECT_INIT_BACKOFF, 0) else t
    case Fails(k) => if w.loops[k] == i && !w.entries[i].stopped then t.(failures := t.failures + 1) else t
    case Adds(_) => if |w.entries| == i then Tally(RECONNECT_INIT_BACKOFF, 0) else t
    case _ => t
  }

  function TallyOf(t: Tally, w: World, steps: seq<Step>, i: nat): Tally
    requires ValidRun(w, steps)
    decreases |steps|
  {
    if steps == [] then t else TallyOf(Track(t, w, steps[0], i), Next(w, steps[0]), steps[1..], i)
  }

  function FirstTally(w: World, i: nat): Tally {
    Tally(if i < |w.entries| then w.entries[i].backoff else RECONNECT_INIT_BACKOFF, 0)
  }

  // The failure from which on the backoff no longer grows.
  function LastDoubling(base: int): nat {
    if base == DIAL_BACKOFF then 3 else 5
  }

  function Rung(t: Tally): int {
    t.base * Pow2(if t.failures <= LastDoubling(t.base) then t.failures else LastDoubling(t.base))
  }

  lemma PowersOfTwo()
    ensures Pow2(0) == 1 && Pow2(1) == 2 && Pow2(2) == 4 && Pow2(3) == 8 && Pow2(4) == 16 && Pow2(5) == 32
  {
    assert Pow2(1) == 2 * Pow2(0);
    assert Pow2(2) == 2 * Pow2(1);
    assert Pow2(3) == 2 * Pow2(2);
    assert Pow2(4) == 2 * Pow2(3);
  }

  predicate KnownBase(t: Tally) {
    t.base == RECONNECT_INIT_BACKOFF || t.base == DIAL_BACKOFF
  }

  // One more failure is one more rung, up to the last.
  lemma GrowIsNextRung(t: Tally)
    requires KnownBase(t)
    ensures Grow(Rung(t)) == Rung(t.(failures := t.failures + 1))
    ensures RECONNECT_INIT_BACKOFF <= Rung(t) < 2 * RECONNECT_MAX_BACKOFF
    ensures Rung(t) > RECONNECT_MAX_BACKOFF <==> t.failures >= LastDoubling(t.base)
  {
    PowersOfTwo();
    var n := t.failures;
    assert n < 6 ==> n == 0 || n == 1 || n == 2 || n == 3 || n == 4 || n == 5;
  }

  lemma StepCounts(w: World, st: Step, t: Tally, i: nat)
    requires Enabled(w, st) && KnownBase(t)
    requires i < |w.entries| ==> w.entries[i].backoff == Rung(t)
    ensures KnownBase(Track(t, w, st, i))
    ensures i < |Next(w, st).entries| ==> Next(w, st).entries[i].backoff == Rung(Track(t, w, st, i))
  {
    hide FirstLive, Pow2;
    PowersOfTwo();
    GrowIsNextRung(t);
  }

  lemma {:induction false} RunCounts(w: World, steps: seq<Step>, t: Tally, i: nat)
    requires ValidRun(w, steps) && KnownBase(t)
    requires i < |w.entries| ==> w.entries[i].backoff == Rung(t)
    ensures var t' := TallyOf(t, w, steps, i);
            KnownBase(t') && (i < |End(w, steps).entries| ==> End(w, steps).entries[i].backoff == Rung(t'))
    decreases |steps|
  {
    hide Next, Rung, Track;
    if steps != [] {
      StepCounts(w, steps[0], t, i);
      RunCounts(Next(w, steps[0]), steps[1..], Track(t, w, steps[0], i), i);
    }
  }

  // In every run an entry's backoff is 200 ms doubled for each failed dial since the last
  // connection, five times at most, or 1 s doubled three times at most while the entry is
  // one of Dial's that has not reconnected yet. It is at least 200 ms and below twice the
  // maximum, and above the maximum if and only if it has been doubled that often.
  lemma BackoffCountsFailures(w: World, steps: seq<Step>, i: nat)
    requires Initial(w) && ValidRun(w, steps) && i < |End(w, steps).entries|
    ensures var b, t := End(w, steps).entries[i].backoff, TallyOf(FirstTally(w, i), w, steps, i);
            && KnownBase(t) && b == Rung(t)
            && RECONNECT_INIT_BACKOFF <= b < 2 * RECONNECT_MAX_BACKOFF
            && (b > RECONNECT_MAX_BACKOFF <==> t.failures >= LastDoubling(t.base))
  {
    PowersOfTwo();
    RunCounts(w, steps, FirstTally(w, i), i);
    GrowIsNextRung(TallyOf(FirstTally(w, i), w, steps, i));
  }

  function Failing(n: nat): seq<Step> {
    [Drops(0, 0)] + seq(n, _ => Fails(0))
  }

  // What n failed dials in a row do to a lone entry whose connection has dropped.
  lemma {:induction false} FailingRun(w: World, n: nat, t: Tally)
    requires |w.entries| == 1 && w.loops == [0] && !w.entries[0].stopped
    requires KnownBase(t) && w.entries[0].backoff == Rung(t)
    ensures var steps := seq(n, _ => Fails(0));
            && ValidRun(w, steps) && |End(w, steps).entries| == 1
            && End(w, steps).entries[0].backoff == Rung(t.(failures := t.failures + n))
    decreases n
  {
    hide Rung;
    var steps := seq(n, _ => Fails(0));
    if n > 0 {
      assert steps[1..] == seq(n - 1, _ => Fails(0));
      GrowIsNextRung(t);
      FailingRun(Next(w, Fails(0)), n - 1, t.(failures := t.failures + 1));
    }
  }

  // Five failures take a new entry's backoff to 6.4 s, three take one of Dial's to 8 s.
  lemma BackoffPassesItsMaximum(addr: string)
    ensures var w := World([NewEntry(addr)], [], {});
            && Initial(w) && ValidRun(w, Failing(5))
            && |End(w, Failing(5)).entries| == 1 && End(w, Failing(5)).entries[0].backoff == 6400
    ensures var w := World([NewEntry(addr).(backoff := DIAL_BACKOFF)], [], {});
            && Initial(w) && ValidRun(w, Failing(3))
            && |End(w, Failing(3)).entries| == 1 && End(w, Failing(3)).entries[0].backoff == 8000
  {
    PowersOfTwo();
    FirstDrop(NewEntry(addr), 5);
    FirstDrop(NewEntry(addr).(backoff := DIAL_BACKOFF), 3);
  }

  lemma FirstDrop(e: Entry, n: nat)
    requires !e.stopped && !e.reconnecting && KnownBase(Tally(e.backoff, 0))
    ensures var w := World([e], [], {});
            && ValidRun(w, Failing(n)) && |End(w, Failing(n)).entries| == 1
            && End(w, Failing(n)).entries[0].backoff == Rung(Tally(e.backoff, n))
  {
    var w := World([e], [], {});
    PowersOfTwo();
    assert Failing(n)[1..] == seq(n, _ => Fails(0));
    FailingRun(Next(w, Drops(0, 0)), n, Tally(e.backoff, 0));
  }

  // ---- what `healthy` is worth ----

  // Every connection a route could choose is one that has not stopped.
  ghost predicate RoutesAreLive(w: World) {
    forall i | 0 <= i < |w.entries| ::
      w.entries[i].healthy && w.entries[i].conn.Some? && !w.entries[i].stopped ==> w.entries[i].conn.value !in w.dead
  }

  // The connection a step installs, if it is one that does.
  function Installed(w: World, st: Step): Option<Conn>
    requires Enabled(w, st)
  {
    match st
    case Installs(k, serial) => if w.entries[w.loops[k]].stopped then None else Some(Conn(w.loops[k], serial))
    case FirstConnects(i, serial) => if w.entries[i].stopped then None else Some(Conn(i, serial))
    case AddedConnects(i, serial) => if w.entries[i].stopped then None else Some(Conn(i, serial))
    case _ => None
  }

  // A step keeps every route live if and only if it installs no connection that has
  // already stopped. reconnectLoop can: the callback of a connection lost before it is
  // installed finds the flag up and starts nothing.
  lemma StepKeepsRoutesLiveIff(w: World, st: Step)
    requires Enabled(w, st) && EntriesAreSound(w) && RoutesAreLive(w)
    ensures RoutesAreLive(Next(w, st)) <==> (Installed(w, st).Some? ==> Installed(w, st).value !in w.dead)
  {
    var w' := Next(w, st);
    if Installed(w, st).Some? {
      var c := Installed(w, st).value;
      assert w'.entries[c.owner].conn == Some(c) && w'.entries[c.owner].healthy && !w'.entries[c.owner].stopped;
    }
  }

  predicate InstallsOnlyLive(w: World, steps: seq<Step>)
    requires ValidRun(w, steps)
    decreases |steps|
  {
    steps != [] ==>
      && (Installed(w, steps[0]).Some? ==> Installed(w, steps[0]).value !in w.dead)
      && InstallsOnlyLive(Next(w, steps[0]), steps[1..])
  }

  lemma {:induction false} RoutesStayLive(w: World, steps: seq<Step>)
    requires ValidRun(w, steps) && EntriesAreSound(w) && RoutesAreLive(w) && InstallsOnlyLive(w, steps)
    ensures RoutesAreLive(End(w, steps))
    decreases |steps|
  {
    if steps != [] {
      StepKeepsRoutesLiveIff(w, steps[0]);
      StepKeepsSound(w, steps[0]);
      RoutesStayLive(Next(w, steps[0]), steps[1..]);
    }
  }

  function LostBeforeInstall(): seq<Step> {
    [Drops(0, 0), Drops(0, 1), Installs(0, 1)]
  }

  // The loop's second connection stops before the loop installs it: the entry ends up
  // healthy with a dead connection, and no loop is left to replace it.
  lemma HealthyEntryMayBeDead(addr: string)
    ensures var w := World([NewEntry(addr)], [], {});
            && Initial(w) && ValidRun(w, LostBeforeInstall())
            && var e := End(w, LostBeforeInstall());
               e.loops == [] && HealthyConns(e.entries) == [Conn(0, 1)] && Conn(0, 1) in e.dead
  {
  }
}
