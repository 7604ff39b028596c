/** Bringing the pool in line with the configured servers. */
module PoolSync {
  import opened Wrappers
  import opened PoolEntries

  ghost function LiveAddrs(es: seq<Entry>): set<string> {
    set i | 0 <= i < |es| && !es[i].stopped :: es[i].addr
  }

  // No two entries that are not stopped share an address.
  ghost predicate DistinctLive(es: seq<Entry>) {
    forall i, j | 0 <= i < j < |es| && !es[i].stopped && !es[j].stopped :: es[i].addr != es[j].addr
  }

  function AddAll(es: seq<Entry>, addrs: seq<string>, inTime: set<string>): seq<Entry> {
    if addrs == [] then es
    else
      var a := addrs[|addrs| - 1];
      AddServer(AddAll(es, addrs[..|addrs| - 1], inTime), a, a in inTime)
  }

  function RemoveAll(es: seq<Entry>, addrs: seq<string>): seq<Entry> {
    if addrs == [] then es
    else RemoveServer(RemoveAll(es, addrs[..|addrs| - 1]), addrs[|addrs| - 1])
  }

  // Every element once, in some order: how a Go map is walked.
  ghost predicate Walks(order: seq<string>, s: set<string>) {
    && (forall a :: a in order <==> a in s)
    && Distinct(order)
  }

  // The entry at an index stays the entry of that index: same address, and nothing
  // about it changes unless its address is dropped, which stops it.
  ghost predicate SameEntries(es: seq<Entry>, es': seq<Entry>, dropped: set<string>) {
    && |es| <= |es'|
    && forall i | 0 <= i < |es| ::
         es'[i] == es[i] || (es[i].addr in dropped && es'[i] == es[i].(stopped := true))
  }

  lemma AddIsLive(es: seq<Entry>, a: string, inTime: bool)
    requires DistinctLive(es) && a !in LiveAddrs(es)
    ensures var es' := AddServer(es, a, inTime);
            && LiveAddrs(es') == LiveAddrs(es) + (if inTime then {a} else {})
            && DistinctLive(es')
  {
    var es' := AddServer(es, a, inTime);
    assert forall i | 0 <= i < |es| :: es'[i] == es[i];
    assert es'[|es|].addr == a && es'[|es|].stopped == !inTime;
    forall i | 0 <= i < |es| && !es[i].stopped ensures es[i].addr != a {
      assert es[i].addr in LiveAddrs(es);
    }
    forall x ensures x in LiveAddrs(es') <==> x in LiveAddrs(es) + (if inTime then {a} else {}) {
      if x in LiveAddrs(es) {
        var i :| 0 <= i < |es| && !es[i].stopped && es[i].addr == x;
        assert es'[i].addr == x && !es'[i].stopped;
      }
    }
  }

  lemma RemoveIsGone(es: seq<Entry>, a: string)
    requires DistinctLive(es)
    ensures LiveAddrs(RemoveServer(es, a)) == LiveAddrs(es) - {a} && DistinctLive(RemoveServer(es, a))
    ensures SameEntries(es, RemoveServer(es, a), {a})
  {
    var es', k := RemoveServer(es, a), FirstLive(es, a);
    forall x ensures x in LiveAddrs(es') <==> x in LiveAddrs(es) && x != a {
      if x in LiveAddrs(es) && x != a {
        var i :| 0 <= i < |es| && !es[i].stopped && es[i].addr == x;
        assert es'[i].addr == x && !es'[i].stopped;
      }
      if x in LiveAddrs(es') {
        var i :| 0 <= i < |es'| && !es'[i].stopped && es'[i].addr == x;
        assert es[i].addr == x && !es[i].stopped;
      }
    }
  }

  lemma {:induction false} AddAllIsLive(es: seq<Entry>, addrs: seq<string>, inTime: set<string>)
    requires DistinctLive(es)
    requires forall a | a in addrs :: a !in LiveAddrs(es)
    requires Distinct(addrs)
    ensures var es' := AddAll(es, addrs, inTime);
            && LiveAddrs(es') == LiveAddrs(es) + (set a | a in addrs && a in inTime)
            && DistinctLive(es') && SameEntries(es, es', {})
  {
    if addrs != [] {
      var front, a := addrs[..|addrs| - 1], addrs[|addrs| - 1];
      AddAllIsLive(es, front, inTime);
      assert addrs == front + [a] && a !in front;
      AddIsLive(AddAll(es, front, inTime), a, a in inTime);
    }
  }

  lemma {:induction false} RemoveAllIsGone(es: seq<Entry>, addrs: seq<string>)
    requires DistinctLive(es)
    ensures var es' := RemoveAll(es, addrs);
            && LiveAddrs(es') == LiveAddrs(es) - (set a | a in addrs)
            && DistinctLive(es') && |es'| == |es|
            && SameEntries(es, es', set a | a in addrs)
  {
    if addrs != [] {
      var front, a := addrs[..|addrs| - 1], addrs[|addrs| - 1];
      RemoveAllIsGone(es, front);
      assert addrs == front + [a];
      RemoveIsGone(RemoveAll(es, front), a);
    }
  }

  // Sync: add what is wanted and missing, then remove what is there and not wanted.
  function Synced(es: seq<Entry>, toAdd: seq<string>, toRemove: seq<string>, inTime: set<string>): seq<Entry> {
    RemoveAll(AddAll(es, toAdd, inTime), toRemove)
  }

  // Whatever the order of its two walks, Sync leaves exactly the wanted addresses that
  // were there already or connected in time, each once, and no index changes hands.
  lemma SyncConverges(es: seq<Entry>, wanted: set<string>, toAdd: seq<string>, toRemove: seq<string>, inTime: set<string>)
    requires DistinctLive(es)
    requires Walks(toAdd, wanted - LiveAddrs(es)) && Walks(toRemove, LiveAddrs(es) - wanted)
    ensures var es' := Synced(es, toAdd, toRemove, inTime);
            && LiveAddrs(es') == (set a | a in wanted && (a in LiveAddrs(es) || a in inTime))
            && DistinctLive(es')
            && SameEntries(es, es', LiveAddrs(es) - wanted)
  {
    hide LiveAddrs, DistinctLive, AddAll, RemoveAll;
    var mid := AddAll(es, toAdd, inTime);
    AddAllIsLive(es, toAdd, inTime);
    RemoveAllIsGone(mid, toRemove);
    assert (set a | a in toRemove) == LiveAddrs(es) - wanted;
  }

  lemma SomethingListed(order: seq<string>)
    ensures order != [] ==> exists a :: a in order
  {
    if order != [] {
      assert order[0] in order;
    }
  }

  // A second Sync with the same servers does nothing if the first one's all connected.
  lemma SecondSyncIsNoOp(
    es: seq<Entry>, wanted: set<string>, toAdd: seq<string>, toRemove: seq<string>, inTime: set<string>,
    toAdd': seq<string>, toRemove': seq<string>, inTime': set<string>)
    requires DistinctLive(es) && wanted <= LiveAddrs(es) + inTime
    requires Walks(toAdd, wanted - LiveAddrs(es)) && Walks(toRemove, LiveAddrs(es) - wanted)
    requires var es' := Synced(es, toAdd, toRemove, inTime);
             Walks(toAdd', wanted - LiveAddrs(es')) && Walks(toRemove', LiveAddrs(es') - wanted)
    ensures var es' := Synced(es, toAdd, toRemove, inTime);
            Synced(es', toAdd', toRemove', inTime') == es'
  {
    SyncConverges(es, wanted, toAdd, toRemove, inTime);
    var es' := Synced(es, toAdd, toRemove, inTime);
    assert LiveAddrs(es') == wanted;
    SomethingListed(toAdd');
    SomethingListed(toRemove');
  }
}

/** Sync while connections drop, dials fail and dials succeed. */
module PoolSyncRuns {
  import opened Wrappers
  import opened PoolEntries
  import opened PoolRuns
  import opened PoolSync

  // An entry as Sync sees it: its address and whether it is stopped.
  function Bare(e: Entry): Entry {
    Entry(e.addr, None, false, e.stopped, RECONNECT_INIT_BACKOFF, false)
  }

  function AllBare(es: seq<Entry>): (bs: seq<Entry>)
    ensures |bs| == |es| && forall i | 0 <= i < |es| :: bs[i] == Bare(es[i])
  {
    seq(|es|, i requires 0 <= i < |es| => Bare(es[i]))
  }

  // What Sync does; the other steps are callbacks and reconnect loops.
  predicate IsOwn(st: Step) {
    st.Adds? || st.AddTimesOut? || st.Removes?
  }

  function Own(steps: seq<Step>): seq<Step> {
    if steps == [] then [] else (if IsOwn(steps[0]) then [steps[0]] else []) + Own(steps[1..])
  }

  // Sync's steps on the bare entries.
  function Reshape(es: seq<Entry>, st: Step): seq<Entry> {
    match st
    case Adds(addr) => es + [Bare(NewEntry(addr))]
    case AddTimesOut(i) => if i < |es| then es[i := es[i].(stopped := true)] else es
    case Removes(addr) => RemoveServer(es, addr)
    case _ => es
  }

  function ReshapeAll(es: seq<Entry>, steps: seq<Step>): seq<Entry>
    decreases |steps|
  {
    if steps == [] then es else ReshapeAll(Reshape(es, steps[0]), steps[1..])
  }

  lemma {:induction false} BareFirstLive(es: seq<Entry>, addr: string)
    ensures FirstLive(AllBare(es), addr) == FirstLive(es, addr)
  {
    if es != [] {
      assert AllBare(es)[1..] == AllBare(es[1..]);
      BareFirstLive(es[1..], addr);
    }
  }

  lemma BareRemove(es: seq<Entry>, addr: string)
    ensures AllBare(RemoveServer(es, addr)) == RemoveServer(AllBare(es), addr)
  {
    hide FirstLive;
    BareFirstLive(es, addr);
  }

  // Drops, failures and connections, wherever they fall, change nothing Sync looks at.
  lemma StepReshapes(w: World, st: Step)
    requires Enabled(w, st) && !st.Closes?
    ensures AllBare(Next(w, st).entries) == if IsOwn(st) then Reshape(AllBare(w.entries), st) else AllBare(w.entries)
  {
    hide FirstLive, RemoveServer;
    if st.Removes? {
      BareRemove(w.entries, st.addr);
    }
  }

  predicate NeverCloses(steps: seq<Step>) {
    Closes !in steps
  }

  lemma {:induction false} RunReshapes(w: World, steps: seq<Step>)
    requires ValidRun(w, steps) && NeverCloses(steps)
    ensures AllBare(End(w, steps).entries) == ReshapeAll(AllBare(w.entries), Own(steps))
    decreases |steps|
  {
    hide Next, Reshape, AllBare;
    if steps != [] {
      StepReshapes(w, steps[0]);
      RunReshapes(Next(w, steps[0]), steps[1..]);
      var own := Own(steps[1..]);
      assert IsOwn(steps[0]) ==> ([steps[0]] + own)[1..] == own;
      assert [] + own == own;
    }
  }

  // The steps of one Sync over a pool of n entries: AddServer appends an entry and stops
  // it if it does not connect in time, before the next one starts.
  function AddSteps(n: nat, addrs: seq<string>, inTime: set<string>): seq<Step> {
    if addrs == [] then []
    else
      var k, a := |addrs| - 1, addrs[|addrs| - 1];
      AddSteps(n, addrs[..k], inTime) + ([Adds(a)] + if a in inTime then [] else [AddTimesOut(n + k)])
  }

  function RemoveSteps(addrs: seq<string>): seq<Step> {
    if addrs == [] then [] else RemoveSteps(addrs[..|addrs| - 1]) + [Removes(addrs[|addrs| - 1])]
  }

  lemma {:induction false} ReshapeConcat(es: seq<Entry>, a: seq<Step>, b: seq<Step>)
    ensures ReshapeAll(es, a + b) == ReshapeAll(ReshapeAll(es, a), b)
    decreases |a|
  {
    hide Reshape;
    if a == [] {
      assert a + b == b;
    } else {
      assert (a + b)[1..] == a[1..] + b;
      ReshapeConcat(Reshape(es, a[0]), a[1..], b);
    }
  }

  lemma AddedBare(es: seq<Entry>, a: string, inTime: bool)
    ensures ReshapeAll(AllBare(es), [Adds(a)] + (if inTime then [] else [AddTimesOut(|es|)]))
            == AllBare(AddServer(es, a, inTime))
  {
    var bare := AllBare(es);
    var one := Reshape(bare, Adds(a));
    if inTime {
      assert [Adds(a)] + [] == [Adds(a)] && [Adds(a)][1..] == [];
      assert ReshapeAll(one, []) == one;
      assert one == AllBare(AddServer(es, a, true));
    } else {
      var st := [AddTimesOut(|es|)];
      assert ([Adds(a)] + st)[1..] == st && st[1..] == [];
      var two := Reshape(one, st[0]);
      assert ReshapeAll(two, []) == two;
      assert ReshapeAll(one, st) == two;
      assert two == AllBare(AddServer(es, a, false));
    }
  }

  lemma NothingReshaped(es: seq<Entry>)
    ensures ReshapeAll(es, []) == es
  {
  }

  lemma AddGrows(es: seq<Entry>, a: string, inTime: bool)
    ensures |AddServer(es, a, inTime)| == |es| + 1
  {
  }

  lemma {:induction false} AddsReshape(es: seq<Entry>, addrs: seq<string>, inTime: set<string>)
    ensures ReshapeAll(AllBare(es), AddSteps(|es|, addrs, inTime)) == AllBare(AddAll(es, addrs, inTime))
    ensures |AddAll(es, addrs, inTime)| == |es| + |addrs|
  {
    hide Reshape, AllBare, ReshapeAll, AddServer;
    if addrs == [] {
      NothingReshaped(AllBare(es));
    } else {
      var k, a := |addrs| - 1, addrs[|addrs| - 1];
      AddsReshape(es, addrs[..k], inTime);
      var mid := AddAll(es, addrs[..k], inTime);
      AddedBare(mid, a, a in inTime);
      AddGrows(mid, a, a in inTime);
      ReshapeConcat(AllBare(es), AddSteps(|es|, addrs[..k], inTime), [Adds(a)] + if a in inTime then [] else [AddTimesOut(|es| + k)]);
    }
  }

  lemma {:induction false} RemovesReshape(es: seq<Entry>, addrs: seq<string>)
    ensures ReshapeAll(AllBare(es), RemoveSteps(addrs)) == AllBare(RemoveAll(es, addrs))
  {
    hide AllBare, RemoveServer;
    if addrs != [] {
      var front, a := addrs[..|addrs| - 1], addrs[|addrs| - 1];
      RemovesReshape(es, front);
      BareRemove(RemoveAll(es, front), a);
      ReshapeConcat(AllBare(es), RemoveSteps(front), [Removes(a)]);
      var mid := AllBare(RemoveAll(es, front));
      assert [Removes(a)][1..] == [];
      assert ReshapeAll(RemoveServer(mid, a), []) == RemoveServer(mid, a);
      assert ReshapeAll(mid, [Removes(a)]) == RemoveServer(mid, a);
    }
  }

  lemma BareLive(es: seq<Entry>, fs: seq<Entry>)
    requires AllBare(es) == AllBare(fs)
    ensures LiveAddrs(es) == LiveAddrs(fs) && (DistinctLive(es) <==> DistinctLive(fs))
    ensures |es| == |fs| && forall i | 0 <= i < |es| :: es[i].addr == fs[i].addr && es[i].stopped == fs[i].stopped
  {
    assert |es| == |AllBare(es)| == |AllBare(fs)| == |fs|;
    forall i | 0 <= i < |es| ensures es[i].addr == fs[i].addr && es[i].stopped == fs[i].stopped {
      assert AllBare(es)[i] == AllBare(fs)[i];
    }
    SameLiveAddrs(es, fs);
    SameLiveAddrs(fs, es);
  }

  lemma SameLiveAddrs(es: seq<Entry>, fs: seq<Entry>)
    requires |es| == |fs| && forall i | 0 <= i < |es| :: es[i].addr == fs[i].addr && es[i].stopped == fs[i].stopped
    ensures LiveAddrs(es) <= LiveAddrs(fs)
  {
    forall a | a in LiveAddrs(es) ensures a in LiveAddrs(fs) {
      var i :| 0 <= i < |es| && !es[i].stopped && es[i].addr == a;
      assert fs[i].addr == a && !fs[i].stopped;
    }
  }

  // A run whose own steps are those of one Sync, with any others in between, arrives at
  // the same addresses as a Sync that runs alone: exactly the wanted ones that were there
  // or connected in time, each once. Every index keeps its address, and of the entries
  // there before only unwanted ones are stopped.
  lemma SyncConvergesInterleaved(
    w: World, steps: seq<Step>, wanted: set<string>, toAdd: seq<string>, toRemove: seq<string>, inTime: set<string>)
    requires ValidRun(w, steps) && NeverCloses(steps) && DistinctLive(w.entries)
    requires Walks(toAdd, wanted - LiveAddrs(w.entries)) && Walks(toRemove, LiveAddrs(w.entries) - wanted)
    requires Own(steps) == AddSteps(|w.entries|, toAdd, inTime) + RemoveSteps(toRemove)
    ensures var es, es' := w.entries, End(w, steps).entries;
            && LiveAddrs(es') == (set a | a in wanted && (a in LiveAddrs(es) || a in inTime))
            && DistinctLive(es') && |es| <= |es'|
            && forall i | 0 <= i < |es| ::
                 && es'[i].addr == es[i].addr
                 && (es'[i].stopped == es[i].stopped || (es'[i].stopped && es[i].addr in LiveAddrs(es) - wanted))
  {
    hide LiveAddrs, DistinctLive, AllBare, Walks, AddAll, RemoveAll, AddSteps, RemoveSteps;
    var es, es' := w.entries, End(w, steps).entries;
    RunReshapes(w, steps);
    ReshapeConcat(AllBare(es), AddSteps(|es|, toAdd, inTime), RemoveSteps(toRemove));
    AddsReshape(es, toAdd, inTime);
    RemovesReshape(AddAll(es, toAdd, inTime), toRemove);
    SyncConverges(es, wanted, toAdd, toRemove, inTime);
    BareLive(es', Synced(es, toAdd, toRemove, inTime));
  }
}

/** The pool object: a list of entry objects that are changed in place and never moved. */
module PoolServer {
  import opened Wrappers
  import opened PoolEntries
  import opened PoolSync

  class ConnEntry {
    const addr: string
    var conn: Option<Conn>
    var healthy: bool
    var stopped: bool
    var backoff: int
    var reconnecting: bool

    constructor (addr: string)
      ensures Value() == NewEntry(addr)
    {
      this.addr := addr;
      conn, healthy, stopped, backoff, reconnecting := None, false, false, RECONNECT_INIT_BACKOFF, false;
    }

    ghost function Value(): Entry
      reads this
    {
      Entry(addr, conn, healthy, stopped, backoff, reconnecting)
    }

    // The locked part of OnDisconnect.
    method MarkDead() returns (startLoop: bool)
      modifies this
      ensures (Value(), startLoop) == Disconnected(old(Value()))
    {
      healthy := false;
      conn := None;
      if reconnecting || stopped {
        return false;
      }
      reconnecting := true;
      return true;
    }

    // The locked part of reconnectLoop after a dial.
    method AfterDial(dialled: Option<Conn>) returns (goesOn: bool)
      modifies this
      ensures dialled.Some? ==> Value() == LoopInstalls(old(Value()), dialled.value) && !goesOn
      ensures dialled.None? ==> (Value(), goesOn) == LoopFails(old(Value()))
    {
      if dialled.Some? {
        conn := dialled;
        healthy := true;
        backoff := RECONNECT_INIT_BACKOFF;
        reconnecting := false;
        return false;
      }
      if stopped {
        return false;
      }
      if backoff < RECONNECT_MAX_BACKOFF {
        backoff := backoff * 2;
      }
      return true;
    }
  }

  // An entry's loop over the outcomes of its dials: the entry it leaves behind, and
  // whether it is still running when the outcomes are used up.
  function LoopRun(e: Entry, dials: seq<Option<Conn>>): (Entry, bool)
    decreases |dials|
  {
    if dials == [] then (e, true)
    else if dials[0].Some? then (LoopInstalls(e, dials[0].value), false)
    else
      var (e', goesOn) := LoopFails(e);
      if goesOn then LoopRun(e', dials[1..]) else (e', false)
  }

  function GrowBy(backoff: int, n: nat): int {
    if n == 0 then backoff else Grow(GrowBy(backoff, n - 1))
  }

  lemma {:induction false} GrowFirst(backoff: int, n: nat)
    ensures GrowBy(Grow(backoff), n) == GrowBy(backoff, n + 1)
  {
    if n > 0 {
      GrowFirst(backoff, n - 1);
    }
  }

  // The loop of an entry that is not stopped goes through every failure, with a longer
  // wait after each, and ends with the first dial that connects, which it installs with
  // the wait back at its start.
  lemma {:induction false} LoopEndsWithFirstConnection(e: Entry, dials: seq<Option<Conn>>, n: nat)
    requires !e.stopped && n <= |dials| && forall i | 0 <= i < n :: dials[i].None?
    ensures n == |dials| ==> LoopRun(e, dials) == (e.(backoff := GrowBy(e.backoff, n)), true)
    ensures n < |dials| && dials[n].Some? ==>
              && !LoopRun(e, dials).1 && LoopRun(e, dials).0.conn == dials[n] && LoopRun(e, dials).0.healthy
              && !LoopRun(e, dials).0.reconnecting && LoopRun(e, dials).0.backoff == RECONNECT_INIT_BACKOFF
              && LoopRun(e, dials).0.addr == e.addr && !LoopRun(e, dials).0.stopped
    decreases n
  {
    if n > 0 {
      GrowFirst(e.backoff, n - 1);
      LoopEndsWithFirstConnection(e.(backoff := Grow(e.backoff)), dials[1..], n - 1);
    }
  }

  // The loop of a stopped entry ends with its first dial, whatever comes of it.
  lemma StoppedLoopEnds(e: Entry, dials: seq<Option<Conn>>)
    requires e.stopped && dials != []
    ensures !LoopRun(e, dials).1 && LoopRun(e, dials).0.stopped
    ensures dials[0].None? ==> LoopRun(e, dials).0 == e
  {
  }

  // reconnectLoop with nothing else touching the entry.
  method ReconnectLoop(entry: ConnEntry, dials: seq<Option<Conn>>) returns (running: bool)
    modifies entry
    ensures (entry.Value(), running) == LoopRun(old(entry.Value()), dials)
  {
    running := true;
    var i := 0;
    while running && i < |dials|
      invariant i <= |dials|
      invariant LoopRun(old(entry.Value()), dials)
                == if running then LoopRun(entry.Value(), dials[i..]) else (entry.Value(), false)
    {
      running := entry.AfterDial(dials[i]);
      i := i + 1;
    }
  }

  class Pool {
    var conns: seq<ConnEntry>

    ghost predicate Valid()
      reads this
    {
      forall i, j | 0 <= i < j < |conns| :: conns[i] != conns[j]
    }

    ghost function Values(): (es: seq<Entry>)
      reads this, conns
      ensures |es| == |conns| && forall i | 0 <= i < |conns| :: es[i] == conns[i].Value()
    {
      seq(|conns|, i requires 0 <= i < |conns| reads this, conns => conns[i].Value())
    }

    constructor ()
      ensures Valid() && conns == []
    {
      conns := [];
    }

    method AddServer(addr: string, inTime: bool)
      requires Valid()
      modifies this`conns
      ensures Valid() && |conns| == |old(conns)| + 1 && old(conns) <= conns && fresh(conns[|old(conns)|])
      ensures Values() == PoolEntries.AddServer(old(Values()), addr, inTime)
    {
      var entry := new ConnEntry(addr);
      if inTime {
        entry.conn := Some(Conn(|conns|, 0));
        entry.healthy := true;
      } else {
        entry.stopped := true;
      }
      conns := conns + [entry];
    }

    // `stops` is the connection it stops, whose callback follows.
    method RemoveServer(addr: string) returns (stops: Option<Conn>)
      requires Valid()
      modifies conns
      ensures Valid() && conns == old(conns)
      ensures Values() == PoolEntries.RemoveServer(old(Values()), addr)
      ensures var i := FirstLive(old(Values()), addr);
              stops == if i < |conns| then old(Values())[i].conn else None
    {
      stops := None;
      var i := 0;
      while i < |conns| && !(conns[i].addr == addr && !conns[i].stopped)
        invariant i <= |conns| && conns == old(conns) && Values() == old(Values())
        invariant forall j | 0 <= j < i :: Values()[j].addr != addr || Values()[j].stopped
      {
        i := i + 1;
      }
      assert i < |conns| ==> Values()[i].addr == addr && !Values()[i].stopped;
      assert i == FirstLive(old(Values()), addr);
      if i < |conns| {
        conns[i].stopped := true;
        stops := conns[i].conn;
      }
    }

    // ServerAddrs, as the set Sync makes of it.
    method ServerAddrs() returns (addrs: set<string>)
      ensures addrs == LiveAddrs(Values())
    {
      addrs := {};
      for i := 0 to |conns|
        invariant addrs == LiveAddrs(Values()[..i])
      {
        assert Values()[..i + 1] == Values()[..i] + [conns[i].Value()];
        LiveAddrsAppend(Values()[..i], conns[i].Value());
        if !conns[i].stopped {
          addrs := addrs + {conns[i].addr};
        }
      }
      assert Values()[..|conns|] == Values();
    }

    // The two walks are returned so that the result can be told from the old entries.
    method Sync(servers: seq<string>, inTime: set<string>) returns (ghost toAdd: seq<string>, ghost toRemove: seq<string>)
      requires Valid()
      modifies this`conns, conns
      ensures Valid() && old(conns) <= conns
      ensures var wanted := set a | a in servers;
              && Walks(toAdd, wanted - LiveAddrs(old(Values())))
              && Walks(toRemove, LiveAddrs(old(Values())) - wanted)
              && Values() == Synced(old(Values()), toAdd, toRemove, inTime)
    {
      ghost var before := Values();
      var current := ServerAddrs();
      var wanted := set a | a in servers;
      toAdd := AddMissing(wanted - current, inTime);
      toRemove := RemoveExtra(current - wanted);
    }

    method AddMissing(missing: set<string>, inTime: set<string>) returns (ghost order: seq<string>)
      requires Valid()
      modifies this`conns
      ensures Valid() && old(conns) <= conns && fresh(set e | e in conns[|old(conns)|..])
      ensures Walks(order, missing) && Values() == AddAll(old(Values()), order, inTime)
    {
      ghost var before := Values();
      order := [];
      var todo := missing;
      while todo != {}
        invariant Valid() && old(conns) <= conns && fresh(set e | e in conns[|old(conns)|..])
        invariant todo <= missing && Walks(order, missing - todo)
        invariant Values() == AddAll(before, order, inTime)
        decreases todo
      {
        var a := Pick(todo);
        AddServer(a, a in inTime);
        assert (order + [a])[..|order|] == order;
        WalksOn(order, missing, todo, a);
        order, todo := order + [a], todo - {a};
      }
      assert missing - todo == missing;
    }

    method RemoveExtra(extra: set<string>) returns (ghost order: seq<string>)
      requires Valid()
      modifies conns
      ensures Valid() && conns == old(conns)
      ensures Walks(order, extra) && Values() == RemoveAll(old(Values()), order)
    {
      hide Walks, FirstLive, RemoveAll, LiveAddrs, DistinctLive;
      ghost var before := Values();
      order := [];
      var todo := extra;
      WalksNothing(extra);
      RemoveAllNone(before);
      while todo != {}
        invariant Valid() && conns == old(conns)
        invariant todo <= extra && Walks(order, extra - todo)
        invariant Values() == RemoveAll(before, order)
        decreases todo
      {
        var a := Pick(todo);
        var _ := RemoveServer(a);
        RemoveAllOn(before, order, a);
        WalksOn(order, extra, todo, a);
        order, todo := order + [a], todo - {a};
      }
      assert extra - todo == extra;
    }

    method HealthyConns() returns (healthy: seq<Conn>)
      ensures healthy == PoolEntries.HealthyConns(Values())
    {
      healthy := [];
      for i := 0 to |conns|
        invariant healthy == PoolEntries.HealthyConns(Values()[..i])
      {
        assert Values()[..i + 1][..i] == Values()[..i];
        var e := conns[i];
        if e.healthy && e.conn.Some? && !e.stopped {
          healthy := healthy + [e.conn.value];
        }
      }
      assert Values()[..|conns|] == Values();
    }

    method Close() returns (stops: seq<Option<Conn>>)
      requires Valid()
      modifies conns
      ensures conns == old(conns) && |stops| == |conns|
      ensures forall i | 0 <= i < |conns| :: Values()[i] == old(Values())[i].(stopped := true)
      ensures forall i | 0 <= i < |conns| :: stops[i] == old(Values())[i].conn
    {
      stops := [];
      for i := 0 to |conns|
        invariant conns == old(conns) && |stops| == i
        invariant forall j | 0 <= j < i :: conns[j].Value() == old(Values())[j].(stopped := true)
        invariant forall j | 0 <= j < i :: stops[j] == old(Values())[j].conn
        invariant forall j | i <= j < |conns| :: conns[j].Value() == old(Values())[j]
      {
        conns[i].stopped := true;
        stops := stops + [conns[i].conn];
      }
    }

    // `startLoop`: a reconnect loop is started for the entry.
    method OnDisconnect(i: nat) returns (startLoop: bool)
      requires Valid() && i < |conns|
      modifies conns[i]
      ensures conns == old(conns)
      ensures (Values()[i], startLoop) == Disconnected(old(Values())[i])
      ensures forall j | 0 <= j < |conns| && j != i :: Values()[j] == old(Values())[j]
    {
      startLoop := conns[i].MarkDead();
    }
  }

  lemma LiveAddrsAppend(es: seq<Entry>, e: Entry)
    ensures LiveAddrs(es + [e]) == LiveAddrs(es) + (if e.stopped then {} else {e.addr})
  {
    var es' := es + [e];
    assert forall i | 0 <= i < |es| :: es'[i] == es[i];
    assert es'[|es|] == e;
    forall x ensures x in LiveAddrs(es') <==> x in LiveAddrs(es) + (if e.stopped then {} else {e.addr}) {
      if x in LiveAddrs(es) {
        var i :| 0 <= i < |es| && !es[i].stopped && es[i].addr == x;
        assert es'[i].addr == x && !es'[i].stopped;
      }
    }
  }

  lemma RemoveAllNone(es: seq<Entry>)
    ensures RemoveAll(es, []) == es
  {
  }

  lemma RemoveAllOn(es: seq<Entry>, order: seq<string>, a: string)
    ensures RemoveAll(es, order + [a]) == PoolEntries.RemoveServer(RemoveAll(es, order), a)
  {
    assert (order + [a])[..|order|] == order;
  }

  lemma WalksNothing(s: set<string>)
    ensures Walks([], s - s)
  {
  }

  lemma WalksOn(order: seq<string>, all: set<string>, todo: set<string>, a: string)
    requires Walks(order, all - todo) && a in todo && todo <= all
    ensures Walks(order + [a], all - (todo - {a}))
  {
  }
}
