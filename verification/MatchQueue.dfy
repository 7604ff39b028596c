/** Conservation and order of each match type's queue, over whole runs. */
module MatchQueue {
  import opened Matchmaking

  // What happened to one match type: everyone who entered, in order; the positions in
  // that list of those who were force-removed; the groups that were matched.
  datatype History = History(entered: seq<Queued>, removed: set<nat>, groups: seq<seq<Queued>>)

  const NOTHING: History := History([], {}, [])

  // The entries that were not removed, in order.
  function Kept(entered: seq<Queued>, removed: set<nat>): seq<Queued> {
    if entered == [] then []
    else
      var front := Kept(entered[..|entered| - 1], removed);
      if |entered| - 1 in removed then front else front + [entered[|entered| - 1]]
  }

  // Where the n-th kept entry stands in the list of all entries.
  function KeptAt(entered: seq<Queued>, removed: set<nat>, n: nat): (i: nat)
    requires n < |Kept(entered, removed)|
    ensures i < |entered| && i !in removed && entered[i] == Kept(entered, removed)[n]
  {
    var front := entered[..|entered| - 1];
    if n < |Kept(front, removed)| then KeptAt(front, removed, n) else |entered| - 1
  }

  function Flatten(groups: seq<seq<Queued>>): seq<Queued> {
    if groups == [] then [] else Flatten(groups[..|groups| - 1]) + groups[|groups| - 1]
  }

  // One step's effect on the history of type t, told from the state before the step.
  function Track(h: History, s: State, st: Step, t: string): History {
    var q := QueueOf(s, t);
    match st
    case StepEnter(t', p, _, _) =>
      if t' != t then h
      else
        h.(entered := h.entered + [p],
           groups := if EnterMatches(s, t) then h.groups + [(q + [p])[..RequiredPlayers(t)]] else h.groups)
    case StepForceLeave(t', player) =>
      var n := |Flatten(h.groups)| + FirstOf(q, player);
      if t' != t || FirstOf(q, player) == |q| || n >= |Kept(h.entered, h.removed)| then h
      else h.(removed := h.removed + {KeptAt(h.entered, h.removed, n)})
    case _ => h
  }

  function HistoryOf(h: History, s: State, steps: seq<Step>, t: string): History
    decreases |steps|
  {
    if steps == [] then h else HistoryOf(Track(h, s, steps[0], t), Next(s, steps[0]), steps[1..], t)
  }

  ghost predicate Inv(h: History, s: State, t: string) {
    && Kept(h.entered, h.removed) == Flatten(h.groups) + QueueOf(s, t)
    && (forall g | g in h.groups :: |g| == RequiredPlayers(t))
    && |QueueOf(s, t)| < RequiredPlayers(t)
    && (forall i | i in h.removed :: i < |h.entered|)
  }

  lemma {:induction false} KeptIgnoresLater(entered: seq<Queued>, removed: set<nat>, i: nat)
    requires i >= |entered|
    ensures Kept(entered, removed + {i}) == Kept(entered, removed)
  {
    if entered != [] {
      KeptIgnoresLater(entered[..|entered| - 1], removed, i);
    }
  }

  lemma {:induction false} KeptWithout(entered: seq<Queued>, removed: set<nat>, n: nat)
    requires n < |Kept(entered, removed)|
    ensures Kept(entered, removed + {KeptAt(entered, removed, n)})
            == Kept(entered, removed)[..n] + Kept(entered, removed)[n + 1..]
  {
    var front := entered[..|entered| - 1];
    if n < |Kept(front, removed)| {
      KeptWithout(front, removed, n);
    } else {
      KeptIgnoresLater(front, removed, |entered| - 1);
    }
  }

  lemma KeptAppend(entered: seq<Queued>, removed: set<nat>, p: Queued)
    requires |entered| !in removed
    ensures Kept(entered + [p], removed) == Kept(entered, removed) + [p]
  {
  }

  lemma FlattenAppend(groups: seq<seq<Queued>>, g: seq<Queued>)
    ensures Flatten(groups + [g]) == Flatten(groups) + g
  {
  }

  lemma EnterKeeps(h: History, s: State, t: string, p: Queued, id: string, servers: seq<string>)
    requires Inv(h, s, t)
    ensures Inv(Track(h, s, StepEnter(t, p, id, servers), t), Enter(s, t, p, id, servers), t)
  {
    hide Kept, Flatten, PickLeast, RequiredPlayers;
    KeptAppend(h.entered, h.removed, p);
    var pool, n := QueueOf(s, t) + [p], RequiredPlayers(t);
    var s' := Enter(s, t, p, id, servers);
    if EnterMatches(s, t) {
      FlattenAppend(h.groups, pool[..n]);
      assert QueueOf(s', t) == pool[n..];
      assert Flatten(h.groups) + pool == Flatten(h.groups) + pool[..n] + pool[n..];
    } else {
      assert QueueOf(s', t) == pool;
    }
    assert Flatten(h.groups) + pool == Flatten(h.groups) + QueueOf(s, t) + [p];
  }

  lemma DropFromConcat<T>(a: seq<T>, q: seq<T>, i: nat)
    requires i < |q|
    ensures (a + q)[..|a| + i] + (a + q)[|a| + i + 1..] == a + (q[..i] + q[i + 1..])
  {
  }

  lemma KeptAfterDrop(entered: seq<Queued>, removed: set<nat>, a: seq<Queued>, q: seq<Queued>, i: nat)
    requires Kept(entered, removed) == a + q && i < |q|
    ensures Kept(entered, removed + {KeptAt(entered, removed, |a| + i)}) == a + (q[..i] + q[i + 1..])
  {
    hide Kept, KeptAt;
    var all, n := a + q, |a| + i;
    KeptWithout(entered, removed, n);
    assert Kept(entered, removed + {KeptAt(entered, removed, n)}) == all[..n] + all[n + 1..];
    DropFromConcat(a, q, i);
  }

  lemma ForceLeaveKeeps(h: History, s: State, t: string, player: int)
    requires Inv(h, s, t)
    ensures Inv(Track(h, s, StepForceLeave(t, player), t), ForceLeave(s, t, player), t)
  {
    hide Kept, KeptAt, Flatten, FirstOf, RequiredPlayers;
    var q := QueueOf(s, t);
    var i := FirstOf(q, player);
    if i < |q| {
      KeptAfterDrop(h.entered, h.removed, Flatten(h.groups), q, i);
      assert QueueOf(ForceLeave(s, t, player), t) == q[..i] + q[i + 1..];
    }
  }

  lemma StepKeeps(h: History, s: State, st: Step, t: string)
    requires Inv(h, s, t)
    ensures Inv(Track(h, s, st, t), Next(s, st), t)
  {
    if st.StepEnter? && st.t == t {
      EnterKeeps(h, s, t, st.p, st.id, st.servers);
    } else if st.StepForceLeave? && st.t == t {
      ForceLeaveKeeps(h, s, t, st.player);
    } else {
      hide Kept, KeptAt, Flatten, FirstOf, RequiredPlayers, PickLeast;
      assert Track(h, s, st, t) == h && QueueOf(Next(s, st), t) == QueueOf(s, t);
    }
  }

  lemma {:induction false} RunKeeps(h: History, s: State, steps: seq<Step>, t: string)
    requires Inv(h, s, t)
    ensures Inv(HistoryOf(h, s, steps, t), Run(s, steps), t)
    decreases |steps|
  {
    if steps != [] {
      StepKeeps(h, s, steps[0], t);
      RunKeeps(Track(h, s, steps[0], t), Next(s, steps[0]), steps[1..], t);
    }
  }

  // Everyone who asked to enter type t, read off the steps alone.
  function Requests(steps: seq<Step>, t: string): seq<Queued> {
    if steps == [] then []
    else (if steps[0].StepEnter? && steps[0].t == t then [steps[0].p] else []) + Requests(steps[1..], t)
  }

  lemma {:induction false} EnteredIsRequests(h: History, s: State, steps: seq<Step>, t: string)
    ensures HistoryOf(h, s, steps, t).entered == h.entered + Requests(steps, t)
    decreases |steps|
  {
    hide Next, Kept, KeptAt, FirstOf;
    if steps != [] {
      EnteredIsRequests(Track(h, s, steps[0], t), Next(s, steps[0]), steps[1..], t);
    }
  }

  lemma {:induction false} RemovedWereAsked(h: History, s: State, steps: seq<Step>, t: string)
    requires Inv(h, s, t)
    ensures var h' := HistoryOf(h, s, steps, t);
            && h.entered <= h'.entered
            && forall i | i in h'.removed && i !in h.removed ::
                 i < |h'.entered| && StepForceLeave(t, h'.entered[i].playerId) in steps
    decreases |steps|
  {
    RunKeeps(h, s, steps, t);
    if steps != [] {
      var st, h1 := steps[0], Track(h, s, steps[0], t);
      StepKeeps(h, s, st, t);
      RemovedWereAsked(h1, Next(s, st), steps[1..], t);
      var h' := HistoryOf(h, s, steps, t);
      forall i | i in h'.removed && i !in h.removed
        ensures i < |h'.entered| && StepForceLeave(t, h'.entered[i].playerId) in steps
      {
        if i in h1.removed {
          RemovedNow(h, s, st, t, i);
          assert h1.entered[i] == h'.entered[i];
          assert st in steps;
        }
      }
    }
  }

  lemma RemovedNow(h: History, s: State, st: Step, t: string, i: nat)
    requires Inv(h, s, t) && i in Track(h, s, st, t).removed && i !in h.removed
    ensures i < |h.entered| && Track(h, s, st, t).entered == h.entered
    ensures st == StepForceLeave(t, h.entered[i].playerId)
  {
  }

  // In every run from empty, those who asked to enter a type, less those who were
  // force-removed while waiting, are in order the matched groups followed by the
  // waiting queue. Each group is full and the queue is never long enough for one.
  lemma QueueIsConservedAndFifo(steps: seq<Step>, t: string)
    ensures var h, s := HistoryOf(NOTHING, EMPTY, steps, t), Run(EMPTY, steps);
            && Kept(Requests(steps, t), h.removed) == Flatten(h.groups) + QueueOf(s, t)
            && (forall i | i in h.removed ::
                  i < |Requests(steps, t)| && StepForceLeave(t, Requests(steps, t)[i].playerId) in steps)
            && (forall g | g in h.groups :: |g| == RequiredPlayers(t))
            && |QueueOf(s, t)| < RequiredPlayers(t)
  {
    assert Inv(NOTHING, EMPTY, t);
    RunKeeps(NOTHING, EMPTY, steps, t);
    RemovedWereAsked(NOTHING, EMPTY, steps, t);
    EnteredIsRequests(NOTHING, EMPTY, steps, t);
    assert NOTHING.entered + Requests(steps, t) == Requests(steps, t);
  }
}
