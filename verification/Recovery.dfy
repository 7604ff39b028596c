/**
 SessionSvr with its disk, step by step: handlers, the expiry scanner, the phases of
 a snapshot, and a crash after any of them. A handler is one step (it changes the
 table and appends its journal entry together); a snapshot is one step per change
 it makes on disk, and handlers may run between those steps.
 */
module Recovery {
  import opened Wrappers
  import opened Sessions
  import opened ReplayFacts

  // snapshot.json, snapshot.json.tmp and journal.log; None is a missing file.
  datatype Disk = Disk(snapshot: Option<Table>, tmp: Option<Table>, journal: Option<seq<Entry>>)

  // Where Store.Snapshot is. `mark` is the journal's length when the state was captured.
  datatype Phase =
    | Idle
    | Captured(state: Table, mark: nat)
    | Written(state: Table, mark: nat)
    | Renamed(state: Table, mark: nat)
    | Removed

  // `log` is every entry accepted since the beginning; nothing reads it.
  datatype World = World(live: Table, disk: Disk, phase: Phase, clock: int, log: seq<Entry>)

  datatype Step =
    | Receive(e: Entry)
    | Expire(player: PlayerId, now: int)
    | Tick(to: int)
    | Capture
    | WriteTmp
    | Rename
    | RemoveJournal
    | CreateJournal
    | Abort
    | Crash

  function Journal(d: Disk): seq<Entry> {
    if d.journal.Some? then d.journal.value else []
  }

  function Base(d: Disk): Table {
    if d.snapshot.Some? then d.snapshot.value else map[]
  }

  // OpenStore: load the snapshot, replay the journal. A leftover .tmp is never read.
  function Recovered(d: Disk): Table {
    ReplayAll(Base(d), Journal(d))
  }

  // Receive: a disconnect is stamped with the clock, and while the journal is being
  // rotated the store's lock keeps appends out. Expire: one visit of the scanner,
  // whose `now` was read at the start of its pass. Abort: Snapshot returns early
  // because a write or rename failed or the store was closed.
  predicate Enabled(w: World, st: Step) {
    match st
    case Receive(e) => !w.phase.Removed? && (e.Disconnect? ==> e.at == w.clock)
    case Expire(_, now) => now <= w.clock
    case Tick(to) => w.clock <= to
    case Capture => w.phase.Idle?
    case WriteTmp => w.phase.Captured?
    case Rename => w.phase.Written?
    case RemoveJournal => w.phase.Renamed?
    case CreateJournal => w.phase.Removed?
    case Abort => w.phase.Captured? || w.phase.Written? || w.phase.Renamed?
    case Crash => true
  }

  function Next(w: World, st: Step): World
    requires Enabled(w, st)
  {
    match st
    case Receive(e) =>
      if Accepted(Lookup(w.live, e.player), e) then
        w.(live := Handle(w.live, e),
           disk := w.disk.(journal := Some(Journal(w.disk) + [e])),
           log := w.log + [e])
      else w.(live := Handle(w.live, e))
    case Expire(p, now) =>
      if p in w.live && Expired(w.live[p], now) then w.(live := w.live - {p}) else w
    case Tick(to) => w.(clock := to)
    case Capture => w.(phase := Captured(w.live, |Journal(w.disk)|))
    case WriteTmp =>
      w.(phase := Written(w.phase.state, w.phase.mark), disk := w.disk.(tmp := Some(w.phase.state)))
    case Rename =>
      w.(phase := Renamed(w.phase.state, w.phase.mark),
         disk := w.disk.(snapshot := Some(w.phase.state), tmp := None))
    case RemoveJournal => w.(phase := Removed, disk := w.disk.(journal := None))
    case CreateJournal => w.(phase := Idle, disk := w.disk.(journal := Some([])))
    case Abort => w.(phase := Idle)
    case Crash =>
      w.(live := Recovered(w.disk), phase := Idle, disk := w.disk.(journal := Some(Journal(w.disk))))
  }

  predicate ValidRun(w: World, steps: seq<Step>)
    decreases |steps|
  {
    steps != [] ==> Enabled(w, steps[0]) && ValidRun(Next(w, steps[0]), steps[1..])
  }

  function End(w: World, steps: seq<Step>): World
    requires ValidRun(w, steps)
    decreases |steps|
  {
    if steps == [] then w else End(Next(w, steps[0]), steps[1..])
  }

  // A first start with an empty directory.
  function Start(clock: int): World {
    World(map[], Disk(None, None, Some([])), Idle, clock, [])
  }

  // ---- the two ways the source can lose an update of player p ----

  predicate UntouchedSince(j: seq<Entry>, mark: nat, p: PlayerId) {
    forall i | mark <= i < |j| :: j[i].player != p
  }

  // A disconnect for a player without a session is journaled but not replayed, and
  // rotating the journal drops what was appended after the snapshot was captured.
  predicate Careful(w: World, st: Step, p: PlayerId) {
    match st
    case Receive(e) => e.player == p && e.Disconnect? ==> p in w.live
    case RemoveJournal => w.phase.Renamed? ==> UntouchedSince(Journal(w.disk), w.phase.mark, p)
    case _ => true
  }

  predicate CarefulRun(w: World, steps: seq<Step>, p: PlayerId)
    requires ValidRun(w, steps)
    decreases |steps|
  {
    steps != [] ==> Careful(w, steps[0], p) && CarefulRun(Next(w, steps[0]), steps[1..], p)
  }

  // A save without tags finds none of the player's on disk. Otherwise it clears tags
  // in memory that recovery brings back.
  predicate NoTagsOnDisk(w: World, p: PlayerId) {
    Tagless(Lookup(Base(w.disk), p)) && NoTags(Of(Journal(w.disk), p))
  }

  predicate TagCareful(w: World, st: Step, p: PlayerId) {
    st.Receive? && st.e.player == p && st.e.Save? && st.e.tags == map[] ==> NoTagsOnDisk(w, p)
  }

  predicate TagCarefulRun(w: World, steps: seq<Step>, p: PlayerId)
    requires ValidRun(w, steps)
    decreases |steps|
  {
    steps != [] ==> TagCareful(w, steps[0], p) && TagCarefulRun(Next(w, steps[0]), steps[1..], p)
  }

  // ---- the invariant ----

  ghost function Share(w: World, p: PlayerId): seq<Entry> {
    Of(Journal(w.disk), p)
  }

  ghost function RecoveredFor(w: World, p: PlayerId): Option<Session> {
    Fold(Lookup(Base(w.disk), p), Share(w, p))
  }

  ghost predicate Pending(w: World) {
    w.phase.Captured? || w.phase.Written? || w.phase.Renamed?
  }

  ghost predicate PhaseMatchesDisk(w: World) {
    && (w.phase.Renamed? ==> w.disk.snapshot == Some(w.phase.state))
    && (w.phase.Removed? ==> w.disk.journal == None)
    && (Pending(w) ==> w.phase.mark <= |Journal(w.disk)|)
  }

  // While a snapshot is pending, its state with the journal is as good as what is on
  // disk, and by itself while the player has no new entry.
  ghost predicate CapturedIsSound(w: World, p: PlayerId) {
    Pending(w) ==>
      var o, c, l := Lookup(w.live, p), Lookup(w.phase.state, p), Of(w.log, p);
      && Sound(o, Fold(c, Share(w, p)), l, w.clock)
      && (UntouchedSince(Journal(w.disk), w.phase.mark, p) ==> Sound(o, c, l, w.clock))
  }

  ghost predicate Inv(w: World, p: PlayerId) {
    && w.clock > 0
    && PhaseMatchesDisk(w)
    && Sound(Lookup(w.live, p), RecoveredFor(w, p), Of(w.log, p), w.clock)
    && CapturedIsSound(w, p)
  }

  ghost predicate TagInv(w: World, p: PlayerId) {
    var o, b, k := Lookup(w.live, p), Lookup(Base(w.disk), p), Share(w, p);
    && TagsGood(o, b, k)
    && (Pending(w) ==>
          var c := Lookup(w.phase.state, p);
          && TagsGood(o, c, k)
          && (UntouchedSince(Journal(w.disk), w.phase.mark, p) ==> TagsAgree(o, c))
          && (NoTagsOnDisk(w, p) ==> Tagless(c)))
  }

  // ---- each step keeps it ----

  lemma HandleOwn(m: Table, e: Entry)
    ensures Lookup(Handle(m, e), e.player) == Live(Lookup(m, e.player), e)
  {
  }

  lemma HandleOther(m: Table, e: Entry, p: PlayerId)
    requires e.player != p
    ensures Lookup(Handle(m, e), p) == Lookup(m, p)
  {
  }

  lemma RejectedChangesNothing(m: Table, e: Entry)
    requires !Accepted(Lookup(m, e.player), e)
    ensures Handle(m, e) == m
  {
  }

  lemma UntouchedPrefix(j: seq<Entry>, e: Entry, mark: nat, p: PlayerId)
    requires mark <= |j|
    ensures UntouchedSince(j + [e], mark, p) <==> UntouchedSince(j, mark, p) && e.player != p
  {
    assert (j + [e])[|j|] == e;
    assert forall i | 0 <= i < |j| :: (j + [e])[i] == j[i];
  }

  // What an accepted message of player q does to the parts of the world that the
  // invariants of player p speak of.
  lemma AcceptedEffect(w: World, e: Entry, p: PlayerId)
    requires Enabled(w, Receive(e)) && Accepted(Lookup(w.live, e.player), e)
    ensures var w' := Next(w, Receive(e));
            && w'.phase == w.phase && w'.clock == w.clock && Base(w'.disk) == Base(w.disk)
            && w'.disk.snapshot == w.disk.snapshot && Journal(w'.disk) == Journal(w.disk) + [e]
            && Lookup(w'.live, p) == (if e.player == p then Live(Lookup(w.live, p), e) else Lookup(w.live, p))
            && Share(w', p) == (if e.player == p then Share(w, p) + [e] else Share(w, p))
            && Of(w'.log, p) == (if e.player == p then Of(w.log, p) + [e] else Of(w.log, p))
  {
    hide Of, Live, Handle;
    OfAppend(Journal(w.disk), e, p);
    OfAppend(w.log, e, p);
    if e.player == p {
      HandleOwn(w.live, e);
    } else {
      HandleOther(w.live, e, p);
    }
  }

  lemma SoundExtends(o: Option<Session>, b: Option<Session>, k: seq<Entry>, l: seq<Entry>, clock: int, e: Entry)
    requires Sound(o, Fold(b, k), l, clock) && Accepted(o, e)
    requires e.Disconnect? ==> o.Some? && e.at != 0
    ensures Sound(Live(o, e), Fold(b, k + [e]), l + [e], clock)
  {
    hide Sound, Live, Fold, Replay;
    FoldAppend(b, k, e);
    AcceptedKeepsSound(o, Fold(b, k), l, clock, e);
  }

  lemma AcceptedKeeps(w: World, e: Entry, p: PlayerId)
    requires Enabled(w, Receive(e)) && Accepted(Lookup(w.live, e.player), e) && Careful(w, Receive(e), p)
    requires Inv(w, p)
    ensures Inv(Next(w, Receive(e)), p)
  {
    hide Next, Sound, Of, Fold, Live, UntouchedSince, Share;
    AcceptedEffect(w, e, p);
    if Pending(w) {
      UntouchedPrefix(Journal(w.disk), e, w.phase.mark, p);
    }
    if e.player == p {
      var o, k, l := Lookup(w.live, p), Share(w, p), Of(w.log, p);
      SoundExtends(o, Lookup(Base(w.disk), p), k, l, w.clock, e);
      if Pending(w) {
        SoundExtends(o, Lookup(w.phase.state, p), k, l, w.clock, e);
      }
    }
  }

  lemma ReceiveKeeps(w: World, e: Entry, p: PlayerId)
    requires Enabled(w, Receive(e)) && Careful(w, Receive(e), p)
    requires Inv(w, p)
    ensures Inv(Next(w, Receive(e)), p)
  {
    hide Inv, Handle;
    if Accepted(Lookup(w.live, e.player), e) {
      AcceptedKeeps(w, e, p);
    } else {
      RejectedChangesNothing(w.live, e);
      assert Next(w, Receive(e)) == w;
    }
  }

  lemma SoundOverItself(o: Option<Session>, b: Option<Session>, k: seq<Entry>, l: seq<Entry>, clock: int)
    requires Sound(o, Fold(b, k), l, clock)
    ensures Sound(o, Fold(o, k), l, clock) && Sound(o, o, l, clock)
  {
    Rebase(b, o, k);
  }

  lemma CaptureKeeps(w: World, p: PlayerId)
    requires Enabled(w, Capture) && Inv(w, p)
    ensures Inv(Next(w, Capture), p)
  {
    hide Sound, Of, Fold;
    SoundOverItself(Lookup(w.live, p), Lookup(Base(w.disk), p), Share(w, p), Of(w.log, p), w.clock);
  }

  lemma CrashKeeps(w: World, p: PlayerId)
    requires Inv(w, p)
    ensures Inv(Next(w, Crash), p)
  {
    hide Of, Fold, ReplayAll, MadeBy;
    ReplayIsPerPlayer(Base(w.disk), Journal(w.disk), p);
  }

  // Expiry and the clock loosen what recovery owes; nothing else changes.
  lemma SoundLater(o: Option<Session>, o': Option<Session>, r: Option<Session>, l: seq<Entry>, clock: int, clock': int)
    requires Sound(o, r, l, clock) && clock <= clock'
    requires o' == o || (o'.None? && o.Some? && Expired(o.value, clock'))
    ensures Sound(o', r, l, clock')
  {
  }

  lemma TimeKeeps(w: World, w': World, p: PlayerId)
    requires Inv(w, p) && w.clock <= w'.clock
    requires w'.disk == w.disk && w'.phase == w.phase && w'.log == w.log
    requires var o, o' := Lookup(w.live, p), Lookup(w'.live, p);
             o' == o || (o'.None? && o.Some? && Expired(o.value, w'.clock))
    ensures Inv(w', p)
  {
    hide Sound, Of, Fold, UntouchedSince, Journal;
    var o, o', l := Lookup(w.live, p), Lookup(w'.live, p), Of(w.log, p);
    SoundLater(o, o', RecoveredFor(w, p), l, w.clock, w'.clock);
    if Pending(w) {
      SoundLater(o, o', Fold(Lookup(w.phase.state, p), Share(w, p)), l, w.clock, w'.clock);
      if UntouchedSince(Journal(w.disk), w.phase.mark, p) {
        SoundLater(o, o', Lookup(w.phase.state, p), l, w.clock, w'.clock);
      }
    }
  }

  lemma RemoveKeeps(w: World, p: PlayerId)
    requires Enabled(w, RemoveJournal) && Careful(w, RemoveJournal, p) && Inv(w, p)
    ensures Inv(Next(w, RemoveJournal), p)
  {
    hide Sound, UntouchedSince, Lookup;
    assert Share(Next(w, RemoveJournal), p) == [];
  }

  lemma OtherPhaseKeeps(w: World, st: Step, p: PlayerId)
    requires Enabled(w, st) && (st.WriteTmp? || st.Rename? || st.CreateJournal? || st.Abort?)
    requires Inv(w, p)
    ensures Inv(Next(w, st), p)
  {
    hide Sound, Of, Fold, Lookup, UntouchedSince;
    var w' := Next(w, st);
    assert w'.live == w.live && w'.clock == w.clock && w'.log == w.log;
    assert Journal(w'.disk) == Journal(w.disk);
  }

  lemma StepKeeps(w: World, st: Step, p: PlayerId)
    requires Enabled(w, st) && Careful(w, st, p)
    requires Inv(w, p)
    ensures Inv(Next(w, st), p)
  {
    hide Inv, Handle, Recovered;
    match st
    case Receive(e) => ReceiveKeeps(w, e, p);
    case Expire(q, now) => TimeKeeps(w, Next(w, st), p);
    case Tick(to) => TimeKeeps(w, Next(w, st), p);
    case Capture => CaptureKeeps(w, p);
    case RemoveJournal => RemoveKeeps(w, p);
    case Crash => CrashKeeps(w, p);
    case _ => OtherPhaseKeeps(w, st, p);
  }

  lemma {:induction false} RunKeeps(w: World, steps: seq<Step>, p: PlayerId)
    requires ValidRun(w, steps) && CarefulRun(w, steps, p)
    requires Inv(w, p)
    ensures Inv(End(w, steps), p)
    decreases |steps|
  {
    hide Inv, Next;
    if steps != [] {
      StepKeeps(w, steps[0], p);
      RunKeeps(Next(w, steps[0]), steps[1..], p);
    }
  }

  lemma StartIsGood(clock: int, p: PlayerId)
    requires clock > 0
    ensures Inv(Start(clock), p) && TagInv(Start(clock), p)
  {
  }

  // ---- tags ----

  lemma InvAgrees(w: World, p: PlayerId)
    requires Inv(w, p)
    ensures Agree(Lookup(w.live, p), RecoveredFor(w, p), w.clock)
    ensures PhaseMatchesDisk(w)
    ensures Pending(w) ==> Agree(Lookup(w.live, p), Fold(Lookup(w.phase.state, p), Share(w, p)), w.clock)
  {
  }

  lemma AcceptedKeepsTagInv(w: World, e: Entry, p: PlayerId)
    requires Enabled(w, Receive(e)) && Accepted(Lookup(w.live, e.player), e)
    requires Careful(w, Receive(e), p) && TagCareful(w, Receive(e), p)
    requires Inv(w, p) && TagInv(w, p)
    ensures TagInv(Next(w, Receive(e)), p)
  {
    hide Next, Inv, Of, Fold, Live, UntouchedSince, TagsGood, TagsAgree, NoTags, Tagless;
    AcceptedEffect(w, e, p);
    InvAgrees(w, p);
    if Pending(w) {
      UntouchedPrefix(Journal(w.disk), e, w.phase.mark, p);
    }
    if e.player == p {
      var o, k := Lookup(w.live, p), Share(w, p);
      NoTagsAppend(k, e);
      AcceptedKeepsTags(o, Lookup(Base(w.disk), p), k, w.clock, e);
      if Pending(w) {
        AcceptedKeepsTags(o, Lookup(w.phase.state, p), k, w.clock, e);
      }
    }
  }

  lemma NoTagsAppend(k: seq<Entry>, e: Entry)
    ensures NoTags(k + [e]) ==> NoTags(k)
  {
    NoTagsFront(k + [e]);
    assert (k + [e])[..|k|] == k;
  }

  lemma ReceiveKeepsTags(w: World, e: Entry, p: PlayerId)
    requires Enabled(w, Receive(e)) && Careful(w, Receive(e), p) && TagCareful(w, Receive(e), p)
    requires Inv(w, p) && TagInv(w, p)
    ensures TagInv(Next(w, Receive(e)), p)
  {
    hide TagInv, Inv, Handle;
    if Accepted(Lookup(w.live, e.player), e) {
      AcceptedKeepsTagInv(w, e, p);
    } else {
      RejectedChangesNothing(w.live, e);
      assert Next(w, Receive(e)) == w;
    }
  }

  lemma CaptureKeepsTags(w: World, p: PlayerId)
    requires Enabled(w, Capture) && Inv(w, p) && TagInv(w, p)
    ensures TagInv(Next(w, Capture), p)
  {
    hide Inv, Of, Fold, TagsGood, NoTags;
    InvAgrees(w, p);
    var o, b, k := Lookup(w.live, p), Lookup(Base(w.disk), p), Share(w, p);
    RebaseTags(b, o, k);
    if NoTagsOnDisk(w, p) {
      TaglessReplay(b, k);
      AgreedTags(o, b, k);
    }
  }

  lemma AgreedTags(o: Option<Session>, b: Option<Session>, k: seq<Entry>)
    requires TagsGood(o, b, k) && (o.Some? ==> Fold(b, k).Some?)
    ensures o.Some? ==> o.value.connTags == Fold(b, k).value.connTags
  {
  }

  lemma CrashKeepsTags(w: World, p: PlayerId)
    requires TagInv(w, p)
    ensures TagInv(Next(w, Crash), p)
  {
    hide Of, Fold, ReplayAll, NoTags, ClearsNothing;
    ReplayIsPerPlayer(Base(w.disk), Journal(w.disk), p);
  }

  lemma RemoveKeepsTags(w: World, p: PlayerId)
    requires Enabled(w, RemoveJournal) && Careful(w, RemoveJournal, p)
    requires Inv(w, p) && TagInv(w, p)
    ensures TagInv(Next(w, RemoveJournal), p)
  {
    hide Inv, UntouchedSince;
    InvAgrees(w, p);
    assert Share(Next(w, RemoveJournal), p) == [];
  }

  lemma OtherStepKeepsTags(w: World, st: Step, p: PlayerId)
    requires Enabled(w, st)
    requires st.Tick? || st.WriteTmp? || st.Rename? || st.CreateJournal? || st.Abort?
    requires Inv(w, p) && TagInv(w, p)
    ensures TagInv(Next(w, st), p)
  {
    hide Inv, TagsGood, TagsAgree, Of, Fold, Lookup, UntouchedSince, NoTags, Tagless;
    InvAgrees(w, p);
    var w' := Next(w, st);
    assert w'.live == w.live && Journal(w'.disk) == Journal(w.disk);
  }

  lemma ExpireKeepsTags(w: World, q: PlayerId, now: int, p: PlayerId)
    requires Enabled(w, Expire(q, now)) && TagInv(w, p)
    ensures TagInv(Next(w, Expire(q, now)), p)
  {
    hide Of, Fold, NoTags, ClearsNothing, UntouchedSince, Expired;
    var w' := Next(w, Expire(q, now));
    assert w'.disk == w.disk && w'.phase == w.phase;
    assert Lookup(w'.live, p) == Lookup(w.live, p) || Lookup(w'.live, p) == None;
  }

  lemma StepKeepsTags(w: World, st: Step, p: PlayerId)
    requires Enabled(w, st) && Careful(w, st, p) && TagCareful(w, st, p)
    requires Inv(w, p) && TagInv(w, p)
    ensures TagInv(Next(w, st), p)
  {
    hide TagInv, Inv, Next;
    match st
    case Receive(e) => ReceiveKeepsTags(w, e, p);
    case Capture => CaptureKeepsTags(w, p);
    case Expire(q, now) => ExpireKeepsTags(w, q, now, p);
    case Crash => CrashKeepsTags(w, p);
    case RemoveJournal => RemoveKeepsTags(w, p);
    case _ => OtherStepKeepsTags(w, st, p);
  }

  lemma {:induction false} RunKeepsTags(w: World, steps: seq<Step>, p: PlayerId)
    requires ValidRun(w, steps) && CarefulRun(w, steps, p) && TagCarefulRun(w, steps, p)
    requires Inv(w, p) && TagInv(w, p)
    ensures TagInv(End(w, steps), p)
    decreases |steps|
  {
    hide Inv, TagInv, Next;
    if steps != [] {
      StepKeeps(w, steps[0], p);
      StepKeepsTags(w, steps[0], p);
      RunKeepsTags(Next(w, steps[0]), steps[1..], p);
    }
  }

  // ---- main results ----

  // `w` ends a run in which nothing of player p's was lost in the two ways above.
  ghost predicate Reached(w: World, clock: int, steps: seq<Step>, p: PlayerId) {
    && clock > 0
    && ValidRun(Start(clock), steps)
    && CarefulRun(Start(clock), steps, p)
    && w == End(Start(clock), steps)
  }

  // And no tags of theirs were cleared that are still on disk.
  ghost predicate ReachedWithTags(w: World, clock: int, steps: seq<Step>, p: PlayerId) {
    Reached(w, clock, steps, p) && TagCarefulRun(Start(clock), steps, p)
  }

  lemma ReachedIsGood(w: World, clock: int, steps: seq<Step>, p: PlayerId)
    requires Reached(w, clock, steps, p)
    ensures Inv(w, p)
    ensures ReachedWithTags(w, clock, steps, p) ==> TagInv(w, p)
  {
    hide Inv, TagInv;
    StartIsGood(clock, p);
    RunKeeps(Start(clock), steps, p);
    if ReachedWithTags(w, clock, steps, p) {
      RunKeepsTags(Start(clock), steps, p);
    }
  }

  // Crash at any point of any careful run: recovery gives every live player the
  // gateway and timestamp they had, and resurrects only sessions past their TTL.
  lemma CrashRecovery(w: World, clock: int, steps: seq<Step>, p: PlayerId)
    requires Reached(w, clock, steps, p)
    ensures Agree(Lookup(w.live, p), Lookup(Recovered(w.disk), p), w.clock)
  {
    ReachedIsGood(w, clock, steps, p);
    ReplayIsPerPlayer(Base(w.disk), Journal(w.disk), p);
  }

  // If moreover no save cleared tags of theirs that are on disk, the tags come back too.
  lemma CrashRecoveryOfTags(w: World, clock: int, steps: seq<Step>, p: PlayerId)
    requires ReachedWithTags(w, clock, steps, p)
    ensures p in w.live ==> Lookup(Recovered(w.disk), p) == Some(w.live[p])
  {
    CrashRecovery(w, clock, steps, p);
    ReachedIsGood(w, clock, steps, p);
    ReplayIsPerPlayer(Base(w.disk), Journal(w.disk), p);
  }

  // Replaying a whole journal over what it gave, for any table and any journal: the
  // same players, gateways and timestamps.
  lemma ReplayIsIdempotent(m: Table, j: seq<Entry>)
    ensures var a, b := ReplayAll(m, j), ReplayAll(ReplayAll(m, j), j);
            a.Keys == b.Keys && forall p | p in a :: Same(a[p], b[p])
  {
    var a, b := ReplayAll(m, j), ReplayAll(ReplayAll(m, j), j);
    forall p
      ensures p in a.Keys <==> p in b.Keys
      ensures p in a ==> Same(a[p], b[p])
    {
      ReplayIsPerPlayer(m, j, p);
      ReplayIsPerPlayer(a, j, p);
      ReplayTwice(Lookup(m, p), Of(j, p));
    }
  }

  // A player's whole session is the same after the second replay if and only if the
  // journal keeps the tags it gave them.
  lemma ReplayIsIdempotentIff(m: Table, j: seq<Entry>, p: PlayerId)
    ensures var a := ReplayAll(m, j);
            Lookup(ReplayAll(a, j), p) == Lookup(a, p) <==> (p in a ==> KeepsTags(a[p], Of(j, p)))
  {
    ReplayIsPerPlayer(m, j, p);
    ReplayIsPerPlayer(ReplayAll(m, j), j, p);
    ReplayTwiceIsSameIff(Lookup(m, p), Of(j, p));
  }

  // The crash window between renaming the snapshot and removing the journal: replaying
  // the journal over any table that agrees with what it gave changes no gateway and no
  // timestamp, and resurrects only what is past its TTL.
  lemma SnapshotWindowIsHarmless(base: Table, live: Table, j: seq<Entry>, clock: int, p: PlayerId)
    requires Agree(Lookup(live, p), Lookup(ReplayAll(base, j), p), clock)
    ensures Agree(Lookup(live, p), Lookup(ReplayAll(live, j), p), clock)
  {
    ReplayIsPerPlayer(base, j, p);
    ReplayIsPerPlayer(live, j, p);
    Rebase(Lookup(base, p), Lookup(live, p), Of(j, p));
  }

  // In a run that cleared no tags that are on disk, it gives the whole session back.
  lemma SnapshotWindowKeepsTags(w: World, clock: int, steps: seq<Step>, p: PlayerId)
    requires ReachedWithTags(w, clock, steps, p)
    ensures p in w.live ==> Lookup(ReplayAll(w.live, Journal(w.disk)), p) == Some(w.live[p])
  {
    CrashRecovery(w, clock, steps, p);
    SnapshotWindowIsHarmless(Base(w.disk), w.live, Journal(w.disk), w.clock, p);
    ReachedIsGood(w, clock, steps, p);
    ReplayIsPerPlayer(Base(w.disk), Journal(w.disk), p);
    ReplayIsPerPlayer(w.live, Journal(w.disk), p);
    RebaseTags(Lookup(Base(w.disk), p), Lookup(w.live, p), Share(w, p));
  }

  // One later scan of each makes the recovered and the live table the same again.
  lemma ScanMergesRecoveredAndLive(clock: int, steps: seq<Step>, now: int)
    requires clock > 0 && ValidRun(Start(clock), steps)
    requires forall p :: CarefulRun(Start(clock), steps, p)
    requires End(Start(clock), steps).clock <= now
    ensures var w := End(Start(clock), steps);
            var a, b := Scan(w.live, now), Scan(Recovered(w.disk), now);
            a.Keys == b.Keys && forall p | p in a :: Same(a[p], b[p])
  {
    var w := End(Start(clock), steps);
    forall p
      ensures Agree(Lookup(w.live, p), Lookup(Recovered(w.disk), p), w.clock)
    {
      CrashRecovery(w, clock, steps, p);
    }
    var a, b := Scan(w.live, now), Scan(Recovered(w.disk), now);
    forall p
      ensures p in a <==> p in b
      ensures p in a ==> Same(a[p], b[p])
    {
      assert Agree(Lookup(w.live, p), Lookup(Recovered(w.disk), p), w.clock);
    }
  }

  // ---- where a mark comes from ----

  // The session was left by the last entry of l, and is marked exactly if that was a
  // disconnect.
  predicate LeftByLast(s: Session, l: seq<Entry>) {
    && l != []
    && s.gatewayId == l[|l| - 1].gateway
    && s.disconnectedAt == Stamp(l[|l| - 1])
    && (s.disconnectedAt != 0 <==> l[|l| - 1].Disconnect?)
  }

  predicate StampsUpTo(l: seq<Entry>, clock: int) {
    forall i | 0 <= i < |l| :: l[i].Disconnect? ==> 0 < l[i].at <= clock
  }

  // A session marked disconnected got its mark from the last message accepted for
  // its player, a disconnect from the gateway the session names; a session without
  // a mark was last saved or reconnected there. So in careful runs, crashes included.
  lemma MarkHasProvenance(w: World, clock: int, steps: seq<Step>, p: PlayerId)
    requires Reached(w, clock, steps, p)
    ensures p in w.live ==> LeftByLast(w.live[p], Of(w.log, p))
  {
    ReachedIsGood(w, clock, steps, p);
    StampedRun(Start(clock), steps, p);
  }

  // Without a crash, in every run, careful or not.
  lemma MarkHasProvenanceWithoutCrash(clock: int, steps: seq<Step>, p: PlayerId)
    requires clock > 0 && ValidRun(Start(clock), steps) && Crash !in steps
    ensures var w := End(Start(clock), steps);
            p in w.live ==> LeftByLast(w.live[p], Of(w.log, p))
  {
    MakerRun(Start(clock), steps, p);
    StampedRun(Start(clock), steps, p);
  }

  lemma AcceptedIsMaker(o: Option<Session>, l: seq<Entry>, e: Entry)
    requires MadeBy(o, l) && Accepted(o, e)
    ensures MadeBy(Live(o, e), l + [e])
  {
  }

  lemma StepKeepsMaker(w: World, st: Step, p: PlayerId)
    requires Enabled(w, st) && st != Crash
    requires MadeBy(Lookup(w.live, p), Of(w.log, p))
    ensures MadeBy(Lookup(Next(w, st).live, p), Of(Next(w, st).log, p))
  {
    hide Of, Live, Handle;
    if !st.Receive? {
      assert Next(w, st).log == w.log;
      assert Lookup(Next(w, st).live, p) == Lookup(w.live, p) || Lookup(Next(w, st).live, p) == None;
    } else if !Accepted(Lookup(w.live, st.e.player), st.e) {
      RejectedChangesNothing(w.live, st.e);
    } else {
      AcceptedEffect(w, st.e, p);
      if st.e.player == p {
        AcceptedIsMaker(Lookup(w.live, p), Of(w.log, p), st.e);
      }
    }
  }

  lemma {:induction false} MakerRun(w: World, steps: seq<Step>, p: PlayerId)
    requires ValidRun(w, steps) && Crash !in steps
    requires MadeBy(Lookup(w.live, p), Of(w.log, p))
    ensures MadeBy(Lookup(End(w, steps).live, p), Of(End(w, steps).log, p))
    decreases |steps|
  {
    hide MadeBy, Next;
    if steps != [] {
      StepKeepsMaker(w, steps[0], p);
      MakerRun(Next(w, steps[0]), steps[1..], p);
    }
  }

  lemma StampsAppend(k: seq<Entry>, e: Entry, clock: int)
    requires StampsUpTo(k, clock) && (e.Disconnect? ==> 0 < e.at <= clock)
    ensures StampsUpTo(k + [e], clock)
  {
  }

  lemma StepKeepsStamps(w: World, st: Step, p: PlayerId)
    requires Enabled(w, st) && w.clock > 0 && StampsUpTo(Of(w.log, p), w.clock)
    ensures Next(w, st).clock > 0 && StampsUpTo(Of(Next(w, st).log, p), Next(w, st).clock)
  {
    hide Of, Handle;
    if Next(w, st).log != w.log {
      OfAppend(w.log, st.e, p);
      StampsAppend(Of(w.log, p), st.e, w.clock);
    }
  }

  lemma {:induction false} StampedRun(w: World, steps: seq<Step>, p: PlayerId)
    requires ValidRun(w, steps) && w.clock > 0 && StampsUpTo(Of(w.log, p), w.clock)
    ensures StampsUpTo(Of(End(w, steps).log, p), End(w, steps).clock)
    decreases |steps|
  {
    hide Of, Next, StampsUpTo;
    if steps != [] {
      StepKeepsStamps(w, steps[0], p);
      StampedRun(Next(w, steps[0]), steps[1..], p);
    }
  }
}
