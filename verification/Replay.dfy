/**
 One player's session under the live handlers and under replay. `o` is the live
 session, `b` what a journal is replayed over, `k` the player's entries in it, `r` the
 session a recovery would produce and `l` every entry of the player's ever accepted.
 */
module ReplayFacts {
  import opened Wrappers
  import opened Sessions

  predicate Same(s: Session, t: Session) {
    s.gatewayId == t.gatewayId && s.disconnectedAt == t.disconnectedAt
  }

  // What recovery owes the live table: every live session with its gateway and
  // timestamp, and beyond those only sessions that are already past their TTL.
  predicate Agree(o: Option<Session>, r: Option<Session>, clock: int) {
    if o.Some? then r.Some? && Same(o.value, r.value)
    else r.Some? ==> Expired(r.value, clock)
  }

  function Stamp(e: Entry): int {
    if e.Disconnect? then e.at else 0
  }

  // The session is the one the last accepted entry left behind.
  predicate MadeBy(o: Option<Session>, l: seq<Entry>) {
    o.Some? ==>
      && l != []
      && o.value.gatewayId == l[|l| - 1].gateway
      && o.value.disconnectedAt == Stamp(l[|l| - 1])
  }

  predicate Sound(o: Option<Session>, r: Option<Session>, l: seq<Entry>, clock: int) {
    Agree(o, r, clock) && MadeBy(r, l)
  }

  // An accepted message keeps the recovered session in step with the live one,
  // provided a disconnect finds a session.
  lemma AcceptedKeepsSound(o: Option<Session>, r: Option<Session>, l: seq<Entry>, clock: int, e: Entry)
    requires Sound(o, r, l, clock) && Accepted(o, e)
    requires e.Disconnect? ==> o.Some? && e.at != 0
    ensures Sound(Live(o, e), Replay(r, e), l + [e], clock)
  {
  }

  // ---- replaying twice ----

  predicate AllDown(k: seq<Entry>) {
    forall i | 0 <= i < |k| :: k[i].Disconnect?
  }

  lemma AllDownFront(k: seq<Entry>)
    requires k != []
    ensures AllDown(k) <==> AllDown(k[..|k| - 1]) && k[|k| - 1].Disconnect?
  {
    var front := k[..|k| - 1];
    assert forall i | 0 <= i < |front| :: front[i] == k[i];
    if AllDown(front) && k[|k| - 1].Disconnect? {
      forall i | 0 <= i < |k| ensures k[i].Disconnect? { assert i < |front| ==> front[i].Disconnect?; }
    }
    if AllDown(k) {
      forall i | 0 <= i < |front| ensures front[i].Disconnect? { assert k[i].Disconnect?; }
    }
  }

  // Gateway and timestamp after a replay depend on nothing else of the session before.
  lemma {:induction false} ReplayRespectsSame(s: Session, t: Session, k: seq<Entry>)
    requires Same(s, t)
    ensures Fold(Some(s), k).Some? && Fold(Some(t), k).Some? && Same(Fold(Some(s), k).value, Fold(Some(t), k).value)
  {
    if k != [] {
      ReplayRespectsSame(s, t, k[..|k| - 1]);
    }
  }

  // Once a journal holds a save or a reconnect it no longer matters what it is
  // replayed over, as far as gateway and timestamp go.
  lemma {:induction false} SetterForgetsBase(b: Option<Session>, s: Session, k: seq<Entry>)
    ensures Fold(Some(s), k).Some?
    ensures !AllDown(k) && Fold(b, k).Some? ==> Same(Fold(b, k).value, Fold(Some(s), k).value)
  {
    if k != [] {
      SetterForgetsBase(b, s, k[..|k| - 1]);
      AllDownFront(k);
    }
  }

  lemma {:induction false} DownsAloneRestoreNothing(k: seq<Entry>)
    requires AllDown(k)
    ensures Fold(None, k) == None
  {
    if k != [] {
      AllDownFront(k);
      DownsAloneRestoreNothing(k[..|k| - 1]);
    }
  }

  // A disconnect from gateway g that carries a time.
  predicate StampedFrom(k: seq<Entry>, g: string) {
    k != [] && (StampedFrom(k[..|k| - 1], g) || (Stamp(k[|k| - 1]) != 0 && k[|k| - 1].gateway == g))
  }

  // Disconnects that leave the session without a gateway came from none, so they are
  // stale for a session that has one.
  lemma {:induction false} UnnamedDowns(s: Session, t: Session, k: seq<Entry>)
    requires AllDown(k) && t.gatewayId != ""
    requires Fold(Some(s), k).Some? && Fold(Some(s), k).value.gatewayId == ""
    ensures Fold(Some(t), k) == Some(t) && !StampedFrom(k, t.gatewayId)
  {
    if k != [] {
      AllDownFront(k);
      SetterForgetsBase(None, s, k[..|k| - 1]);
      UnnamedDowns(s, t, k[..|k| - 1]);
    }
  }

  // Disconnects replayed over a session that already has the gateway they end with
  // leave it there, at the time they gave the first time if they gave any.
  lemma {:induction false} DownsSettle(s: Session, t: Session, k: seq<Entry>)
    requires AllDown(k)
    requires Fold(Some(s), k).Some? && t.gatewayId == Fold(Some(s), k).value.gatewayId
    ensures Fold(Some(t), k).Some? && Fold(Some(t), k).value.gatewayId == t.gatewayId
    ensures Fold(Some(t), k).value.disconnectedAt
            == if StampedFrom(k, t.gatewayId) then Fold(Some(s), k).value.disconnectedAt else t.disconnectedAt
  {
    if k != [] {
      var front := k[..|k| - 1];
      AllDownFront(k);
      SetterForgetsBase(None, s, front);
      if Fold(Some(s), front).value.gatewayId == t.gatewayId {
        DownsSettle(s, t, front);
      } else {
        UnnamedDowns(s, t, front);
      }
    }
  }

  // Replaying any journal a second time over what it gave changes no gateway and no
  // timestamp, and neither adds nor drops a session.
  lemma ReplayTwice(b: Option<Session>, k: seq<Entry>)
    ensures Fold(Fold(b, k), k).Some? <==> Fold(b, k).Some?
    ensures Fold(b, k).Some? ==> Same(Fold(Fold(b, k), k).value, Fold(b, k).value)
  {
    var r := Fold(b, k);
    if b.Some? {
      SetterForgetsBase(None, b.value, k);
    }
    if r.Some? {
      SetterForgetsBase(b, r.value, k);
      if AllDown(k) {
        if b.None? {
          DownsAloneRestoreNothing(k);
        } else {
          DownsSettle(b.value, r.value, k);
        }
      }
    }
  }

  // The same over any session that agrees with what the journal gave, in particular
  // the live one that already reflects it: the snapshot crash window.
  lemma Rebase(b: Option<Session>, o: Option<Session>, k: seq<Entry>)
    requires o.Some? ==> Fold(b, k).Some? && Same(o.value, Fold(b, k).value)
    ensures o.Some? ==> Fold(o, k).Some?
    ensures Fold(o, k).Some? ==> Fold(b, k).Some? && Same(Fold(o, k).value, Fold(b, k).value)
  {
    if o.Some? {
      ReplayTwice(b, k);
      ReplayRespectsSame(o.value, Fold(b, k).value, k);
    } else if AllDown(k) {
      DownsAloneRestoreNothing(k);
    } else if b.Some? {
      SetterForgetsBase(None, b.value, k);
    }
  }

  // One entry twice is exactly one entry.
  lemma EntryTwice(o: Option<Session>, e: Entry)
    ensures Replay(Replay(o, e), e) == Replay(o, e)
  {
  }

  // ---- tags ----

  predicate SetsTags(e: Entry) {
    !e.Disconnect? && e.tags != map[]
  }

  // The tags of the last save or reconnect that carries any.
  function LastTags(k: seq<Entry>): Tags {
    if k == [] then map[]
    else if SetsTags(k[|k| - 1]) then k[|k| - 1].tags
    else LastTags(k[..|k| - 1])
  }

  // The gateway of a session that starts with g.
  function GatewayAfter(g: string, k: seq<Entry>): string {
    if k == [] then g
    else
      var before, e := GatewayAfter(g, k[..|k| - 1]), k[|k| - 1];
      if e.Disconnect? && before != "" then before else e.gateway
  }

  predicate TaggedDownsAreStale(g: string, k: seq<Entry>) {
    k != [] ==>
      var before, e := GatewayAfter(g, k[..|k| - 1]), k[|k| - 1];
      && TaggedDownsAreStale(g, k[..|k| - 1])
      && (e.Disconnect? && e.tags != map[] ==> before != "" && before != e.gateway)
  }

  // The journal's last word on tags is what the session has; or it has none, and either
  // the session does or no disconnect in it gets to add some.
  predicate KeepsTags(s: Session, k: seq<Entry>) {
    if LastTags(k) != map[] then LastTags(k) == s.connTags
    else s.connTags != map[] || TaggedDownsAreStale(s.gatewayId, k)
  }

  lemma {:induction false} TagsAfter(s: Session, k: seq<Entry>)
    ensures Fold(Some(s), k).Some? && Fold(Some(s), k).value.gatewayId == GatewayAfter(s.gatewayId, k)
    ensures var t := Fold(Some(s), k).value.connTags;
            if LastTags(k) != map[] then t == LastTags(k)
            else if s.connTags != map[] then t == s.connTags
            else t == map[] <==> TaggedDownsAreStale(s.gatewayId, k)
  {
    if k != [] {
      TagsAfter(s, k[..|k| - 1]);
    }
  }

  // Replaying a journal over what it gave gives the same session, tags and all, if and
  // only if it keeps those tags.
  lemma ReplayTwiceIsSameIff(b: Option<Session>, k: seq<Entry>)
    ensures Fold(Fold(b, k), k) == Fold(b, k) <==> (Fold(b, k).Some? ==> KeepsTags(Fold(b, k).value, k))
  {
    ReplayTwice(b, k);
    if Fold(b, k).Some? {
      TagsAfter(Fold(b, k).value, k);
    }
  }

  // Gateways send tags with saves only.
  predicate OnlySavesCarryTags(k: seq<Entry>) {
    forall i | 0 <= i < |k| :: k[i].Save? || k[i].tags == map[]
  }

  predicate NoTags(k: seq<Entry>) {
    forall i | 0 <= i < |k| :: k[i].tags == map[]
  }

  predicate Tagless(o: Option<Session>) {
    o.Some? ==> o.value.connTags == map[]
  }

  lemma NoTagsFront(k: seq<Entry>)
    requires k != []
    ensures NoTags(k) <==> NoTags(k[..|k| - 1]) && k[|k| - 1].tags == map[]
    ensures OnlySavesCarryTags(k) ==> OnlySavesCarryTags(k[..|k| - 1]) && (k[|k| - 1].Save? || k[|k| - 1].tags == map[])
  {
    var front := k[..|k| - 1];
    assert forall i | 0 <= i < |front| :: front[i] == k[i];
    if NoTags(front) && k[|k| - 1].tags == map[] {
      forall i | 0 <= i < |k| ensures k[i].tags == map[] { assert i < |front| ==> front[i].tags == map[]; }
    }
  }

  lemma {:induction false} SavedTags(b: Option<Session>, k: seq<Entry>)
    requires OnlySavesCarryTags(k)
    ensures LastTags(k) != map[] ==> Fold(b, k).Some? && Fold(b, k).value.connTags == LastTags(k)
    ensures LastTags(k) == map[] <==> NoTags(k)
    ensures forall g :: LastTags(k) == map[] ==> TaggedDownsAreStale(g, k)
  {
    if k != [] {
      NoTagsFront(k);
      SavedTags(b, k[..|k| - 1]);
    }
  }

  // On the journals that gateways cause, replay is idempotent without exception.
  lemma GatewayReplayIsIdempotent(b: Option<Session>, k: seq<Entry>)
    requires OnlySavesCarryTags(k)
    ensures Fold(Fold(b, k), k) == Fold(b, k)
  {
    SavedTags(b, k);
    ReplayTwiceIsSameIff(b, k);
  }

  // A disconnect that is stale the first time can bring in its tags the second time.
  lemma SecondReplayMayAddTags()
    ensures var b := Some(Session("g1", map[], 0));
            var k := [Disconnect(7, "g2", map["x" := "y"], 1000), Reconnect(7, "g2", map[])];
            && Fold(b, k) == Some(Session("g2", map[], 0))
            && Fold(Fold(b, k), k) == Some(Session("g2", map["x" := "y"], 0))
  {
    var b := Some(Session("g1", map[], 0));
    var d, e := Disconnect(7, "g2", map["x" := "y"], 1000), Reconnect(7, "g2", map[]);
    FoldTwo(b, d, e);
    FoldTwo(Some(Session("g2", map[], 0)), d, e);
  }

  lemma FoldTwo(o: Option<Session>, d: Entry, e: Entry)
    ensures Fold(o, [d, e]) == Replay(Replay(o, d), e)
  {
    assert [d, e] == [d] + [e] && [d] == [] + [d];
    FoldAppend(o, [d], e);
    FoldAppend(o, [], d);
  }

  // ---- tags in the crash window ----

  predicate TagsAgree(o: Option<Session>, r: Option<Session>) {
    o.Some? && r.Some? ==> o.value.connTags == r.value.connTags
  }

  // A save without tags comes before any entry with some.
  predicate ClearsNothing(k: seq<Entry>) {
    k != [] ==>
      && ClearsNothing(k[..|k| - 1])
      && (k[|k| - 1].Save? && k[|k| - 1].tags == map[] ==> NoTags(k[..|k| - 1]))
  }

  // Replayed over b or over nothing, a journal with tags leaves some on the session.
  predicate TagsGood(o: Option<Session>, b: Option<Session>, k: seq<Entry>) {
    && TagsAgree(o, Fold(b, k)) && ClearsNothing(k)
    && (Fold(b, k).Some? && Tagless(Fold(b, k)) ==> NoTags(k))
    && (Fold(None, k).Some? && Tagless(Fold(None, k)) ==> NoTags(k))
  }

  lemma {:induction false} TaglessReplay(b: Option<Session>, k: seq<Entry>)
    requires NoTags(k) && Tagless(b)
    ensures Tagless(Fold(b, k))
  {
    if k != [] {
      NoTagsFront(k);
      TaglessReplay(b, k[..|k| - 1]);
    }
  }

  lemma {:induction false} ReplayClearsNothing(b: Option<Session>, k: seq<Entry>)
    ensures Tagless(Fold(b, k)) ==> Tagless(b)
    ensures b.Some? ==> Fold(b, k).Some?
  {
    if k != [] {
      ReplayClearsNothing(b, k[..|k| - 1]);
    }
  }

  // A save without tags needs a journal and a base without tags. Any other accepted
  // message keeps tags in step, if a disconnect finds a session.
  lemma AcceptedKeepsTags(o: Option<Session>, b: Option<Session>, k: seq<Entry>, clock: int, e: Entry)
    requires Agree(o, Fold(b, k), clock) && TagsGood(o, b, k) && Accepted(o, e)
    requires e.Disconnect? ==> o.Some?
    requires e.Save? && e.tags == map[] ==> NoTags(k) && Tagless(b)
    ensures TagsGood(Live(o, e), b, k + [e])
  {
    hide Live, Fold, Replay;
    var k' := k + [e];
    assert k'[..|k|] == k;
    NoTagsFront(k');
    if e.Disconnect? && Fold(None, k).Some? {
      SameGatewayFromNothing(b, k);
    }
    AppendKeepsTagless(b, k, e);
    AppendKeepsTagless(None, k, e);
    if e.Save? && e.tags == map[] {
      TaglessReplay(b, k);
    }
    FoldAppend(b, k, e);
    StepKeepsTagsAgree(o, Fold(b, k), e);
  }

  lemma StepKeepsTagsAgree(o: Option<Session>, r: Option<Session>, e: Entry)
    requires o.Some? ==> r.Some? && Same(o.value, r.value)
    requires TagsAgree(o, r) && Accepted(o, e)
    requires e.Disconnect? ==> o.Some?
    requires e.Save? && e.tags == map[] ==> Tagless(r)
    ensures TagsAgree(Live(o, e), Replay(r, e))
  {
  }

  lemma SameGatewayFromNothing(b: Option<Session>, k: seq<Entry>)
    requires Fold(None, k).Some? && Fold(b, k).Some?
    ensures Same(Fold(None, k).value, Fold(b, k).value)
  {
    if AllDown(k) {
      DownsAloneRestoreNothing(k);
    } else if b.Some? {
      SetterForgetsBase(None, b.value, k);
    }
  }

  lemma AppendKeepsTagless(b: Option<Session>, k: seq<Entry>, e: Entry)
    requires Fold(b, k).Some? && Tagless(Fold(b, k)) ==> NoTags(k)
    requires e.Save? && e.tags == map[] ==> NoTags(k)
    requires e.Disconnect? && Fold(b, k).Some? ==> !Stale(Fold(b, k).value, e.gateway)
    ensures Fold(b, k + [e]).Some? && Tagless(Fold(b, k + [e])) ==> NoTags(k) && e.tags == map[]
  {
    FoldAppend(b, k, e);
  }

  // The journal's last word on tags is the session's, if nothing cleared them.
  lemma {:induction false} LastTagsWin(b: Option<Session>, k: seq<Entry>)
    requires ClearsNothing(k)
    ensures LastTags(k) != map[] ==> !NoTags(k)
    ensures LastTags(k) != map[] && Fold(b, k).Some? ==> Fold(b, k).value.connTags == LastTags(k)
  {
    if k != [] {
      NoTagsFront(k);
      LastTagsWin(b, k[..|k| - 1]);
    }
  }

  // The crash window, for tags.
  lemma RebaseTags(b: Option<Session>, o: Option<Session>, k: seq<Entry>)
    requires o.Some? ==> Fold(b, k).Some?
    requires TagsGood(o, b, k)
    ensures TagsGood(o, o, k)
    ensures o.Some? ==> Fold(o, k).Some? && Fold(o, k).value.connTags == o.value.connTags
  {
    if o.Some? {
      TagsAfter(o.value, k);
      LastTagsWin(b, k);
      if o.value.connTags == map[] {
        TaglessReplay(o, k);
      }
    }
  }

  // For journals that gateways cause the condition on saves is on the session alone.
  lemma NoTagsIffRecoveredTagless(b: Option<Session>, k: seq<Entry>)
    requires OnlySavesCarryTags(k)
    ensures NoTags(k) && Tagless(b) <==> Tagless(Fold(b, k))
  {
    SavedTags(b, k);
    ReplayClearsNothing(b, k);
    if NoTags(k) && Tagless(b) {
      TaglessReplay(b, k);
    }
  }
}
