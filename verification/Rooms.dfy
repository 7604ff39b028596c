/**
 RoomSvr's rooms as values, one function per handler, and what its members are told
 over whole runs. A handler is one atomic step.
 */
module Rooms {
  import opened Wrappers

  // Where to reach a member: the gateway's connection and the client's ID on it.
  datatype Member = Member(playerId: string, conn: nat, senderId: nat)
  type Table = map<string, seq<Member>>

  datatype Event = Joined(who: string, count: nat) | Left(who: string, count: nat)
  datatype Push = Push(to: Member, matchId: string, event: Event)

  // `destroyed`: MatchSvr is told that the room is gone.
  datatype Outcome = Outcome(rooms: Table, pushes: seq<Push>, destroyed: bool)

  function Ids(room: seq<Member>): (ids: seq<string>)
    ensures |ids| == |room|
    ensures forall i | 0 <= i < |room| :: ids[i] == room[i].playerId
  {
    seq(|room|, i requires 0 <= i < |room| => room[i].playerId)
  }

  // The position of a player, or the list's length.
  function IndexOf(ids: seq<string>, p: string): (i: nat)
    ensures i <= |ids| && (i < |ids| ==> ids[i] == p)
    ensures forall j | 0 <= j < i :: ids[j] != p
    ensures i < |ids| <==> p in ids
  {
    if ids == [] || ids[0] == p then 0 else 1 + IndexOf(ids[1..], p)
  }

  function Broadcast(m: string, to: seq<Member>, e: Event): seq<Push> {
    seq(|to|, i requires 0 <= i < |to| => Push(to[i], m, e))
  }

  function RoomOf(rooms: Table, m: string): seq<Member> {
    if m in rooms then rooms[m] else []
  }

  function Join(rooms: Table, m: string, x: Member): Outcome {
    var room := RoomOf(rooms, m);
    if x.playerId in Ids(room) then Outcome(rooms, [], false)
    else
      Outcome(rooms[m := room + [x]], Broadcast(m, room, Joined(x.playerId, |room| + 1)), false)
  }

  // handleLeave and handleForceLeave treat the room alike.
  function Leave(rooms: Table, m: string, p: string): Outcome {
    var room := RoomOf(rooms, m);
    var i := IndexOf(Ids(room), p);
    if i == |room| then Outcome(rooms, [], false)
    else
      var rest := Without(room, i);
      if rest == [] then Outcome(rooms - {m}, [], true)
      else Outcome(rooms[m := rest], Broadcast(m, rest, Left(p, |rest|)), false)
  }

  function Reconnected(rooms: Table, m: string, x: Member): Outcome {
    var room := RoomOf(rooms, m);
    var i := IndexOf(Ids(room), x.playerId);
    if i == |room| then Outcome(rooms, [], false) else Outcome(rooms[m := room[i := x]], [], false)
  }

  datatype Step =
    | StepJoin(m: string, x: Member)
    | StepLeave(m: string, p: string)
    | StepReconnected(m: string, x: Member)
    | StepForceLeave(m: string, p: string)

  function Next(rooms: Table, st: Step): Outcome {
    match st
    case StepJoin(m, x) => Join(rooms, m, x)
    case StepLeave(m, p) => Leave(rooms, m, p)
    case StepReconnected(m, x) => Reconnected(rooms, m, x)
    case StepForceLeave(m, p) => Leave(rooms, m, p)
  }

  function Run(rooms: Table, steps: seq<Step>): Table
    decreases |steps|
  {
    if steps == [] then rooms else Run(Next(rooms, steps[0]).rooms, steps[1..])
  }

  // ---- structure ----

  ghost predicate WellFormed(rooms: Table) {
    forall m | m in rooms :: rooms[m] != [] && Distinct(Ids(rooms[m]))
  }

  lemma IdsWithout(room: seq<Member>, i: nat)
    requires i < |room|
    ensures Ids(Without(room, i)) == Without(Ids(room), i)
  {
  }

  lemma DistinctWithout(ids: seq<string>, i: nat)
    requires i < |ids| && Distinct(ids)
    ensures Distinct(Without(ids, i)) && ids[i] !in Without(ids, i)
  {
  }

  // Every handler leaves every stored room non-empty and its players distinct.
  lemma StepKeepsWellFormed(rooms: Table, st: Step)
    requires WellFormed(rooms)
    ensures WellFormed(Next(rooms, st).rooms)
  {
    var room := RoomOf(rooms, st.m);
    match st
    case StepJoin(m, x) =>
      if x.playerId !in Ids(room) {
        assert Ids(room + [x]) == Ids(room) + [x.playerId];
      }
    case StepReconnected(m, x) =>
      var i := IndexOf(Ids(room), x.playerId);
      if i < |room| {
        assert Ids(room[i := x]) == Ids(room);
      }
    case _ =>
      var i := IndexOf(Ids(room), st.p);
      if i < |room| {
        IdsWithout(room, i);
        DistinctWithout(Ids(room), i);
      }
  }

  lemma {:induction false} RunKeepsWellFormed(rooms: Table, steps: seq<Step>)
    requires WellFormed(rooms)
    ensures WellFormed(Run(rooms, steps))
    decreases |steps|
  {
    if steps != [] {
      StepKeepsWellFormed(rooms, steps[0]);
      RunKeepsWellFormed(Next(rooms, steps[0]).rooms, steps[1..]);
    }
  }

  // ---- destruction ----

  // MatchSvr is told exactly when the last member goes and the room leaves the table.
  lemma DestroyedIffRoomGone(rooms: Table, st: Step)
    requires WellFormed(rooms)
    ensures var o := Next(rooms, st);
            && (o.destroyed <==> st.m in rooms && st.m !in o.rooms)
            && (o.destroyed ==> (st.StepLeave? || st.StepForceLeave?) && Ids(rooms[st.m]) == [st.p])
            && forall m | m != st.m :: m in o.rooms <==> m in rooms
  {
  }

  function Openings(rooms: Table, steps: seq<Step>, m: string): nat
    decreases |steps|
  {
    if steps == [] then 0
    else
      var after := Next(rooms, steps[0]).rooms;
      (if m !in rooms && m in after then 1 else 0) + Openings(after, steps[1..], m)
  }

  function Notices(rooms: Table, steps: seq<Step>, m: string): nat
    decreases |steps|
  {
    if steps == [] then 0
    else
      var o := Next(rooms, steps[0]);
      (if o.destroyed && steps[0].m == m then 1 else 0) + Notices(o.rooms, steps[1..], m)
  }

  // Over any run a room has been announced as destroyed once for each time it was
  // opened, less once if it is open now.
  lemma {:induction false} EveryOpeningIsClosedOnce(rooms: Table, steps: seq<Step>, m: string)
    requires WellFormed(rooms)
    ensures (if m in rooms then 1 else 0) + Openings(rooms, steps, m)
            == Notices(rooms, steps, m) + (if m in Run(rooms, steps) then 1 else 0)
    decreases |steps|
  {
    if steps != [] {
      DestroyedIffRoomGone(rooms, steps[0]);
      StepKeepsWellFormed(rooms, steps[0]);
      EveryOpeningIsClosedOnce(Next(rooms, steps[0]).rooms, steps[1..], m);
    }
  }
}

/** What one member of one room has been told since joining it. */
module RoomViews {
  import opened Wrappers
  import opened Rooms

  // The membership at the member's own join, the events received since, and the
  // address last given for them by a join or a reconnect.
  datatype Watch = Watch(base: seq<string>, events: seq<Event>, conn: nat, senderId: nat)

  function Apply(ids: seq<string>, e: Event): seq<string> {
    match e
    case Joined(who, _) => ids + [who]
    case Left(who, _) => if who in ids then Without(ids, IndexOf(ids, who)) else ids
  }

  function Fold(ids: seq<string>, events: seq<Event>): seq<string> {
    if events == [] then ids else Apply(Fold(ids, events[..|events| - 1]), events[|events| - 1])
  }

  // The events among some pushes that go to player p about room m.
  function Received(pushes: seq<Push>, m: string, p: string): seq<Event> {
    if pushes == [] then []
    else
      (if pushes[0].matchId == m && pushes[0].to.playerId == p then [pushes[0].event] else [])
      + Received(pushes[1..], m, p)
  }

  function Track(w: Option<Watch>, rooms: Table, st: Step, m: string, p: string): Option<Watch> {
    var o := Next(rooms, st);
    if p !in Ids(RoomOf(o.rooms, m)) then None
    else if p !in Ids(RoomOf(rooms, m)) then
      if st.StepJoin? then Some(Watch(Ids(RoomOf(o.rooms, m)), [], st.x.conn, st.x.senderId)) else None
    else if w.None? then None
    else
      var heard := w.value.(events := w.value.events + Received(o.pushes, m, p));
      Some(if st.StepReconnected? && st.m == m && st.x.playerId == p
           then heard.(conn := st.x.conn, senderId := st.x.senderId) else heard)
  }

  function WatchOf(w: Option<Watch>, rooms: Table, steps: seq<Step>, m: string, p: string): Option<Watch>
    decreases |steps|
  {
    if steps == [] then w
    else WatchOf(Track(w, rooms, steps[0], m, p), Next(rooms, steps[0]).rooms, steps[1..], m, p)
  }

  // A member's events add up to the room, each count is the size it then had, and
  // the room would send the next one to the member's latest address.
  ghost predicate Exact(w: Option<Watch>, room: seq<Member>, p: string) {
    && (w.Some? <==> p in Ids(room))
    && (w.Some? ==>
          && Fold(w.value.base, w.value.events) == Ids(room)
          && (w.value.events != [] ==> w.value.events[|w.value.events| - 1].count == |room|)
          && room[IndexOf(Ids(room), p)] == Member(p, w.value.conn, w.value.senderId))
  }

  lemma {:induction false} ReceivedFromBroadcast(m: string, to: seq<Member>, e: Event, p: string)
    requires Distinct(Ids(to))
    ensures Received(Broadcast(m, to, e), m, p) == if p in Ids(to) then [e] else []
  {
    if to != [] {
      var more := to[1..];
      assert Broadcast(m, to, e)[1..] == Broadcast(m, more, e);
      assert Ids(to)[1..] == Ids(more);
      assert Ids(to) == [to[0].playerId] + Ids(more);
      assert Distinct(Ids(more)) && to[0].playerId !in Ids(more);
      ReceivedFromBroadcast(m, more, e, p);
    }
  }

  lemma {:induction false} ReceivedElsewhere(m: string, m': string, to: seq<Member>, e: Event, p: string)
    requires m' != m
    ensures Received(Broadcast(m', to, e), m, p) == []
  {
    if to != [] {
      assert Broadcast(m', to, e)[1..] == Broadcast(m', to[1..], e);
      ReceivedElsewhere(m, m', to[1..], e, p);
    }
  }

  lemma FoldAppend(ids: seq<string>, events: seq<Event>, e: Event)
    ensures Fold(ids, events + [e]) == Apply(Fold(ids, events), e)
  {
  }

  lemma NothingFromOtherRooms(rooms: Table, st: Step, m: string, p: string)
    requires st.m != m
    ensures Received(Next(rooms, st).pushes, m, p) == []
  {
    var to := RoomOf(rooms, st.m);
    match st
    case StepJoin(m', x) => ReceivedElsewhere(m, m', to, Joined(x.playerId, |to| + 1), p);
    case StepReconnected(_, _) =>
    case _ =>
      var i := IndexOf(Ids(to), st.p);
      if i < |to| {
        ReceivedElsewhere(m, st.m, Without(to, i), Left(st.p, |Without(to, i)|), p);
      }
  }

  lemma OtherRoomKeepsExact(w: Option<Watch>, rooms: Table, st: Step, m: string, p: string)
    requires WellFormed(rooms) && Exact(w, RoomOf(rooms, m), p) && st.m != m
    ensures Exact(Track(w, rooms, st, m, p), RoomOf(Next(rooms, st).rooms, m), p)
  {
    hide Fold, IndexOf, Received;
    var o := Next(rooms, st);
    OtherRoomsStay(rooms, st, m);
    NothingFromOtherRooms(rooms, st, m, p);
    if w.Some? {
      assert w.value.events + [] == w.value.events;
    }
  }

  lemma OtherRoomsStay(rooms: Table, st: Step, m: string)
    requires st.m != m
    ensures RoomOf(Next(rooms, st).rooms, m) == RoomOf(rooms, m)
  {
  }

  lemma JoinedKeepsExact(w: Watch, room: seq<Member>, x: Member, p: string)
    requires x.playerId !in Ids(room) && Exact(Some(w), room, p)
    ensures var e := Joined(x.playerId, |room| + 1);
            Exact(Some(w.(events := w.events + [e])), room + [x], p)
  {
    hide Fold, IndexOf;
    assert Ids(room + [x]) == Ids(room) + [x.playerId];
    FoldAppend(w.base, w.events, Joined(x.playerId, |room| + 1));
    IndexOfAppend(Ids(room), x.playerId, p);
  }

  lemma OwnJoinIsExact(room: seq<Member>, x: Member)
    requires x.playerId !in Ids(room)
    ensures Exact(Some(Watch(Ids(room + [x]), [], x.conn, x.senderId)), room + [x], x.playerId)
  {
    hide IndexOf;
    assert Ids(room + [x]) == Ids(room) + [x.playerId];
    assert x.playerId in Ids(room + [x]);
    IndexOfAppend(Ids(room), x.playerId, x.playerId);
  }

  lemma JoinKeepsExact(w: Option<Watch>, rooms: Table, m: string, x: Member, p: string)
    requires WellFormed(rooms) && Exact(w, RoomOf(rooms, m), p)
    ensures Exact(Track(w, rooms, StepJoin(m, x), m, p), RoomOf(Join(rooms, m, x).rooms, m), p)
  {
    hide Fold, IndexOf, Received, Apply;
    var room := RoomOf(rooms, m);
    if x.playerId in Ids(room) {
      StillExact(w, m, p);
    } else {
      assert RoomOf(Join(rooms, m, x).rooms, m) == room + [x];
      assert Ids(room + [x]) == Ids(room) + [x.playerId];
      if w.Some? {
        assert Received(Join(rooms, m, x).pushes, m, p) == [Joined(x.playerId, |room| + 1)] by {
          ReceivedFromBroadcast(m, room, Joined(x.playerId, |room| + 1), p);
        }
        JoinedKeepsExact(w.value, room, x, p);
      } else if p == x.playerId {
        OwnJoinIsExact(room, x);
      }
    }
  }

  lemma StillExact(w: Option<Watch>, m: string, p: string)
    ensures Received([], m, p) == []
    ensures w.Some? ==> w.value.(events := w.value.events + []) == w.value
  {
  }

  lemma {:induction false} IndexOfAppend(ids: seq<string>, x: string, p: string)
    requires x !in ids
    ensures IndexOf(ids + [x], p) == if p in ids then IndexOf(ids, p) else if p == x then |ids| else |ids| + 1
  {
    if ids == [] {
      assert IndexOf([x][1..], p) == 0;
    } else {
      assert (ids + [x])[1..] == ids[1..] + [x];
      IndexOfAppend(ids[1..], x, p);
    }
  }

  lemma StayingMember(room: seq<Member>, i: nat, p: string)
    requires i < |room| && Distinct(Ids(room)) && p in Ids(room) && p != room[i].playerId
    ensures var rest := Without(room, i);
            p in Ids(rest) && rest[IndexOf(Ids(rest), p)] == room[IndexOf(Ids(room), p)]
  {
    var k := IndexOf(Ids(room), p);
    var k', rest := (if k < i then k else k - 1), Without(room, i);
    assert rest[k'] == room[k];
    IdsWithout(room, i);
    DistinctWithout(Ids(room), i);
    IndexOfUnique(Ids(rest), p, k');
  }

  lemma LeftKeepsExact(w: Watch, room: seq<Member>, i: nat, p: string)
    requires i < |room| && Distinct(Ids(room)) && p != room[i].playerId
    requires Exact(Some(w), room, p)
    ensures var e := Left(room[i].playerId, |room| - 1);
            Exact(Some(w.(events := w.events + [e])), Without(room, i), p)
  {
    hide IndexOf, Fold, Distinct;
    StayingMember(room, i, p);
    IdsWithout(room, i);
    IndexOfUnique(Ids(room), room[i].playerId, i);
    FoldAppend(w.base, w.events, Left(room[i].playerId, |room| - 1));
  }

  lemma LeaveKeepsExact(w: Option<Watch>, rooms: Table, st: Step, p: string)
    requires (st.StepLeave? || st.StepForceLeave?) && WellFormed(rooms) && Exact(w, RoomOf(rooms, st.m), p)
    ensures Exact(Track(w, rooms, st, st.m, p), RoomOf(Next(rooms, st).rooms, st.m), p)
  {
    hide Fold, IndexOf;
    var room := RoomOf(rooms, st.m);
    var i := IndexOf(Ids(room), st.p);
    if i == |room| {
      if w.Some? {
        assert w.value.events + [] == w.value.events;
      }
    } else {
      var rest := Without(room, i);
      IdsWithout(room, i);
      DistinctWithout(Ids(room), i);
      WithoutKeepsOthers(Ids(room), i);
      assert RoomOf(Next(rooms, st).rooms, st.m) == rest;
      if w.Some? && p != st.p {
        ReceivedFromBroadcast(st.m, rest, Left(st.p, |rest|), p);
        LeftKeepsExact(w.value, room, i, p);
      }
    }
  }

  lemma WithoutKeepsOthers(ids: seq<string>, i: nat)
    requires i < |ids|
    ensures forall j | 0 <= j < |ids| && j != i :: Without(ids, i)[if j < i then j else j - 1] == ids[j]
    ensures forall x | x in Without(ids, i) :: x in ids
    ensures forall x | x in ids && x != ids[i] :: x in Without(ids, i)
  {
  }

  lemma IndexOfUnique(ids: seq<string>, p: string, i: nat)
    requires Distinct(ids) && i < |ids| && ids[i] == p
    ensures IndexOf(ids, p) == i
  {
  }

  lemma ReplacedKeepsExact(w: Watch, room: seq<Member>, x: Member, p: string)
    requires x.playerId in Ids(room) && Exact(Some(w), room, p)
    ensures var w' := if p == x.playerId then w.(conn := x.conn, senderId := x.senderId) else w;
            Exact(Some(w'), room[IndexOf(Ids(room), x.playerId) := x], p)
  {
  }

  lemma ReconnectKeepsExact(w: Option<Watch>, rooms: Table, m: string, x: Member, p: string)
    requires WellFormed(rooms) && Exact(w, RoomOf(rooms, m), p)
    ensures Exact(Track(w, rooms, StepReconnected(m, x), m, p), RoomOf(Reconnected(rooms, m, x).rooms, m), p)
  {
    hide Fold, IndexOf;
    var room := RoomOf(rooms, m);
    var i := IndexOf(Ids(room), x.playerId);
    StillExact(w, m, p);
    if i < |room| {
      assert RoomOf(Reconnected(rooms, m, x).rooms, m) == room[i := x];
      assert Ids(room[i := x]) == Ids(room);
      if w.Some? {
        ReplacedKeepsExact(w.value, room, x, p);
      }
    }
  }

  lemma StepKeepsExact(w: Option<Watch>, rooms: Table, st: Step, m: string, p: string)
    requires WellFormed(rooms) && Exact(w, RoomOf(rooms, m), p)
    ensures Exact(Track(w, rooms, st, m, p), RoomOf(Next(rooms, st).rooms, m), p)
  {
    hide Exact, Track;
    if st.m != m {
      OtherRoomKeepsExact(w, rooms, st, m, p);
    } else if st.StepJoin? {
      JoinKeepsExact(w, rooms, m, st.x, p);
    } else if st.StepReconnected? {
      ReconnectKeepsExact(w, rooms, m, st.x, p);
    } else {
      LeaveKeepsExact(w, rooms, st, p);
    }
  }

  lemma {:induction false} RunKeepsExact(w: Option<Watch>, rooms: Table, steps: seq<Step>, m: string, p: string)
    requires WellFormed(rooms) && Exact(w, RoomOf(rooms, m), p)
    ensures Exact(WatchOf(w, rooms, steps, m, p), RoomOf(Run(rooms, steps), m), p)
    decreases |steps|
  {
    hide Exact, Track, WellFormed;
    if steps != [] {
      StepKeepsExact(w, rooms, steps[0], m, p);
      StepKeepsWellFormed(rooms, steps[0]);
      RunKeepsExact(Track(w, rooms, steps[0], m, p), Next(rooms, steps[0]).rooms, steps[1..], m, p);
    }
  }

  // In every run from no rooms at all, folding the events a member has received onto
  // the membership at its own join gives the current membership in order, and the
  // last count it received is the current size.
  lemma MemberViewsAreExact(steps: seq<Step>, m: string, p: string)
    ensures var w, room := WatchOf(None, map[], steps, m, p), RoomOf(Run(map[], steps), m);
            && (w.Some? <==> p in Ids(room))
            && (w.Some? ==>
                  && Fold(w.value.base, w.value.events) == Ids(room)
                  && (w.value.events != [] ==> w.value.events[|w.value.events| - 1].count == |room|)
                  && room[IndexOf(Ids(room), p)] == Member(p, w.value.conn, w.value.senderId))
  {
    RunKeepsExact(None, map[], steps, m, p);
  }

  // Every push to a member goes to the address its latest join or reconnect gave.
  lemma PushesGoToTheLatestAddress(steps: seq<Step>, st: Step, push: Push)
    requires push in Next(Run(map[], steps), st).pushes
    ensures var w := WatchOf(None, map[], steps, push.matchId, push.to.playerId);
            w.Some? && push.to == Member(push.to.playerId, w.value.conn, w.value.senderId)
  {
    var rooms := Run(map[], steps);
    RunKeepsWellFormed(map[], steps);
    MemberViewsAreExact(steps, push.matchId, push.to.playerId);
    var i := PushedToMember(rooms, st, push);
    var room := RoomOf(rooms, push.matchId);
    assert room != [] ==> push.matchId in rooms;
    IndexOfUnique(Ids(room), push.to.playerId, i);
  }

  lemma PushedToMember(rooms: Table, st: Step, push: Push) returns (i: nat)
    requires push in Next(rooms, st).pushes
    ensures i < |RoomOf(rooms, push.matchId)| && RoomOf(rooms, push.matchId)[i] == push.to
  {
    hide IndexOf;
    var room := RoomOf(rooms, st.m);
    var k :| 0 <= k < |Next(rooms, st).pushes| && Next(rooms, st).pushes[k] == push;
    if st.StepJoin? {
      i := k;
    } else {
      var gone := IndexOf(Ids(room), st.p);
      i := if k < gone then k else k + 1;
      assert Without(room, gone)[k] == room[i];
    }
  }
}

/** Who is in a room, told from the requests alone; and who is told of a change. */
module RoomRequests {
  import opened Wrappers
  import opened Rooms
  import opened RoomViews

  predicate IsJoin(st: Step, m: string, p: string) {
    st.StepJoin? && st.m == m && st.x.playerId == p
  }

  // By the player or by SessionSvr.
  predicate IsLeave(st: Step, m: string, p: string) {
    (st.StepLeave? || st.StepForceLeave?) && st.m == m && st.p == p
  }

  predicate In(rooms: Table, m: string, p: string) {
    p in Ids(RoomOf(rooms, m))
  }

  // ---- one step ----

  // A player who joins is in the room, one who leaves is not, and nobody else moves.
  lemma StepMembership(rooms: Table, st: Step, m: string, p: string)
    requires WellFormed(rooms)
    ensures In(Next(rooms, st).rooms, m, p) <==> IsJoin(st, m, p) || (In(rooms, m, p) && !IsLeave(st, m, p))
  {
    hide IndexOf;
    var room := RoomOf(rooms, st.m);
    if st.m != m {
      OtherRoomsStay(rooms, st, m);
    } else {
      match st
      case StepJoin(_, x) =>
        assert Ids(room + [x]) == Ids(room) + [x.playerId];
      case StepReconnected(_, x) =>
        var i := IndexOf(Ids(room), x.playerId);
        assert i < |room| ==> Ids(room[i := x]) == Ids(room);
      case _ =>
        var i := IndexOf(Ids(room), st.p);
        if i < |room| {
          IdsWithout(room, i);
          DistinctWithout(Ids(room), i);
          WithoutKeepsOthers(Ids(room), i);
        }
    }
  }

  // Someone new is put last, and everyone who was there is told once, with the new size.
  lemma JoinEffect(rooms: Table, m: string, x: Member, q: string)
    requires WellFormed(rooms) && !In(rooms, m, x.playerId)
    ensures var o := Join(rooms, m, x);
            && m in o.rooms && o.rooms[m] == RoomOf(rooms, m) + [x] && !o.destroyed
            && Received(o.pushes, m, q) == (if In(rooms, m, q) then [Joined(x.playerId, |RoomOf(rooms, m)| + 1)] else [])
            && |o.pushes| == |RoomOf(rooms, m)|
            && forall m' | m' != m :: RoomOf(o.rooms, m') == RoomOf(rooms, m')
  {
    ReceivedFromBroadcast(m, RoomOf(rooms, m), Joined(x.playerId, |RoomOf(rooms, m)| + 1), q);
  }

  // A member who leaves is cut out, the others keep their order and addresses, and each
  // of them is told once, with the new size. The last one to leave takes the room along.
  lemma LeaveEffect(rooms: Table, m: string, p: string, q: string)
    requires WellFormed(rooms) && In(rooms, m, p)
    ensures var o, room := Leave(rooms, m, p), RoomOf(rooms, m);
            && RoomOf(o.rooms, m) == Without(room, IndexOf(Ids(room), p)) && !In(o.rooms, m, p)
            && Received(o.pushes, m, q) == (if In(rooms, m, q) && q != p then [Left(p, |room| - 1)] else [])
            && |o.pushes| == |room| - 1
            && (m in o.rooms <==> |room| > 1) && (o.destroyed <==> |room| == 1)
            && forall m' | m' != m :: RoomOf(o.rooms, m') == RoomOf(rooms, m')
  {
    hide IndexOf;
    var room := RoomOf(rooms, m);
    var i := IndexOf(Ids(room), p);
    var rest := Without(room, i);
    IdsWithout(room, i);
    DistinctWithout(Ids(room), i);
    WithoutKeepsOthers(Ids(room), i);
    assert |rest| == |room| - 1;
    ReceivedFromBroadcast(m, rest, Left(p, |rest|), q);
  }

  // ---- whole runs ----

  // The last request of p's for room m that is a join or a leave is a join.
  ghost predicate JoinedLast(steps: seq<Step>, m: string, p: string) {
    exists i | 0 <= i < |steps| :: IsJoin(steps[i], m, p) && forall j | i < j < |steps| :: !IsLeave(steps[j], m, p)
  }

  lemma {:induction false} RunAppend(rooms: Table, steps: seq<Step>, st: Step)
    ensures Run(rooms, steps + [st]) == Next(Run(rooms, steps), st).rooms
    decreases |steps|
  {
    hide Next;
    if steps == [] {
      assert ([] + [st])[1..] == [];
    } else {
      assert (steps + [st])[1..] == steps[1..] + [st];
      RunAppend(Next(rooms, steps[0]).rooms, steps[1..], st);
    }
  }

  lemma JoinedLastAppend(steps: seq<Step>, st: Step, m: string, p: string)
    ensures JoinedLast(steps + [st], m, p) <==> IsJoin(st, m, p) || (JoinedLast(steps, m, p) && !IsLeave(st, m, p))
  {
    var all := steps + [st];
    assert all[|steps|] == st;
    assert forall i | 0 <= i < |steps| :: all[i] == steps[i];
    if JoinedLast(all, m, p) && !IsJoin(st, m, p) {
      var i :| 0 <= i < |all| && IsJoin(all[i], m, p) && forall j | i < j < |all| :: !IsLeave(all[j], m, p);
      assert IsJoin(steps[i], m, p) && !IsLeave(all[|steps|], m, p);
      assert forall j | i < j < |steps| :: all[j] == steps[j];
    }
    if JoinedLast(steps, m, p) && !IsLeave(st, m, p) {
      var i :| 0 <= i < |steps| && IsJoin(steps[i], m, p) && forall j | i < j < |steps| :: !IsLeave(steps[j], m, p);
      assert IsJoin(all[i], m, p);
      assert forall j | i < j < |all| :: all[j] == if j < |steps| then steps[j] else st;
    }
    if IsJoin(st, m, p) {
      assert IsJoin(all[|steps|], m, p);
    }
  }

  // In every run from no rooms at all a player is in a room if and only if the last
  // request to join or leave it for them, by anyone, was a join.
  lemma {:induction false} MembersAreThoseWhoJoinedLast(steps: seq<Step>, m: string, p: string)
    ensures In(Run(map[], steps), m, p) <==> JoinedLast(steps, m, p)
    decreases |steps|
  {
    hide In, JoinedLast, Next, IsJoin, IsLeave;
    if steps == [] {
      NobodyAtFirst(m, p);
    } else {
      var front, st := steps[..|steps| - 1], steps[|steps| - 1];
      assert steps == front + [st];
      MembersAreThoseWhoJoinedLast(front, m, p);
      RunAppend(map[], front, st);
      RunKeepsWellFormed(map[], front);
      StepMembership(Run(map[], front), st, m, p);
      JoinedLastAppend(front, st, m, p);
    }
  }

  lemma NobodyAtFirst(m: string, p: string)
    ensures !In(Run(map[], []), m, p) && !JoinedLast([], m, p)
  {
  }
}
