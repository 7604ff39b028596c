/**
 The two views of what SessionSvr sends agree: the messages of the server object, put on
 the network, are the answers that the gateway protocol is about.
 */
module ServerAnswers {
  import opened Wrappers
  import opened Sessions
  import opened Gateways
  import opened Protocol
  import opened SessionServer

  // A message of the server's to gateways on the network: replies go back to the gateway
  // that asked, an invalidation to every gateway connected.
  function OnNetwork(m: Message, g: string, ids: seq<string>): seq<Msg> {
    match m
    case GetReply(_, s) => [ToGateway(g, Answer(s))]
    case ReconnectReply(_, s) => [ToGateway(g, Answer(s))]
    case Invalidate(_, left) => Invalidations(ids, left)
    case _ => []
  }

  function AllOnNetwork(ms: seq<Message>, g: string, ids: seq<string>): seq<Msg> {
    if ms == [] then [] else OnNetwork(ms[0], g, ids) + AllOnNetwork(ms[1..], g, ids)
  }

  // What HandleReconnect sends is what the protocol's reconnect answers.
  lemma ReconnectAnswers(o: Option<Session>, g: string, ids: seq<string>)
    ensures AllOnNetwork(ReconnectSends(o, PLAYER, g, map[]), g, ids) == Answers(o, g, Recon, ids)
  {
    if o.Some? {
      var reply := ReconnectReply(PLAYER, Attach(o.value, g, map[]));
      var left := Invalidate(PLAYER, o.value.gatewayId);
      assert [reply, left][1..] == [left] && [left][1..] == [] && [reply][1..] == [];
      assert AllOnNetwork([left], g, ids) == Invalidations(ids, o.value.gatewayId);
      assert ReconnectSends(o, PLAYER, g, map[])
             == if o.value.gatewayId != "" && o.value.gatewayId != g then [reply, left] else [reply];
    }
  }

  // And what HandleGet sends is what the protocol's request answers.
  lemma GetAnswers(view: Table, g: string, ids: seq<string>)
    ensures AllOnNetwork([GetReply(PLAYER, if PLAYER in view then view[PLAYER] else FRESH)], g, ids)
            == Answers(Lookup(view, PLAYER), g, Get, ids)
  {
    var reply := GetReply(PLAYER, if PLAYER in view then view[PLAYER] else FRESH);
    assert [reply][1..] == [];
  }

  // The gateway that was left hears of it, and no gateway is told that another was.
  lemma OnlyTheLeftIsNamed(o: Option<Session>, g: string, ids: seq<string>, h: string, x: string)
    ensures ToGateway(h, Left(x)) in Answers(o, g, Recon, ids)
            <==> h in ids && o.Some? && o.value.gatewayId == x && x != "" && x != g
  {
    if o.Some? {
      var inv := Invalidations(ids, o.value.gatewayId);
      assert forall i | 0 <= i < |ids| :: inv[i] == ToGateway(ids[i], Left(o.value.gatewayId));
      if h in ids {
        var i :| 0 <= i < |ids| && ids[i] == h;
        assert inv[i] in inv;
      }
    }
  }
}
