/**
 * How the client's unseen counters relate to the server's store: the map
 * the sidebar load returns, bumped once per message pushed from a sender the
 * user is not viewing, is what a fresh sidebar load would count.
 */
module EndToEnd {
  import opened Domain
  import opened MessageStore
  import opened ChatClient

  /** The count an unseen map records for `u`; no entry means zero. */
  function CountOf(unseen: map<UserId, nat>, u: UserId): nat
  {
    if u in unseen then unseen[u] else 0
  }

  /** The client's unseen map after the listener bumps it for each of `pushed`, in order. */
  function BumpedAll(unseen: map<UserId, nat>, pushed: seq<Message>): map<UserId, nat>
    decreases |pushed|
  {
    if pushed == [] then unseen else BumpedAll(Bumped(unseen, pushed[0].senderId), pushed[1..])
  }

  /** Bumping for a run of pushes to `me` adds, per sender, the number of those pushes still unseen. */
  lemma {:induction false} BumpedAllCounts(unseen: map<UserId, nat>, pushed: seq<Message>, me: UserId, u: UserId)
    requires forall m :: m in pushed ==> m.receiverId == me && !m.seen
    ensures CountOf(BumpedAll(unseen, pushed), u) == CountOf(unseen, u) + |Unseen(pushed, u, me)|
    decreases |pushed|
  {
    if pushed != [] {
      var next := Bumped(unseen, pushed[0].senderId);
      assert forall m :: m in pushed[1..] ==> m in pushed;
      BumpedAllCounts(next, pushed[1..], me, u);
      assert CountOf(next, u) == CountOf(unseen, u) + (if pushed[0].senderId == u then 1 else 0);
    }
  }

  /**
   * The client seeds its counters from a sidebar load over `msgs` (an entry
   * exactly for a positive count, as the sidebar answers), then receives
   * `pushed`, newly created messages to `me` from senders it is not viewing.
   * Its counters then equal what the sidebar would count over the grown store.
   */
  lemma ClientCountersMatchStore(msgs: seq<Message>, seed: map<UserId, nat>, pushed: seq<Message>, me: UserId)
    requires forall u :: u != me ==> CountOf(seed, u) == |Unseen(msgs, u, me)|
    requires forall m :: m in pushed ==> m.receiverId == me && !m.seen
    ensures forall u :: u != me ==> CountOf(BumpedAll(seed, pushed), u) == |Unseen(msgs + pushed, u, me)|
  {
    forall u | u != me
      ensures CountOf(BumpedAll(seed, pushed), u) == |Unseen(msgs + pushed, u, me)|
    {
      BumpedAllCounts(seed, pushed, me, u);
      SelectAppend(msgs, pushed, m => FromTo(m, u, me) && !m.seen);
    }
  }

  /**
   * U2's client has U1's conversation open when U1 sends "ping": the server
   * stores it and pushes it to U2's socket, U2's client appends it marked
   * seen and asks the server to mark it, and the stored flag becomes true.
   */
  method ViewingDeliveryScenario()
  {
    var server := new MessageServer([1, 2]);
    var client := new ChatProvider(Some(0));
    client.SelectUser(Some(1));
    var reply := server.SendMessage(1, 2, Some("ping"), None, None, true, map[2 := "s2"]);
    var ping := reply.newMessage;
    assert server.pushes == [NewMessage("s2", ping)];
    client.ReceiveNewMessage(server.pushes[0].message);
    assert client.messages == [ping.(seen := true)];
    assert client.requests == [MarkRequest(ping.id)];
    assert client.unseenMessages == map[];
    server.MarkMessageAsSeen(client.requests[0].messageId);
    assert server.messages == [ping.(seen := true)];
  }
}
