/**
 * The server's message controller: the sidebar query with its per-sender
 * unseen counts, the conversation query that also marks the contact's
 * messages seen, the single seen-mark, and sending (upload, create, then a
 * push to the receiver when the presence map holds a socket for them).
 *
 * The Message collection is a sequence in creation order; the presence map
 * is an input from user id to socket id; pushes are recorded as events.
 */
module MessageStore {
  import opened Domain

  /** One `newMessage` event emitted to a socket. */
  datatype Push = NewMessage(socket: SocketId, message: Message)

  /** What `sendMessage` answers the sender. */
  datatype SendReply = Sent(newMessage: Message) | SendFailed

  // ---------------------------------------------------------------------
  // Queries and updates over the collection
  // ---------------------------------------------------------------------

  /** The records a `Message.find` with filter `keep` returns, in store order. */
  function Select(msgs: seq<Message>, keep: Message -> bool): (r: seq<Message>)
    ensures |r| <= |msgs|
    ensures forall m :: m in r <==> m in msgs && keep(m)
    ensures forall m :: multiset(r)[m] == if keep(m) then multiset(msgs)[m] else 0
  {
    if msgs == [] then []
    else
      assert msgs == [msgs[0]] + msgs[1..];
      if keep(msgs[0]) then [msgs[0]] + Select(msgs[1..], keep)
      else Select(msgs[1..], keep)
  }

  /** Selecting from a concatenation selects from each part, in order. */
  lemma {:induction false} SelectAppend(a: seq<Message>, b: seq<Message>, keep: Message -> bool)
    ensures Select(a + b, keep) == Select(a, keep) + Select(b, keep)
  {
    if a == [] {
      assert a + b == b;
    } else {
      assert (a + b)[0] == a[0];
      assert (a + b)[1..] == a[1..] + b;
      SelectAppend(a[1..], b, keep);
    }
  }

  /**
   * `updateMany(filter, {seen: true})`: every record `hit` selects becomes
   * seen, every other record is left exactly as it was.
   */
  function MarkSeenWhere(msgs: seq<Message>, hit: Message -> bool): (r: seq<Message>)
    ensures |r| == |msgs|
    ensures forall i :: 0 <= i < |msgs| && hit(msgs[i]) ==> r[i] == msgs[i].(seen := true)
    ensures forall i :: 0 <= i < |msgs| && !hit(msgs[i]) ==> r[i] == msgs[i]
  {
    if msgs == [] then []
    else [if hit(msgs[0]) then msgs[0].(seen := true) else msgs[0]] + MarkSeenWhere(msgs[1..], hit)
  }

  /**
   * `after` is `before` with some seen flags raised: same records in the same
   * places, nothing but `seen` changed, and no flag went from true to false.
   */
  ghost predicate SeenOnlyGrows(before: seq<Message>, after: seq<Message>)
  {
    |before| == |after| &&
    forall i :: 0 <= i < |before| ==>
      after[i] == before[i].(seen := after[i].seen) && (before[i].seen ==> after[i].seen)
  }

  predicate FromTo(m: Message, sender: UserId, receiver: UserId)
  {
    m.senderId == sender && m.receiverId == receiver
  }

  /** The conversation query of `getMessages`: either direction between `me` and `other`. */
  function Conversation(msgs: seq<Message>, me: UserId, other: UserId): (r: seq<Message>)
    ensures forall m :: m in r <==> m in msgs && (FromTo(m, me, other) || FromTo(m, other, me))
  {
    Select(msgs, m => FromTo(m, me, other) || FromTo(m, other, me))
  }

  /** The per-sender query of `getUsersForSidebar`: unseen messages from `sender` to `receiver`. */
  function Unseen(msgs: seq<Message>, sender: UserId, receiver: UserId): (r: seq<Message>)
    ensures |r| <= |msgs|
    ensures forall m :: m in r <==> m in msgs && FromTo(m, sender, receiver) && !m.seen
  {
    Select(msgs, m => FromTo(m, sender, receiver) && !m.seen)
  }

  /**
   * The bulk update of `getMessages`: everything `sender` sent `receiver`
   * becomes seen; messages of every other direction are exactly as they were.
   */
  function MarkAllSeen(msgs: seq<Message>, sender: UserId, receiver: UserId): (r: seq<Message>)
    ensures |r| == |msgs|
    ensures forall i :: 0 <= i < |msgs| && FromTo(msgs[i], sender, receiver) ==> r[i] == msgs[i].(seen := true)
    ensures forall i :: 0 <= i < |msgs| && !FromTo(msgs[i], sender, receiver) ==> r[i] == msgs[i]
  {
    MarkSeenWhere(msgs, m => FromTo(m, sender, receiver))
  }

  /**
   * `findByIdAndUpdate(id, {seen: true})`: the message with that id gets its
   * flag set, every other message is unchanged; an unknown id changes nothing.
   */
  function MarkOneSeen(msgs: seq<Message>, id: MessageId): (r: seq<Message>)
    ensures |r| == |msgs|
    ensures forall i :: 0 <= i < |msgs| ==> r[i] == if msgs[i].id == id then msgs[i].(seen := true) else msgs[i]
    ensures (forall m :: m in msgs ==> m.id != id) ==> r == msgs
  {
    MarkSeenWhere(msgs, (m: Message) => m.id == id)
  }

  /** The users other than `me`, in table order (`User.find({_id: {$ne: me}})`). */
  function OtherUsers(users: seq<UserId>, me: UserId): (r: seq<UserId>)
    ensures forall u :: u in r <==> u in users && u != me
  {
    if users == [] then []
    else if users[0] == me then OtherUsers(users[1..], me)
    else [users[0]] + OtherUsers(users[1..], me)
  }

  /**
   * `userSocketMap[receiverId]` is truthy: the receiver holds a socket. A
   * missing entry reads as `undefined` and an empty socket id as falsy.
   */
  predicate Online(socketMap: map<UserId, SocketId>, u: UserId): (r: bool)
    ensures u !in socketMap ==> !r
    ensures u in socketMap && socketMap[u] == "" ==> !r
    ensures r ==> |socketMap[u]| > 0
  {
    u in socketMap && socketMap[u] != ""
  }

  /** The pushes `sendMessage` emits for a created message: one to an online receiver, none otherwise. */
  function Dispatch(socketMap: map<UserId, SocketId>, m: Message): (r: seq<Push>)
    ensures |r| <= 1
    ensures |r| == 1 <==> Online(socketMap, m.receiverId)
    ensures r != [] ==> m.receiverId in socketMap && r[0] == NewMessage(socketMap[m.receiverId], m)
  {
    if Online(socketMap, m.receiverId) then [NewMessage(socketMap[m.receiverId], m)] else []
  }

  /** The image a created message records: the upload's URL when an image was sent, else none. */
  function StoredImage(image: Option<string>, upload: Option<string>): (r: Option<string>)
    ensures r.Some? ==> Truthy(image) && r == upload
    ensures Truthy(image) ==> r == upload
    ensures !Truthy(image) ==> r == None
  {
    if Truthy(image) then upload else None
  }

  // ---------------------------------------------------------------------
  // Properties of the updates
  // ---------------------------------------------------------------------

  /** Marking never resets a seen flag and changes nothing but seen flags. */
  lemma MarkSeenWhereGrows(msgs: seq<Message>, hit: Message -> bool)
    ensures SeenOnlyGrows(msgs, MarkSeenWhere(msgs, hit))
  {
  }

  /**
   * After `getMessages(me, other)` marks the conversation, nothing `other`
   * sent `me` is unseen any more: the sidebar count for `other` is zero.
   */
  lemma {:induction false} MarkAllSeenClearsUnseen(msgs: seq<Message>, sender: UserId, receiver: UserId)
    ensures Unseen(MarkAllSeen(msgs, sender, receiver), sender, receiver) == []
  {
    if msgs != [] {
      MarkAllSeenClearsUnseen(msgs[1..], sender, receiver);
      var after := MarkAllSeen(msgs, sender, receiver);
      assert after[1..] == MarkAllSeen(msgs[1..], sender, receiver);
    }
  }

  /** Marking one message twice is the same as marking it once. */
  lemma MarkOneSeenIdempotent(msgs: seq<Message>, id: MessageId)
    ensures MarkOneSeen(MarkOneSeen(msgs, id), id) == MarkOneSeen(msgs, id)
  {
    var once := MarkOneSeen(msgs, id);
    var twice := MarkOneSeen(once, id);
    assert forall i :: 0 <= i < |msgs| ==> twice[i] == once[i];
  }

  /**
   * A message created with an id no stored message has shows up in the
   * conversation of its two parties exactly once, after everything before it.
   */
  lemma {:induction false} CreatedMessageEndsConversation(msgs: seq<Message>, m: Message, me: UserId, other: UserId)
    requires forall x :: x in msgs ==> x.id != m.id
    requires FromTo(m, me, other) || FromTo(m, other, me)
    ensures Conversation(msgs + [m], me, other) == Conversation(msgs, me, other) + [m]
    ensures m !in Conversation(msgs, me, other)
  {
    SelectAppend(msgs, [m], x => FromTo(x, me, other) || FromTo(x, other, me));
    assert Select([m], x => FromTo(x, me, other) || FromTo(x, other, me)) == [m];
  }

  // ---------------------------------------------------------------------
  // The controller over its collections
  // ---------------------------------------------------------------------

  class MessageServer {
    /** The Message collection, in creation order. */
    var messages: seq<Message>
    /** The ids of the User collection. */
    var users: seq<UserId>
    /** The id the next created message receives. */
    var nextId: MessageId
    /** Every `newMessage` event emitted so far. */
    var pushes: seq<Push>

    /** Ids are assigned in creation order and never reused. */
    ghost predicate Valid()
      reads this
    {
      (forall i :: 0 <= i < |messages| ==> messages[i].id < nextId) &&
      (forall i, j :: 0 <= i < j < |messages| ==> messages[i].id < messages[j].id)
    }

    constructor (users: seq<UserId>)
      ensures Valid()
      ensures this.users == users && messages == [] && pushes == [] && nextId == 0
    {
      this.users := users;
      messages := [];
      nextId := 0;
      pushes := [];
    }

    /**
     * `getUsersForSidebar`: every user but `me`, and for each of them with
     * unseen messages to `me`, how many; users with none get no entry.
     */
    method GetUsersForSidebar(me: UserId) returns (others: seq<UserId>, unseen: map<UserId, nat>)
      ensures me !in others
      ensures forall u :: u in others <==> u in users && u != me
      ensures forall u :: u in unseen <==> u in others && |Unseen(messages, u, me)| > 0
      ensures forall u :: u in unseen ==> unseen[u] == |Unseen(messages, u, me)| && unseen[u] > 0
    {
      others := OtherUsers(users, me);
      unseen := map[];
      var i := 0;
      while i < |others|
        invariant 0 <= i <= |others|
        invariant forall u :: u in unseen <==> u in others[..i] && |Unseen(messages, u, me)| > 0
        invariant forall u :: u in unseen ==> unseen[u] == |Unseen(messages, u, me)|
      {
        var user := others[i];
        var pending := Unseen(messages, user, me);
        if |pending| > 0 {
          unseen := unseen[user := |pending|];
        }
        assert others[..i + 1] == others[..i] + [user];
        i := i + 1;
      }
      assert others[..i] == others;
    }

    /**
     * `getMessages`: the conversation as it was before the update (old seen
     * flags), then every message `other` sent `me` is marked seen.
     */
    method GetMessages(me: UserId, other: UserId) returns (conversation: seq<Message>)
      requires Valid()
      modifies this
      ensures Valid()
      ensures conversation == Conversation(old(messages), me, other)
      ensures messages == MarkAllSeen(old(messages), other, me)
      ensures users == old(users) && nextId == old(nextId) && pushes == old(pushes)
    {
      conversation := Conversation(messages, me, other);
      messages := MarkAllSeen(messages, other, me);
    }

    /** `markMessageAsSeen`: raises the flag of the message with `id`, if any. */
    method MarkMessageAsSeen(id: MessageId)
      requires Valid()
      modifies this
      ensures Valid()
      ensures messages == MarkOneSeen(old(messages), id)
      ensures users == old(users) && nextId == old(nextId) && pushes == old(pushes)
    {
      messages := MarkOneSeen(messages, id);
    }

    /**
     * `sendMessage`: uploads the image when one is given (`upload` is the
     * host's URL, or none when the upload throws), creates the record
     * (`stored` says whether the store accepted it), and only then pushes it
     * to the receiver's socket when the receiver is online.
     */
    method SendMessage(sender: UserId, receiver: UserId, text: Option<string>, image: Option<string>,
                       upload: Option<string>, stored: bool, socketMap: map<UserId, SocketId>)
      returns (reply: SendReply)
      requires Valid()
      modifies this
      ensures Valid()
      ensures users == old(users)
      ensures reply.SendFailed? <==> (Truthy(image) && upload.None?) || !stored
      ensures reply.SendFailed? ==>
        messages == old(messages) && pushes == old(pushes) && nextId == old(nextId)
      ensures reply.Sent? ==>
        reply.newMessage == Message(old(nextId), sender, receiver, text, StoredImage(image, upload), false) &&
        messages == old(messages) + [reply.newMessage] &&
        pushes == old(pushes) + Dispatch(socketMap, reply.newMessage)
    {
      var imageUrl: Option<string> := None;
      if Truthy(image) {
        if upload.None? {
          return SendFailed;
        }
        imageUrl := upload;
      }
      if !stored {
        return SendFailed;
      }
      var created := Message(nextId, sender, receiver, text, imageUrl, false);
      messages := messages + [created];
      nextId := nextId + 1;
      pushes := pushes + Dispatch(socketMap, created);
      reply := Sent(created);
    }
  }

  /**
   * U1 sends "hi" to an offline U2; U2's sidebar shows one unseen message
   * from U1; opening the conversation shows it and marks it seen.
   */
  method OfflineDeliveryScenario()
  {
    var server := new MessageServer([1, 2]);
    var reply := server.SendMessage(1, 2, Some("hi"), None, None, true, map[]);
    var hi := reply.newMessage;
    assert server.messages == [hi] && server.pushes == [];
    assert Unseen(server.messages, 1, 2) == [hi];
    var others, unseen := server.GetUsersForSidebar(2);
    assert 1 in others && unseen[1] == 1;
    var conversation := server.GetMessages(2, 1);
    assert conversation == [hi];
    assert server.messages == [hi.(seen := true)];
  }
}
