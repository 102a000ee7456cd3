/**
 * The client's chat context: the sidebar and conversation fetches, sending
 * to the selected user, the `newMessage` listener, and the effect that
 * re-subscribes that listener whenever the socket or the selection changes.
 *
 * Requests are recorded as events and their outcomes are parameters; the
 * socket is an opaque handle provided by the authentication context.
 */
module ChatClient {
  import opened Domain

  /** The payload of the sidebar endpoint. */
  datatype Sidebar = Sidebar(users: seq<UserId>, unseenMessages: map<UserId, nat>)

  /** What the composer posts: text and/or image data. */
  datatype Draft = Draft(text: Option<string>, image: Option<string>)

  /** The requests the context issues. */
  datatype Request =
    | UsersRequest                                // GET  /api/messages/users
    | MessagesRequest(userId: UserId)             // GET  /api/messages/:id
    | SendRequest(receiver: UserId, body: Draft)  // POST /api/messages/send/:id
    | MarkRequest(messageId: MessageId)           // PUT  /api/messages/mark/:id

  /**
   * The unseen map after one more message from `sender`: its count goes up by
   * one (an absent entry, or a falsy zero, becomes 1) and no other entry moves.
   */
  function Bumped(unseen: map<UserId, nat>, sender: UserId): (r: map<UserId, nat>)
    ensures r.Keys == unseen.Keys + {sender}
    ensures r[sender] == (if sender in unseen then unseen[sender] else 0) + 1
    ensures forall u :: u in unseen && u != sender ==> r[u] == unseen[u]
  {
    unseen[sender := if sender in unseen && unseen[sender] > 0 then unseen[sender] + 1 else 1]
  }

  class ChatProvider {
    /** The conversation with the selected user. */
    var messages: seq<Message>
    /** The sidebar's users. */
    var users: seq<UserId>
    var selectedUser: Option<UserId>
    /** Per sender, how many of their messages are unseen. */
    var unseenMessages: map<UserId, nat>
    /** The socket the authentication context provides, if any. */
    var socket: Option<nat>
    /** One entry per `newMessage` listener on the socket: the selection its closure captured. */
    var listeners: seq<Option<UserId>>
    /** Every request issued, in order. */
    var requests: seq<Request>

    /**
     * The subscription effect keeps exactly one listener on a present socket,
     * and that listener sees the current selection; without a socket, none.
     */
    ghost predicate Valid()
      reads this
    {
      listeners == (if socket.Some? then [selectedUser] else [])
    }

    /** Mounting: empty state, then the effect's first run subscribes when a socket exists. */
    constructor (socket: Option<nat>)
      ensures Valid()
      ensures messages == [] && users == [] && selectedUser == None && unseenMessages == map[]
      ensures this.socket == socket && requests == []
    {
      messages := [];
      users := [];
      selectedUser := None;
      unseenMessages := map[];
      this.socket := socket;
      requests := [];
      listeners := if socket.Some? then [None] else [];
    }

    /** `getUsers`: on success the sidebar list and unseen map are replaced wholesale. */
    method GetUsers(reply: Reply<Sidebar>)
      requires Valid()
      modifies this
      ensures Valid()
      ensures requests == old(requests) + [UsersRequest]
      ensures reply.Success? ==>
        users == reply.data.users && unseenMessages == reply.data.unseenMessages
      ensures !reply.Success? ==> users == old(users) && unseenMessages == old(unseenMessages)
      ensures messages == old(messages) && selectedUser == old(selectedUser)
      ensures socket == old(socket) && listeners == old(listeners)
    {
      requests := requests + [UsersRequest];
      if reply.Success? {
        users := reply.data.users;
        unseenMessages := reply.data.unseenMessages;
      }
    }

    /** `getMessages(userId)`: on success the conversation is replaced wholesale. */
    method GetMessages(userId: UserId, reply: Reply<seq<Message>>)
      requires Valid()
      modifies this
      ensures Valid()
      ensures requests == old(requests) + [MessagesRequest(userId)]
      ensures messages == if reply.Success? then reply.data else old(messages)
      ensures users == old(users) && unseenMessages == old(unseenMessages) && selectedUser == old(selectedUser)
      ensures socket == old(socket) && listeners == old(listeners)
    {
      requests := requests + [MessagesRequest(userId)];
      if reply.Success? {
        messages := reply.data;
      }
    }

    /**
     * `sendMessage`: with nothing selected, reading `selectedUser._id` throws
     * before any request; otherwise one POST to the selected user, and on
     * success exactly the server's stored message is appended.
     */
    method SendMessage(draft: Draft, reply: Reply<Message>)
      requires Valid()
      modifies this
      ensures Valid()
      ensures old(selectedUser).None? ==> requests == old(requests) && messages == old(messages)
      ensures old(selectedUser).Some? ==>
        requests == old(requests) + [SendRequest(old(selectedUser).value, draft)] &&
        messages == (if reply.Success? then old(messages) + [reply.data] else old(messages))
      ensures users == old(users) && unseenMessages == old(unseenMessages) && selectedUser == old(selectedUser)
      ensures socket == old(socket) && listeners == old(listeners)
    {
      if selectedUser.None? {
        return;
      }
      requests := requests + [SendRequest(selectedUser.value, draft)];
      if reply.Success? {
        messages := messages + [reply.data];
      }
    }

    /**
     * `setSelectedUser`: a changed selection re-runs the effect, whose cleanup
     * removes every `newMessage` listener and whose body adds one that
     * captures the new selection.
     */
    method SelectUser(user: Option<UserId>)
      requires Valid()
      modifies this
      ensures Valid()
      ensures selectedUser == user
      ensures |listeners| <= 1
      ensures messages == old(messages) && users == old(users) && unseenMessages == old(unseenMessages)
      ensures socket == old(socket) && requests == old(requests)
    {
      if user != selectedUser {
        selectedUser := user;
        if socket.Some? {
          listeners := [];
        }
        if socket.Some? {
          listeners := listeners + [user];
        }
      }
    }

    /**
     * The authentication context hands over a different socket: the cleanup
     * removes the listener from the old one and the effect subscribes on the
     * new one, if present.
     */
    method SocketChanged(next: Option<nat>)
      requires Valid()
      modifies this
      ensures Valid()
      ensures socket == next
      ensures |listeners| <= 1
      ensures messages == old(messages) && users == old(users) && unseenMessages == old(unseenMessages)
      ensures selectedUser == old(selectedUser) && requests == old(requests)
    {
      if next != socket {
        socket := next;
        listeners := [];
        if socket.Some? {
          listeners := listeners + [selectedUser];
        }
      }
    }

    /**
     * A `newMessage` event reaches each listener on the socket (one, by
     * `Valid`). From the selected user it is appended marked seen and one
     * mark request goes out; from anyone else, or with nothing selected, the
     * sender's unseen count goes up by one.
     */
    method ReceiveNewMessage(m: Message)
      requires Valid()
      modifies this
      ensures Valid()
      ensures old(socket).None? ==>
        messages == old(messages) && unseenMessages == old(unseenMessages) && requests == old(requests)
      ensures old(socket).Some? && selectedUser.Some? && m.senderId == selectedUser.value ==>
        messages == old(messages) + [m.(seen := true)] &&
        requests == old(requests) + [MarkRequest(m.id)] &&
        unseenMessages == old(unseenMessages)
      ensures old(socket).Some? && !(selectedUser.Some? && m.senderId == selectedUser.value) ==>
        unseenMessages == Bumped(old(unseenMessages), m.senderId) &&
        messages == old(messages) && requests == old(requests)
      ensures users == old(users) && selectedUser == old(selectedUser)
      ensures socket == old(socket) && listeners == old(listeners)
    {
      if listeners != [] {
        var captured := listeners[0];
        if captured.Some? && m.senderId == captured.value {
          messages := messages + [m.(seen := true)];
          requests := requests + [MarkRequest(m.id)];
        } else {
          unseenMessages := Bumped(unseenMessages, m.senderId);
        }
      }
    }
  }
}
