/**
 * The client's authentication context: the token kept in state, in local
 * storage and in the request header; the logged-in user; the socket opened
 * for that user; and the online list the server broadcasts over it.
 *
 * Requests are recorded as events and their outcomes are parameters; a
 * socket is a record of the handshake query it was opened with.
 */
module AuthClient {
  import opened Domain

  /**
   * A socket.io client socket: its position among all sockets this context
   * opened, the `userId` its handshake query carries, and whether it is connected.
   */
  datatype SocketConn = SocketConn(handle: nat, userId: UserId, connected: bool)

  /** The payload of a successful login or sign-up. */
  datatype AuthPayload = AuthPayload(userData: User, token: string)

  /** The requests the context issues. */
  datatype AuthRequest =
    | CheckRequest                                        // GET  /api/auth/check
    | AuthPost(state: string, credentials: Credentials)   // POST /api/auth/:state

  /** The guard of `connectSocket`: nothing to do without a user, or while a socket is connected. */
  predicate SkipsConnect(userData: Option<User>, socket: Option<SocketConn>): (r: bool)
    ensures userData.None? ==> r
    ensures socket.Some? && socket.value.connected ==> r
    ensures !r ==> userData.Some? && (socket.None? || !socket.value.connected)
  {
    userData.None? || (socket.Some? && socket.value.connected)
  }

  class AuthProvider {
    var token: Option<string>
    /** The "token" entry of local storage. */
    var storedToken: Option<string>
    /** The "token" header axios adds to every request. */
    var headerToken: Option<string>
    var authUser: Option<User>
    var onlineUsers: seq<UserId>
    var socket: Option<SocketConn>
    /** The `userId` query of every socket opened, in order. */
    var handshakes: seq<UserId>
    /** Every request issued, in order. */
    var requests: seq<AuthRequest>

    /**
     * State and storage hold the same token; the current socket is one this
     * context opened, with the query it was opened with; a connected socket
     * belongs to a session with a logged-in user.
     */
    ghost predicate Valid()
      reads this
    {
      token == storedToken &&
      (socket.Some? ==> socket.value.handle < |handshakes| && handshakes[socket.value.handle] == socket.value.userId) &&
      (socket.Some? && socket.value.connected ==> authUser.Some?)
    }

    /** The provider's initial state: the token read back from local storage. */
    constructor (stored: Option<string>)
      ensures Valid()
      ensures token == stored && storedToken == stored && headerToken == None
      ensures authUser == None && onlineUsers == [] && socket == None && handshakes == [] && requests == []
    {
      token := stored;
      storedToken := stored;
      headerToken := None;
      authUser := None;
      onlineUsers := [];
      socket := None;
      handshakes := [];
      requests := [];
    }

    /**
     * `connectSocket(userData)`: a no-op without a user or while the socket
     * is connected; otherwise a new socket whose query `userId` is the
     * user's id replaces the current one.
     */
    method ConnectSocket(userData: Option<User>)
      requires Valid()
      requires userData.Some? ==> authUser.Some?
      modifies this
      ensures Valid()
      ensures SkipsConnect(userData, old(socket)) ==> socket == old(socket) && handshakes == old(handshakes)
      ensures !SkipsConnect(userData, old(socket)) ==>
        socket == Some(SocketConn(|old(handshakes)|, userData.value.id, true)) &&
        handshakes == old(handshakes) + [userData.value.id]
      ensures token == old(token) && storedToken == old(storedToken) && headerToken == old(headerToken)
      ensures authUser == old(authUser) && onlineUsers == old(onlineUsers) && requests == old(requests)
    {
      if SkipsConnect(userData, socket) {
        return;
      }
      socket := Some(SocketConn(|handshakes|, userData.value.id, true));
      handshakes := handshakes + [userData.value.id];
    }

    /** `checkAuth`: when the server accepts the token, its user becomes the logged-in user and is connected. */
    method CheckAuth(reply: Reply<User>)
      requires Valid()
      modifies this
      ensures Valid()
      ensures requests == old(requests) + [CheckRequest]
      ensures reply.Success? ==> authUser == Some(reply.data)
      ensures reply.Success? && !SkipsConnect(Some(reply.data), old(socket)) ==>
        socket == Some(SocketConn(|old(handshakes)|, reply.data.id, true)) && handshakes == old(handshakes) + [reply.data.id]
      ensures reply.Success? && SkipsConnect(Some(reply.data), old(socket)) ==>
        socket == old(socket) && handshakes == old(handshakes)
      ensures !reply.Success? ==> authUser == old(authUser) && socket == old(socket) && handshakes == old(handshakes)
      ensures token == old(token) && storedToken == old(storedToken) && headerToken == old(headerToken)
      ensures onlineUsers == old(onlineUsers)
    {
      requests := requests + [CheckRequest];
      if reply.Success? {
        authUser := Some(reply.data);
        ConnectSocket(Some(reply.data));
      }
    }

    /**
     * The mount effect: the stored token goes into the request header only
     * when there is one, then `checkAuth` runs.
     */
    method Mount(reply: Reply<User>)
      requires Valid()
      modifies this
      ensures Valid()
      ensures headerToken == if Truthy(old(token)) then old(token) else old(headerToken)
      ensures requests == old(requests) + [CheckRequest]
      ensures reply.Success? ==> authUser == Some(reply.data) && socket.Some? && socket.value.connected
      ensures reply.Success? && !SkipsConnect(Some(reply.data), old(socket)) ==>
        socket == Some(SocketConn(|old(handshakes)|, reply.data.id, true)) && handshakes == old(handshakes) + [reply.data.id]
      ensures reply.Success? && SkipsConnect(Some(reply.data), old(socket)) ==>
        socket == old(socket) && handshakes == old(handshakes)
      ensures !reply.Success? ==> authUser == old(authUser) && socket == old(socket) && handshakes == old(handshakes)
      ensures token == old(token) && storedToken == old(storedToken)
      ensures onlineUsers == old(onlineUsers)
    {
      if Truthy(token) {
        headerToken := token;
      }
      CheckAuth(reply);
    }

    /**
     * `login(state, credentials)`: on success the user becomes the logged-in
     * user, a socket is connected for them, and the token goes into state,
     * header and storage; on a failure or a rejected request nothing changes.
     */
    method Login(state: string, credentials: Credentials, reply: Reply<AuthPayload>)
      requires Valid()
      modifies this
      ensures Valid()
      ensures requests == old(requests) + [AuthPost(state, credentials)]
      ensures reply.Success? ==>
        authUser == Some(reply.data.userData) &&
        token == Some(reply.data.token) && storedToken == Some(reply.data.token) &&
        headerToken == Some(reply.data.token) &&
        socket.Some? && socket.value.connected
      ensures reply.Success? && !SkipsConnect(Some(reply.data.userData), old(socket)) ==>
        socket == Some(SocketConn(|old(handshakes)|, reply.data.userData.id, true)) &&
        handshakes == old(handshakes) + [reply.data.userData.id]
      ensures reply.Success? && SkipsConnect(Some(reply.data.userData), old(socket)) ==>
        socket == old(socket) && handshakes == old(handshakes)
      ensures !reply.Success? ==>
        authUser == old(authUser) && token == old(token) && storedToken == old(storedToken) &&
        headerToken == old(headerToken) && socket == old(socket) && handshakes == old(handshakes)
      ensures onlineUsers == old(onlineUsers)
    {
      requests := requests + [AuthPost(state, credentials)];
      if reply.Success? {
        authUser := Some(reply.data.userData);
        ConnectSocket(Some(reply.data.userData));
        headerToken := Some(reply.data.token);
        token := Some(reply.data.token);
        storedToken := Some(reply.data.token);
      }
    }

    /**
     * `logout`: token, storage, header, user and online list are cleared,
     * then the socket is disconnected. Without a socket that last call
     * throws (`threw`), after everything else has been cleared.
     */
    method Logout() returns (threw: bool)
      requires Valid()
      modifies this
      ensures Valid()
      ensures token == None && storedToken == None && headerToken == None
      ensures authUser == None && onlineUsers == []
      ensures threw <==> old(socket).None?
      ensures old(socket).Some? ==> socket == Some(old(socket).value.(connected := false))
      ensures old(socket).None? ==> socket == None
      ensures handshakes == old(handshakes) && requests == old(requests)
    {
      storedToken := None;
      token := None;
      authUser := None;
      onlineUsers := [];
      headerToken := None;
      if socket.None? {
        return true;
      }
      socket := Some(socket.value.(connected := false));
      threw := false;
    }

    /** The socket's `getOnlineUsers` event: the online list is replaced wholesale. */
    method OnlineUsersEvent(userIds: seq<UserId>)
      requires Valid()
      requires socket.Some? && socket.value.connected
      modifies this
      ensures Valid()
      ensures onlineUsers == userIds
      ensures token == old(token) && storedToken == old(storedToken) && headerToken == old(headerToken)
      ensures authUser == old(authUser) && socket == old(socket) && handshakes == old(handshakes)
      ensures requests == old(requests)
    {
      onlineUsers := userIds;
    }
  }
}
