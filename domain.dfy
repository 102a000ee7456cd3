/**
 * Values shared by the server controllers and the client contexts of the
 * chat application: identifiers, the stored message and user records, and
 * the outcome of a request as the client's handlers see it.
 */
module Domain {

  datatype Option<T> = None | Some(value: T)

  /** Database identifiers are opaque keys; naturals are enough to compare them. */
  type UserId = nat
  type MessageId = nat

  /** The handle of a realtime connection, as held in the server's presence map. */
  type SocketId = string

  /** JavaScript truthiness of a string that may be missing: present and non-empty. */
  predicate Truthy(s: Option<string>)
  {
    s.Some? && s.value != ""
  }

  /**
   * A stored message. Only `seen` ever changes after creation; `image` is the
   * URL returned by the image host, never the uploaded data.
   */
  datatype Message = Message(
    id: MessageId,
    senderId: UserId,
    receiverId: UserId,
    text: Option<string>,
    image: Option<string>,
    seen: bool)

  /** A stored account; `password` holds the bcrypt hash, never the raw input. */
  datatype User = User(
    id: UserId,
    fullName: string,
    email: string,
    password: string,
    bio: string,
    profilePic: string)

  /** The body the sign-up/login form posts. */
  datatype Credentials = Credentials(fullName: string, email: string, password: string, bio: string)

  /**
   * How a client handler sees one request: the server answered with
   * `success: true` and a payload, answered with `success: false` and a
   * message, or the request itself was rejected (network error, thrown error).
   */
  datatype Reply<T> = Success(data: T) | Unsuccessful(message: string) | Rejected(error: string)
}
