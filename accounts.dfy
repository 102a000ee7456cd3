/**
 * The server's user controller: sign-up with its field and duplicate-email
 * checks, login by email and password hash, the authentication echo, and
 * the profile update with and without a new picture.
 *
 * bcrypt and the token signer are foreign: the hash sign-up stores is a
 * parameter, the hash comparison is a predicate `matches`, and a token is
 * the value `Jwt(userId)` it signs.
 */
module Accounts {
  import opened Domain

  /** The token `generateToken(userId)` signs for a user. */
  datatype Jwt = Jwt(userId: UserId)

  /** The answer of `signup` and `login`. */
  datatype AuthReply = Authenticated(userData: User, token: Jwt) | AuthFailed(message: string)

  /** The answer of `checkAuth`. */
  datatype AuthCheck = AuthCheck(success: bool, user: User)

  /** The answer of `updateProfile`: the updated record (none for an unknown id), or a failure. */
  datatype ProfileReply = ProfileUpdated(user: Option<User>) | ProfileFailed

  const MissingDetails := "Missing Details"
  const AccountExists := "Account already exists"
  const InvalidCredentials := "Invalid credentials"
  /** The TypeError that reading `userData.password` raises when `findOne` found nobody. */
  const NullPasswordRead := "Cannot read properties of null (reading 'password')"

  /** No two accounts share an email. */
  ghost predicate UniqueEmails(users: seq<User>)
  {
    forall i, j :: 0 <= i < j < |users| ==> users[i].email != users[j].email
  }

  /** A single-record lookup (`findOne`, `findById`): the first account `hit` selects, if any. */
  function FindOne(users: seq<User>, hit: User -> bool): (r: Option<User>)
    ensures r.Some? ==> r.value in users && hit(r.value)
    ensures r.None? <==> forall u :: u in users ==> !hit(u)
  {
    if users == [] then None
    else if hit(users[0]) then Some(users[0])
    else FindOne(users[1..], hit)
  }

  /** `User.findOne({email})`: an account with that email, none exactly when there is no such account. */
  function FindByEmail(users: seq<User>, email: string): (r: Option<User>)
    ensures r.Some? ==> r.value in users && r.value.email == email
    ensures r.None? <==> forall u :: u in users ==> u.email != email
  {
    FindOne(users, (u: User) => u.email == email)
  }

  /** `User.findById(id)`: an account with that id, none exactly when there is no such account. */
  function FindById(users: seq<User>, id: UserId): (r: Option<User>)
    ensures r.Some? ==> r.value in users && r.value.id == id
    ensures r.None? <==> forall u :: u in users ==> u.id != id
  {
    FindOne(users, (u: User) => u.id == id)
  }

  /** With unique emails, the account `findOne` returns is the only one with that email. */
  lemma FindByEmailUnique(users: seq<User>, u: User)
    requires UniqueEmails(users)
    requires u in users
    ensures FindByEmail(users, u.email) == Some(u)
  {
  }

  /**
   * `findByIdAndUpdate(id, {bio, fullName[, profilePic]})`: the account with
   * that id gets the new bio and name, and the new picture when one is
   * given; every other account, and the id, email and password hash of
   * every account, stay as they were.
   */
  function UpdateProfileFields(users: seq<User>, id: UserId, bio: string, fullName: string, pic: Option<string>)
    : (r: seq<User>)
    ensures |r| == |users|
    ensures forall i :: 0 <= i < |users| && users[i].id != id ==> r[i] == users[i]
    ensures forall i :: 0 <= i < |users| ==>
      r[i].id == users[i].id && r[i].email == users[i].email && r[i].password == users[i].password
    ensures forall i :: 0 <= i < |users| && users[i].id == id ==>
      r[i].bio == bio && r[i].fullName == fullName &&
      r[i].profilePic == (if pic.Some? then pic.value else users[i].profilePic)
  {
    if users == [] then []
    else
      var u := users[0];
      var u' := if u.id != id then u
                else if pic.Some? then u.(bio := bio, fullName := fullName, profilePic := pic.value)
                else u.(bio := bio, fullName := fullName);
      [u'] + UpdateProfileFields(users[1..], id, bio, fullName, pic)
  }

  /** A profile update keeps emails unique: it never touches an email. */
  lemma UpdateProfileKeepsEmailsUnique(users: seq<User>, id: UserId, bio: string, fullName: string, pic: Option<string>)
    requires UniqueEmails(users)
    ensures UniqueEmails(UpdateProfileFields(users, id, bio, fullName, pic))
  {
  }

  /** `checkAuth`: answers success with the user the authentication middleware attached, unchanged. */
  function CheckAuth(requestUser: User): (r: AuthCheck)
    ensures r.success && r.user == requestUser
  {
    AuthCheck(true, requestUser)
  }

  class AccountServer {
    /** The User collection, in creation order. */
    var users: seq<User>
    /** The id the next created account receives. */
    var nextId: UserId

    /** At most one account per email; ids are assigned in creation order and never reused. */
    ghost predicate Valid()
      reads this
    {
      UniqueEmails(users) &&
      (forall i :: 0 <= i < |users| ==> users[i].id < nextId) &&
      (forall i, j :: 0 <= i < j < |users| ==> users[i].id < users[j].id)
    }

    constructor ()
      ensures Valid() && users == [] && nextId == 0
    {
      users := [];
      nextId := 0;
    }

    /**
     * `signup`: rejects a missing field, then an email already taken; else
     * stores one new account with the hash bcrypt produced (`hashed`) in
     * place of the password, and answers it with its token.
     */
    method Signup(fullName: string, email: string, password: string, bio: string, hashed: string)
      returns (reply: AuthReply)
      requires Valid()
      modifies this
      ensures Valid()
      ensures fullName == "" || email == "" || password == "" || bio == "" ==>
        reply == AuthFailed(MissingDetails) && users == old(users)
      ensures fullName != "" && email != "" && password != "" && bio != "" &&
              (exists u :: u in old(users) && u.email == email) ==>
        reply == AuthFailed(AccountExists) && users == old(users)
      ensures fullName != "" && email != "" && password != "" && bio != "" &&
              (forall u :: u in old(users) ==> u.email != email) ==>
        reply.Authenticated?
      ensures reply.Authenticated? ==>
        reply.userData == User(old(nextId), fullName, email, hashed, bio, "") &&
        reply.token == Jwt(old(nextId)) &&
        users == old(users) + [reply.userData] && nextId == old(nextId) + 1
      ensures reply.AuthFailed? ==> users == old(users) && nextId == old(nextId)
    {
      if fullName == "" || email == "" || password == "" || bio == "" {
        return AuthFailed(MissingDetails);
      }
      var existing := FindByEmail(users, email);
      if existing.Some? {
        return AuthFailed(AccountExists);
      }
      var created := User(nextId, fullName, email, hashed, bio, "");
      users := users + [created];
      nextId := nextId + 1;
      reply := Authenticated(created, Jwt(created.id));
    }

    /**
     * `login`: succeeds exactly when an account has that email and the
     * password matches its stored hash. An unknown email fails on the null
     * record's `password` read; a wrong password fails as invalid credentials.
     */
    method Login(email: string, password: string, matches: (string, string) -> bool)
      returns (reply: AuthReply)
      requires Valid()
      ensures reply.Authenticated? <==> exists u :: u in users && u.email == email && matches(password, u.password)
      ensures reply.Authenticated? ==>
        reply.userData in users && reply.userData.email == email &&
        matches(password, reply.userData.password) && reply.token == Jwt(reply.userData.id)
      ensures (forall u :: u in users ==> u.email != email) ==> reply == AuthFailed(NullPasswordRead)
      ensures (exists u :: u in users && u.email == email) && reply.AuthFailed? ==>
        reply == AuthFailed(InvalidCredentials)
    {
      var found := FindByEmail(users, email);
      if found.None? {
        return AuthFailed(NullPasswordRead);
      }
      var userData := found.value;
      if !matches(password, userData.password) {
        forall u | u in users && u.email == email
          ensures !matches(password, u.password)
        {
          FindByEmailUnique(users, u);
        }
        return AuthFailed(InvalidCredentials);
      }
      reply := Authenticated(userData, Jwt(userData.id));
    }

    /**
     * `updateProfile` for the authenticated `userId`: without a picture only
     * bio and name change; with one, the uploaded URL (`upload`, none when the
     * upload throws) is stored too. Every other account is left as it was.
     */
    method UpdateProfile(userId: UserId, profilePic: string, bio: string, fullName: string, upload: Option<string>)
      returns (reply: ProfileReply)
      requires Valid()
      modifies this
      ensures Valid()
      ensures nextId == old(nextId)
      ensures profilePic == "" ==>
        users == UpdateProfileFields(old(users), userId, bio, fullName, None) &&
        reply == ProfileUpdated(FindById(users, userId))
      ensures profilePic != "" && upload.Some? ==>
        users == UpdateProfileFields(old(users), userId, bio, fullName, upload) &&
        reply == ProfileUpdated(FindById(users, userId))
      ensures profilePic != "" && upload.None? ==> reply == ProfileFailed && users == old(users)
    {
      if profilePic == "" {
        users := UpdateProfileFields(users, userId, bio, fullName, None);
      } else {
        if upload.None? {
          return ProfileFailed;
        }
        users := UpdateProfileFields(users, userId, bio, fullName, upload);
      }
      reply := ProfileUpdated(FindById(users, userId));
    }
  }
}
