/**
 * backend/src/main/java/com/foodorder/service/UserService.java over an in-memory user
 * repository: a list of users in insertion order, with the database's generated ids drawn
 * from a counter. The password encoder is passed in as `encode` and `matches`.
 */
module FoodOrderUsers {
  import opened Wrappers
  import opened Seqs
  import opened FoodOrderModel

  const USERNAME_TAKEN: string := "Username already exists"
  const EMAIL_TAKEN: string := "Email already exists"
  const INVALID_CREDENTIALS: string := "Invalid credentials"
  const USER_NOT_FOUND: string := "User not found"

  /** Position of the first user with that username, or |users| (findByUsername / existsByUsername). */
  function UsernameIndex(users: seq<User>, username: string): (i: nat)
    ensures i <= |users|
    ensures i < |users| ==> users[i].username == username
    ensures forall k :: 0 <= k < i ==> users[k].username != username
  {
    if users == [] then 0
    else if users[0].username == username then 0
    else 1 + UsernameIndex(users[1..], username)
  }

  /** Position of the first user with that email, or |users| (existsByEmail). */
  function EmailIndex(users: seq<User>, email: string): (i: nat)
    ensures i <= |users|
    ensures i < |users| ==> users[i].email == email
    ensures forall k :: 0 <= k < i ==> users[k].email != email
  {
    if users == [] then 0
    else if users[0].email == email then 0
    else 1 + EmailIndex(users[1..], email)
  }

  ghost predicate UniqueUsernames(users: seq<User>)
  {
    forall i, j :: 0 <= i < j < |users| ==> users[i].username != users[j].username
  }

  /** Under unique usernames, the user found by name is the only one carrying it. */
  lemma UsernameIndexUnique(users: seq<User>, username: string, k: nat)
    requires UniqueUsernames(users)
    requires k < |users| && users[k].username == username
    ensures UsernameIndex(users, username) == k
  {
  }

  class UserService {
    var users: seq<User>
    var nextId: int

    /** Ids are unique and below the counter; usernames are unique. */
    ghost predicate Valid()
      reads this
    {
      && UniqueKeys(users, UserId)
      && (forall k :: 0 <= k < |users| ==> users[k].id < nextId)
      && UniqueUsernames(users)
    }

    constructor ()
      ensures users == [] && nextId == 1 && Valid()
    {
      users := [];
      nextId := 1;
    }

    /**
     * registerUser: a taken username is reported before a taken email; otherwise the request's
     * fields are stored with the encoded password and role USER under a fresh id.
     */
    method RegisterUser(request: RegisterRequest, encode: string -> string) returns (r: Result<User, string>)
      requires Valid()
      modifies this
      ensures Valid()
      ensures UsernameIndex(old(users), request.username) < |old(users)| ==>
        r == Failure(USERNAME_TAKEN) && users == old(users) && nextId == old(nextId)
      ensures UsernameIndex(old(users), request.username) == |old(users)|
              && EmailIndex(old(users), request.email) < |old(users)| ==>
        r == Failure(EMAIL_TAKEN) && users == old(users) && nextId == old(nextId)
      ensures UsernameIndex(old(users), request.username) == |old(users)|
              && EmailIndex(old(users), request.email) == |old(users)| ==>
        && r == Success(UserRecord(old(nextId), request.username, request.email, encode(request.password),
                                   request.fullName, request.address, request.phoneNumber, Role.User))
        && users == old(users) + [r.value]
        && nextId == old(nextId) + 1
    {
      if UsernameIndex(users, request.username) < |users| {
        return Failure(USERNAME_TAKEN);
      }
      if EmailIndex(users, request.email) < |users| {
        return Failure(EMAIL_TAKEN);
      }
      var user := UserRecord(nextId, request.username, request.email, encode(request.password),
                             request.fullName, request.address, request.phoneNumber, Role.User);
      assert !HasKey(users, UserId, user.id);
      AppendFreshKeepsUnique(users, user, UserId);
      users := users + [user];
      nextId := nextId + 1;
      r := Success(user);
    }

    /** authenticateUser: the user with that username, provided `matches` accepts the password. */
    function AuthenticateUser(username: string, password: string, matches: (string, string) -> bool)
      : (r: Result<User, string>)
      reads this
      ensures r.Success? <==> UsernameIndex(users, username) < |users|
                              && matches(password, users[UsernameIndex(users, username)].password)
      ensures r.Success? ==> r.value == users[UsernameIndex(users, username)] && r.value.username == username
      ensures r.Failure? ==> r.error == INVALID_CREDENTIALS
    {
      var i := UsernameIndex(users, username);
      if i < |users| && matches(password, users[i].password) then Success(users[i])
      else Failure(INVALID_CREDENTIALS)
    }

    /** findByUsername. */
    function FindByUsername(username: string): (r: Result<User, string>)
      reads this
      ensures r.Success? <==> exists k :: 0 <= k < |users| && users[k].username == username
      ensures r.Success? ==> r.value.username == username && r.value in users
      ensures r.Failure? ==> r.error == USER_NOT_FOUND
    {
      var i := UsernameIndex(users, username);
      if i < |users| then Success(users[i]) else Failure(USER_NOT_FOUND)
    }

    /** findById. */
    function FindById(id: int): (r: Result<User, string>)
      reads this
      ensures r.Success? <==> HasKey(users, UserId, id)
      ensures r.Success? ==> r.value.id == id && r.value in users
      ensures r.Failure? ==> r.error == USER_NOT_FOUND
    {
      KeyIndexFinds(users, UserId, id);
      var i := KeyIndex(users, UserId, id);
      if i < |users| then Success(users[i]) else Failure(USER_NOT_FOUND)
    }

    /** deleteUser: deleteById drops the user with that id; an unknown id is ignored. */
    method DeleteUser(id: int)
      requires Valid()
      modifies this`users
      ensures Valid()
      ensures users == WithoutKey(old(users), UserId, id)
    {
      WithoutUniqueKey(users, UserId, id);
      WithoutKeyKeepsUnique(users, UserId, id);
      users := WithoutKey(users, UserId, id);
    }

    /**
     * updateUser: the stored user gets the full name, email, address and phone number of
     * `updated`; its id, username, password and role stay.
     */
    method UpdateUser(id: int, updated: User) returns (r: Result<User, string>)
      requires Valid()
      modifies this`users
      ensures Valid()
      ensures !HasKey(old(users), UserId, id) ==> r == Failure(USER_NOT_FOUND) && users == old(users)
      ensures HasKey(old(users), UserId, id) ==>
        && r.Success?
        && |users| == |old(users)|
        && users[KeyIndex(old(users), UserId, id)] == r.value
        && r.value == old(users)[KeyIndex(old(users), UserId, id)].(
             fullName := updated.fullName, email := updated.email,
             address := updated.address, phoneNumber := updated.phoneNumber)
        && forall k :: 0 <= k < |users| && k != KeyIndex(old(users), UserId, id) ==> users[k] == old(users)[k]
    {
      KeyIndexFinds(users, UserId, id);
      var i := KeyIndex(users, UserId, id);
      if i == |users| {
        return Failure(USER_NOT_FOUND);
      }
      var user := users[i];
      user := user.(fullName := updated.fullName);
      user := user.(email := updated.email);
      user := user.(address := updated.address);
      user := user.(phoneNumber := updated.phoneNumber);
      UpdateSameKeyKeepsUnique(users, i, user, UserId);
      users := users[i := user];
      r := Success(user);
    }
  }

  /** Under unique usernames, authentication succeeds exactly for a stored user with that name whose password matches. */
  lemma AuthenticateIff(service: UserService, username: string, password: string, matches: (string, string) -> bool)
    requires service.Valid()
    ensures service.AuthenticateUser(username, password, matches).Success?
      <==> exists k :: 0 <= k < |service.users| && service.users[k].username == username
                       && matches(password, service.users[k].password)
  {
    var users := service.users;
    if exists k :: 0 <= k < |users| && users[k].username == username && matches(password, users[k].password) {
      var k :| 0 <= k < |users| && users[k].username == username && matches(password, users[k].password);
      UsernameIndexUnique(users, username, k);
    }
  }
}
