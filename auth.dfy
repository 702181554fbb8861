/**
 * frontend/js/auth.js: the mock login against MOCK_USERS, registration's validation chain
 * and append, the page guards, and logout. The three localStorage entries the module uses
 * (token, user data, cart) are fields of the Session object.
 */
module Auth {
  import opened Wrappers
  import opened MockData
  import Config
  import opened Text

  const INVALID_LOGIN: string := "Invalid username or password"
  const SHORT_USERNAME: string := "Username must be at least 3 characters long"
  const BAD_EMAIL: string := "Please enter a valid email address"
  const BAD_PHONE: string := "Please enter a valid 10-digit phone number"
  const SHORT_PASSWORD: string := "Password must be at least 6 characters long"
  const PASSWORD_MISMATCH: string := "Passwords do not match"
  const USER_EXISTS: string := "User with this username, email, or phone already exists"
  const REGISTERED: string := "Registration successful! You can now login with your credentials."

  /** The user object login returns. */
  datatype Account = Account(id: int, username: string, email: string, role: string)

  /** The object login saves under the user-data key. */
  datatype StoredUser = StoredUser(id: int, username: string, email: string, role: string, phone: string)

  /** login's find: the name may be the username or the email, and the password must be equal. */
  predicate Matches(u: MockUser, name: string, password: string)
  {
    (u.username == name || u.email == name) && u.password == password
  }

  /** Position of the first user Matches accepts, or |users|. */
  function MatchIndex(users: seq<MockUser>, name: string, password: string): (i: nat)
    ensures i <= |users|
    ensures i < |users| ==> Matches(users[i], name, password)
    ensures forall k :: 0 <= k < i ==> !Matches(users[k], name, password)
  {
    if users == [] then 0
    else if Matches(users[0], name, password) then 0
    else 1 + MatchIndex(users[1..], name, password)
  }

  function AccountOf(u: MockUser): Account
  {
    Account(u.id, u.username, u.email, u.role)
  }

  /**
   * Auth.login's outcome: it succeeds exactly when some user matches, and then carries the
   * first matching user's id, username, email and role.
   */
  function LoginOutcome(users: seq<MockUser>, name: string, password: string): (r: Result<Account, string>)
    ensures r.Success? <==> exists k :: 0 <= k < |users| && Matches(users[k], name, password)
    ensures r.Failure? ==> r.error == INVALID_LOGIN
    ensures r.Success? ==>
      exists k :: 0 <= k < |users| && Matches(users[k], name, password) && r.value == AccountOf(users[k])
  {
    var i := MatchIndex(users, name, password);
    if i < |users| then Success(AccountOf(users[i])) else Failure(INVALID_LOGIN)
  }

  /** The register form's fields. */
  datatype RegisterForm = RegisterForm(
    username: string, email: string, password: string, confirmPassword: string, phone: string)

  /** register's duplicate test: the user has the form's username, email or phone. */
  predicate Clashes(u: MockUser, form: RegisterForm)
  {
    u.username == form.username || u.email == form.email || u.phone == form.phone
  }

  /** Position of the first user that clashes with the form, or |users|. */
  function ClashIndex(users: seq<MockUser>, form: RegisterForm): (i: nat)
    ensures i <= |users|
    ensures i < |users| ==> Clashes(users[i], form)
    ensures forall k :: 0 <= k < i ==> !Clashes(users[k], form)
  {
    if users == [] then 0
    else if Clashes(users[0], form) then 0
    else 1 + ClashIndex(users[1..], form)
  }

  /** Everything registration demands, stated as one conjunction. */
  ghost predicate Acceptable(users: seq<MockUser>, form: RegisterForm)
  {
    && Utf16Length(form.username) >= 3
    && Config.IsValidEmail(form.email)
    && Config.IsValidPhone(form.phone)
    && Utf16Length(form.password) >= 6
    && form.password == form.confirmPassword
    && forall k :: 0 <= k < |users| ==> !Clashes(users[k], form)
  }

  /**
   * Auth.register's validations, in order (the two length checks count UTF-16 code units, as
   * `.length` does): the message of the first check that fails, or
   * None when the form is acceptable. Each message is reported exactly when its check fails
   * and every earlier check passes.
   */
  function RegisterError(users: seq<MockUser>, form: RegisterForm): (r: Option<string>)
    ensures r.None? <==> Acceptable(users, form)
    ensures r == Some(SHORT_USERNAME) <==> Utf16Length(form.username) < 3
    ensures r == Some(BAD_EMAIL) <==> Utf16Length(form.username) >= 3 && !Config.IsValidEmail(form.email)
    ensures r == Some(BAD_PHONE) <==>
      Utf16Length(form.username) >= 3 && Config.IsValidEmail(form.email) && !Config.IsValidPhone(form.phone)
    ensures r == Some(SHORT_PASSWORD) <==>
      && Utf16Length(form.username) >= 3 && Config.IsValidEmail(form.email) && Config.IsValidPhone(form.phone)
      && Utf16Length(form.password) < 6
    ensures r == Some(PASSWORD_MISMATCH) <==>
      && Utf16Length(form.username) >= 3 && Config.IsValidEmail(form.email) && Config.IsValidPhone(form.phone)
      && Utf16Length(form.password) >= 6 && form.password != form.confirmPassword
    ensures r == Some(USER_EXISTS) <==>
      && Utf16Length(form.username) >= 3 && Config.IsValidEmail(form.email) && Config.IsValidPhone(form.phone)
      && Utf16Length(form.password) >= 6 && form.password == form.confirmPassword
      && exists k :: 0 <= k < |users| && Clashes(users[k], form)
  {
    if Utf16Length(form.username) < 3 then Some(SHORT_USERNAME)
    else if !Config.IsValidEmail(form.email) then Some(BAD_EMAIL)
    else if !Config.IsValidPhone(form.phone) then Some(BAD_PHONE)
    else if Utf16Length(form.password) < 6 then Some(SHORT_PASSWORD)
    else if form.password != form.confirmPassword then Some(PASSWORD_MISMATCH)
    else if ClashIndex(users, form) < |users| then Some(USER_EXISTS)
    else None
  }

  /**
   * A username of two astral characters, such as two emoji, has `.length` 4 and passes the
   * length check, although it is only two characters long.
   */
  lemma AstralUsernameLongEnough(users: seq<MockUser>, form: RegisterForm)
    requires form.username == "\U{1F600}\U{1F600}"
    ensures |form.username| == 2 && Utf16Length(form.username) == 4
    ensures RegisterError(users, form) != Some(SHORT_USERNAME)
  {
    assert IsAstral(form.username[0]) && form.username[1..] == "\U{1F600}";
  }

  /** The user register appends: the next id, the form's fields and role USER. */
  function NewUser(users: seq<MockUser>, form: RegisterForm): (u: MockUser)
    ensures u.id == |users| + 1 && u.role == Config.ROLE_USER
    ensures u.username == form.username && u.email == form.email
    ensures u.password == form.password && u.phone == form.phone
  {
    MockUser(|users| + 1, form.username, form.email, form.password, Config.ROLE_USER, form.phone)
  }

  /** Two users share a username, an email or a phone. */
  predicate ShareCredential(a: MockUser, b: MockUser)
  {
    a.username == b.username || a.email == b.email || a.phone == b.phone
  }

  /** Ids are 1, 2, 3, ... and no two users share a username, an email or a phone. */
  ghost predicate WellFormed(users: seq<MockUser>)
  {
    && (forall k :: 0 <= k < |users| ==> users[k].id == k + 1)
    && (forall i, j :: 0 <= i < j < |users| ==> !ShareCredential(users[i], users[j]))
  }

  lemma MockUsersWellFormed()
    ensures WellFormed(MOCK_USERS)
  {
    assert !ShareCredential(MOCK_USERS[0], MOCK_USERS[1]);
  }

  /** An accepted registration keeps ids sequential and credentials distinct. */
  lemma RegisterKeepsWellFormed(users: seq<MockUser>, form: RegisterForm)
    requires WellFormed(users) && Acceptable(users, form)
    ensures WellFormed(users + [NewUser(users, form)])
  {
    var r := users + [NewUser(users, form)];
    forall i, j | 0 <= i < j < |r| ensures !ShareCredential(r[i], r[j]) {
      if j == |users| {
        assert !Clashes(users[i], form);
      } else {
        assert r[i] == users[i] && r[j] == users[j];
      }
    }
  }

  /**
   * A user just registered can log in with the username, or the email, and the password.
   * The account returned is the new one unless an earlier user matches the same credentials.
   */
  lemma RegisteredUserCanLogin(users: seq<MockUser>, form: RegisterForm)
    ensures LoginOutcome(users + [NewUser(users, form)], form.username, form.password).Success?
    ensures LoginOutcome(users + [NewUser(users, form)], form.email, form.password).Success?
    ensures (forall k :: 0 <= k < |users| ==> !Matches(users[k], form.username, form.password)) ==>
      LoginOutcome(users + [NewUser(users, form)], form.username, form.password)
        == Success(AccountOf(NewUser(users, form)))
    ensures (forall k :: 0 <= k < |users| ==> !Matches(users[k], form.email, form.password)) ==>
      LoginOutcome(users + [NewUser(users, form)], form.email, form.password)
        == Success(AccountOf(NewUser(users, form)))
  {
    var r := users + [NewUser(users, form)];
    assert Matches(r[|users|], form.username, form.password);
    assert Matches(r[|users|], form.email, form.password);
    assert forall k :: 0 <= k < |users| ==> r[k] == users[k];
  }

  /** "x@y.io" is a valid email. */
  lemma SampleEmailValid()
    ensures Config.IsValidEmail("x@y.io")
  {
    var e := "x@y.io";
    assert e[1] == '@' && e[3] == '.';
    assert e[..1] == "x" && e[2..3] == "y" && e[4..] == "io";
    assert Config.EmailRun(e[..1]) && Config.EmailRun(e[2..3]) && Config.EmailRun(e[4..]);
  }

  /**
   * The duplicate test never compares a username with an email, so a user may register with
   * another user's email as username. Login by that name and the other user's password then
   * reaches the earlier account: here the admin's.
   */
  lemma EmailAsUsernameReachesEarlierUser(form: RegisterForm)
    requires form == RegisterForm("admin@canteen.com", "x@y.io", "admin123", "admin123", "9000000000")
    ensures RegisterError(MOCK_USERS, form).None?
    ensures LoginOutcome(MOCK_USERS + [NewUser(MOCK_USERS, form)], form.username, form.password)
      == Success(AccountOf(MOCK_USERS[0]))
  {
    SampleFormAccepted(form);
    var r := MOCK_USERS + [NewUser(MOCK_USERS, form)];
    assert r[0] == MOCK_USERS[0];
    assert Matches(r[0], form.username, form.password);
  }

  /** The form registering "admin@canteen.com" as a username passes every check against MOCK_USERS. */
  lemma SampleFormAccepted(form: RegisterForm)
    requires form == RegisterForm("admin@canteen.com", "x@y.io", "admin123", "admin123", "9000000000")
    ensures Acceptable(MOCK_USERS, form)
  {
    SampleEmailValid();
    assert |form.username| == 17 && |form.password| == 8;
    assert Config.IsValidPhone(form.phone);
    forall k | 0 <= k < |MOCK_USERS| ensures !Clashes(MOCK_USERS[k], form) {
      assert k == 0 || k == 1;
    }
  }

  /** isAuthenticated, `!!token`: a token is stored and is not the empty string. */
  predicate HasToken(token: Option<string>)
  {
    token.Some? && token.value != ""
  }

  /**
   * checkUserAuthentication: a token is required, and a stored user must have role USER;
   * with a token and no stored user the page is shown.
   */
  function UserPageAllowed(token: Option<string>, user: Option<StoredUser>): (ok: bool)
    ensures ok ==> HasToken(token)
    ensures HasToken(token) && user.None? ==> ok
    ensures user.Some? ==> (ok <==> HasToken(token) && user.value.role == Config.ROLE_USER)
  {
    if !HasToken(token) then false
    else if user.Some? && user.value.role != Config.ROLE_USER then false
    else true
  }

  /** checkAdminAuthentication: a token and a stored user whose role is ADMIN. */
  function AdminPageAllowed(token: Option<string>, user: Option<StoredUser>): (ok: bool)
    ensures ok <==> HasToken(token) && user.Some? && user.value.role == Config.ROLE_ADMIN
  {
    if !HasToken(token) then false
    else if user.None? || user.value.role != Config.ROLE_ADMIN then false
    else true
  }

  /** No stored user opens both kinds of page; only a missing user record opens the user page without a role. */
  lemma GuardsExclusive(token: Option<string>, user: Option<StoredUser>)
    ensures !(UserPageAllowed(token, user) && AdminPageAllowed(token, user))
    ensures UserPageAllowed(token, user) ==> user.None? || user.value.role == Config.ROLE_USER
  {
  }

  /** The registered users and the three localStorage entries auth.js reads and writes. */
  class Session {
    var users: seq<MockUser>
    var token: Option<string>
    var userData: Option<StoredUser>
    var cartData: Option<seq<CartLine>>

    ghost predicate Valid()
      reads this
    {
      WellFormed(users)
    }

    constructor (token: Option<string>, userData: Option<StoredUser>, cartData: Option<seq<CartLine>>)
      ensures Valid()
      ensures users == MOCK_USERS
      ensures this.token == token && this.userData == userData && this.cartData == cartData
    {
      users := MOCK_USERS;
      this.token := token;
      this.userData := userData;
      this.cartData := cartData;
      MockUsersWellFormed();
    }

    function IsAuthenticated(): (ok: bool)
      reads this
      ensures ok <==> token.Some? && token.value != ""
    {
      HasToken(token)
    }

    /**
     * Auth.login. On success the generated token (a parameter here) and the user's record
     * are stored; on failure nothing changes. The users are never changed.
     */
    method Login(name: string, password: string, freshToken: string) returns (r: Result<Account, string>)
      modifies this`token, this`userData
      ensures r == LoginOutcome(users, name, password)
      ensures r.Success? ==> token == Some(freshToken)
      ensures r.Success? ==>
        && userData.Some? && userData.value.id == r.value.id && userData.value.username == r.value.username
        && userData.value.email == r.value.email && userData.value.role == r.value.role
      ensures r.Success? ==>
        MatchIndex(users, name, password) < |users|
        && userData.value.phone == users[MatchIndex(users, name, password)].phone
      ensures r.Failure? ==> token == old(token) && userData == old(userData)
    {
      var i := MatchIndex(users, name, password);
      if i == |users| {
        return Failure(INVALID_LOGIN);
      }
      var u := users[i];
      token := Some(freshToken);
      userData := Some(StoredUser(u.id, u.username, u.email, u.role, u.phone));
      r := Success(AccountOf(u));
    }

    /**
     * Auth.register: the first failing validation's message and no change, or one new user
     * with the next id and role USER appended.
     */
    method Register(form: RegisterForm) returns (r: Result<string, string>)
      modifies this`users
      ensures RegisterError(old(users), form).Some? ==>
        r == Failure(RegisterError(old(users), form).value) && users == old(users)
      ensures RegisterError(old(users), form).None? ==>
        r == Success(REGISTERED) && users == old(users) + [NewUser(old(users), form)]
      ensures old(Valid()) ==> Valid()
    {
      var error := RegisterError(users, form);
      if error.Some? {
        return Failure(error.value);
      }
      if WellFormed(users) {
        RegisterKeepsWellFormed(users, form);
      }
      users := users + [NewUser(users, form)];
      r := Success(REGISTERED);
    }

    /** Auth.logout: the token, user-data and cart entries are removed; the users stay. */
    method Logout()
      modifies this`token, this`userData, this`cartData
      ensures token.None? && userData.None? && cartData.None?
      ensures !IsAuthenticated()
    {
      token := None;
      userData := None;
      cartData := None;
    }
  }
}
