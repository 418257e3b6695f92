/** The account handlers of controllers/authController.js: registration, login, and
    the reset-password token. bcrypt, the random token and the clock are inputs:
    `compare` checks a password against a stored hash, `passwordHash` is the hash of
    the submitted password, `token` is the random token and `now` is the time in
    milliseconds (the database's `NOW()` for the expiry check). */
module Accounts {
  import opened Store
  import Profile

  /** The role stored for a registration: 'buyer' and a missing role become
      'customer', any other role is stored as given. */
  function StoredRole(role: Option<string>): (r: string)
    ensures role == Some("buyer") || !Truthy(role) ==> r == "customer"
    ensures role != Some("buyer") && Truthy(role) ==> r == role.value
  {
    if role == Some("buyer") then "customer" else if Truthy(role) then role.value else "customer"
  }

  /** Registering and then reading the role back: 'buyer' (or no role, or 'customer')
      reads as 'buyer', any other role reads as itself. */
  lemma RoleRoundTrip(role: Option<string>)
    ensures FrontendRole(StoredRole(role)) ==
      (if !Truthy(role) || role.value == "buyer" || role.value == "customer" then "buyer" else role.value)
    ensures FrontendRole(StoredRole(Some("buyer"))) == "buyer" && FrontendRole(StoredRole(Some("seller"))) == "seller"
  {
  }

  predicate EmailTaken(users: map<int, User>, email: string)
  {
    exists k :: k in users && users[k].email == email
  }

  /** No two users share an email: what register's duplicate check keeps. */
  predicate EmailsDistinct(users: map<int, User>)
  {
    forall j, k :: j in users && k in users && users[j].email == users[k].email ==> j == k
  }

  const MissingFieldsMessage := "Vui lòng điền đầy đủ thông tin bắt buộc."
  const EmailInUseMessage := "Email đã được sử dụng."

  datatype RegisterReply =
    | Registered(id: int, user: Profile.ProfileView)
    | RegisterRefused(message: string)

  /** register: 400 unless name, email and password are all truthy, 400 for an email
      already in use; otherwise one new user row under a fresh id, the role stored by
      StoredRole and reported by FrontendRole (201). */
  method Register(db: Database, fullName: Option<string>, email: Option<string>, password: Option<string>,
                  phone: Option<string>, address: Option<string>, role: Option<string>, passwordHash: string)
    returns (r: RegisterReply)
    requires db.Valid()
    modifies db
    ensures db.Valid()
    ensures !Truthy(fullName) || !Truthy(email) || !Truthy(password) ==> r == RegisterRefused(MissingFieldsMessage)
    ensures Truthy(fullName) && Truthy(email) && Truthy(password) && EmailTaken(old(db.users), email.value) ==>
      r == RegisterRefused(EmailInUseMessage)
    ensures r.RegisterRefused? ==> unchanged(db)
    ensures r.Registered? <==> Truthy(fullName) && Truthy(email) && Truthy(password) && !EmailTaken(old(db.users), email.value)
    ensures r.Registered? ==>
      r.id !in old(db.users) && r.user.role == FrontendRole(StoredRole(role)) &&
      db.Content() == old(db.Content()).(users := old(db.users)[r.id := User(fullName.value, email.value, passwordHash,
        if Truthy(phone) then phone else None, if Truthy(address) then address else None, StoredRole(role), None, None)])
    ensures EmailsDistinct(old(db.users)) ==> EmailsDistinct(db.users)
  {
    if !Truthy(fullName) || !Truthy(email) || !Truthy(password) {
      return RegisterRefused(MissingFieldsMessage);
    }
    if EmailTaken(db.users, email.value) {
      return RegisterRefused(EmailInUseMessage);
    }
    var id := db.nextUserId;
    var stored := StoredRole(role);
    db.users := db.users[id := User(fullName.value, email.value, passwordHash,
      if Truthy(phone) then phone else None, if Truthy(address) then address else None, stored, None, None)];
    db.nextUserId := db.nextUserId + 1;
    r := Registered(id, Profile.ProfileView(id, fullName.value, email.value, phone, address, FrontendRole(stored)));
  }

  const MissingLoginMessage := "Vui lòng điền email và mật khẩu."
  const BadCredentialsMessage := "Email hoặc mật khẩu không đúng."

  datatype LoginReply =
    | LoggedIn(id: int, user: Profile.ProfileView)
    | LoginRefused(status: int, message: string)

  /** login: 400 when email or password is missing; one and the same 401 reply for an
      unknown email and for a wrong password; otherwise the matching user, role in its
      frontend form. Nothing is written. */
  method Login(db: Database, email: Option<string>, password: Option<string>, compare: Profile.PasswordCheck)
    returns (r: LoginReply)
    ensures !Truthy(email) || !Truthy(password) ==> r == LoginRefused(400, MissingLoginMessage)
    ensures Truthy(email) && Truthy(password) && !EmailTaken(db.users, email.value) ==>
      r == LoginRefused(401, BadCredentialsMessage)
    ensures r.LoginRefused? && r.status != 400 ==> r == LoginRefused(401, BadCredentialsMessage)
    ensures r.LoggedIn? ==>
      Truthy(email) && Truthy(password) && r.id in db.users && db.users[r.id].email == email.value &&
      compare(password.value, db.users[r.id].passwordHash) && r.user == Profile.ProfileOf(r.id, db.users[r.id])
    ensures Truthy(email) && Truthy(password) && EmailsDistinct(db.users) ==>
      (r.LoggedIn? <==> exists k :: k in db.users && db.users[k].email == email.value && compare(password.value, db.users[k].passwordHash))
  {
    if !Truthy(email) || !Truthy(password) {
      return LoginRefused(400, MissingLoginMessage);
    }
    if !EmailTaken(db.users, email.value) {
      return LoginRefused(401, BadCredentialsMessage);
    }
    var id :| id in db.users && db.users[id].email == email.value;
    if !compare(password.value, db.users[id].passwordHash) {
      return LoginRefused(401, BadCredentialsMessage);
    }
    r := LoggedIn(id, Profile.ProfileOf(id, db.users[id]));
  }

  /** How long a reset token lives: one hour, in milliseconds. */
  const ResetLifetime := 3600000

  /** forgotPassword's write: every user with this email gets the token and its expiry;
      no one else changes. */
  function WithResetToken(users: map<int, User>, email: string, token: string, expires: int): (r: map<int, User>)
    ensures r.Keys == users.Keys
    ensures forall k :: k in users && users[k].email == email ==>
      r[k] == users[k].(resetToken := Some(token), resetExpires := Some(expires))
    ensures forall k :: k in users && users[k].email != email ==> r[k] == users[k]
  {
    map k | k in users :: if users[k].email == email then users[k].(resetToken := Some(token), resetExpires := Some(expires)) else users[k]
  }

  /** forgotPassword: 404 for an unknown (or missing) email; otherwise every row with
      that email gets the token, valid until now + one hour, and the token is returned. */
  method ForgotPassword(db: Database, email: Option<string>, token: string, now: int) returns (code: int, resetToken: Option<string>)
    requires db.Valid()
    modifies db
    ensures db.Valid()
    ensures code == 404 <==> email.None? || !EmailTaken(old(db.users), email.value)
    ensures code == 404 ==> resetToken.None? && unchanged(db)
    ensures code != 404 ==>
      code == 200 && resetToken == Some(token) &&
      db.Content() == old(db.Content()).(users := WithResetToken(old(db.users), email.value, token, now + ResetLifetime))
  {
    if email.None? || !EmailTaken(db.users, email.value) {
      return 404, None;
    }
    db.users := WithResetToken(db.users, email.value, token, now + ResetLifetime);
    return 200, Some(token);
  }

  /** True when user `k` holds `token` and it has not expired at time `now`. */
  predicate HoldsValidToken(users: map<int, User>, k: int, token: string, now: int)
    requires k in users
  {
    users[k].resetToken == Some(token) && users[k].resetExpires.Some? && users[k].resetExpires.value > now
  }

  predicate TokenValid(users: map<int, User>, token: string, now: int)
  {
    exists k :: k in users && HoldsValidToken(users, k, token, now)
  }

  /** At most one user holds `token`. */
  predicate SingleHolder(users: map<int, User>, token: string)
  {
    forall j, k :: j in users && k in users && users[j].resetToken == Some(token) && users[k].resetToken == Some(token) ==> j == k
  }

  const BadTokenMessage := "Token không hợp lệ hoặc đã hết hạn."

  /** resetPassword: 400 unless some user holds the token unexpired. A request without
      a new password then fails in `bcrypt.hash`, which the handler reports as 500 with
      nothing written and the token still valid. Otherwise that user's hash is replaced
      and token and expiry are cleared, so the token cannot be used again; `newHash` is
      the hash bcrypt makes of the new password. */
  method ResetPassword(db: Database, token: Option<string>, newPassword: Option<string>, newHash: string, now: int)
    returns (code: int, id: Option<int>)
    requires db.Valid()
    modifies db
    ensures db.Valid()
    ensures code == 400 <==> token.None? || !TokenValid(old(db.users), token.value, now)
    ensures code == 400 ==> id.None? && unchanged(db)
    ensures code != 400 && newPassword.None? ==> code == 500 && id.None? && unchanged(db)
    ensures code != 400 && newPassword.Some? ==>
      code == 200 && id.Some? && id.value in old(db.users) && HoldsValidToken(old(db.users), id.value, token.value, now) &&
      db.Content() == old(db.Content()).(users := old(db.users)[id.value :=
        old(db.users)[id.value].(passwordHash := newHash, resetToken := None, resetExpires := None)])
    ensures code == 200 && SingleHolder(old(db.users), token.value) ==>
      forall later :: !TokenValid(db.users, token.value, later)
  {
    if token.None? || !TokenValid(db.users, token.value, now) {
      return 400, None;
    }
    if newPassword.None? {
      return 500, None;
    }
    var k :| k in db.users && HoldsValidToken(db.users, k, token.value, now);
    db.users := db.users[k := db.users[k].(passwordHash := newHash, resetToken := None, resetExpires := None)];
    return 200, Some(k);
  }
}
