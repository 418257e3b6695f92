/** The profile handlers of controllers/userController.js: reading the caller's
    profile, updating the fields the request supplies, and changing the password.
    bcrypt is a parameter: `compare` decides whether a password matches a stored
    hash, and the new hash arrives already computed (its salt is random). */
module Profile {
  import opened Store
  import opened Sql

  /** A user as the profile endpoints report it: no password hash, and the role
      under its frontend name. */
  datatype ProfileView = ProfileView(
    id: int,
    fullName: string,
    email: string,
    phone: Option<string>,
    address: Option<string>,
    role: string)

  function ProfileOf(id: int, u: User): (v: ProfileView)
    ensures v.role == FrontendRole(u.role)
  {
    ProfileView(id, u.fullName, u.email, u.phone, u.address, FrontendRole(u.role))
  }

  datatype ProfileReply = ProfileFound(view: ProfileView) | ProfileMissing

  /** getProfile: 404 when the caller's row is gone, otherwise the row as a profile. */
  function GetProfile(users: map<int, User>, id: int): (r: ProfileReply)
    ensures r.ProfileMissing? <==> id !in users
    ensures r.ProfileFound? ==> r.view.id == id && r.view.email == users[id].email && r.view.fullName == users[id].fullName
    ensures r.ProfileFound? ==> r.view.role == (if users[id].role == "customer" then "buyer" else users[id].role)
  {
    if id in users then ProfileFound(ProfileOf(id, users[id])) else ProfileMissing
  }

  /** `a || b` on optional strings: `a` when truthy, otherwise `b`. */
  function Or(a: Option<string>, b: Option<string>): (r: Option<string>)
    ensures Truthy(r) <==> Truthy(a) || Truthy(b)
    ensures Truthy(a) ==> r == a
    ensures !Truthy(a) ==> r == b
  {
    if Truthy(a) then a else b
  }

  /** The body of an update: both the camel-case and the snake-case spelling of the
      name and the phone are accepted; `None` is a field left out. */
  datatype ProfileInput = ProfileInput(
    fullName: Option<string>,
    full_name: Option<string>,
    phone: Option<string>,
    phone_number: Option<string>,
    address: Option<string>)

  /** The name and phone the update uses: the camel-case field when truthy, else the snake-case one. */
  function FinalName(input: ProfileInput): Option<string> { Or(input.fullName, input.full_name) }
  function FinalPhone(input: ProfileInput): Option<string> { Or(input.phone, input.phone_number) }

  /** True when the update writes nothing. */
  predicate NoProfileFields(input: ProfileInput)
  {
    !Truthy(FinalName(input)) && !Truthy(FinalPhone(input)) && input.address.None?
  }

  /** The user row after the update: name and phone only when truthy, the address whenever given. */
  function ApplyProfile(u: User, input: ProfileInput): User
  {
    u.(fullName := if Truthy(FinalName(input)) then FinalName(input).value else u.fullName,
       phone := if Truthy(FinalPhone(input)) then FinalPhone(input) else u.phone,
       address := if input.address.Some? then input.address else u.address)
  }

  /** The update touches only the name, phone and address: identity, role, password and
      reset token are kept; applying it twice is applying it once; with no field it is
      no change. */
  lemma ProfileUpdateScope(u: User, input: ProfileInput)
    ensures var v := ApplyProfile(u, input);
      v.email == u.email && v.role == u.role && v.passwordHash == u.passwordHash &&
      v.resetToken == u.resetToken && v.resetExpires == u.resetExpires
    ensures ApplyProfile(ApplyProfile(u, input), input) == ApplyProfile(u, input)
    ensures NoProfileFields(input) ==> ApplyProfile(u, input) == u
  {
  }

  /** The `updates`/`values` pushes of updateProfile: one `column = ?` per supplied
      field, in the order name, phone, address, with the value it binds. */
  method ProfileUpdates(input: ProfileInput) returns (columns: seq<string>, values: seq<Param>)
    ensures |values| == |columns|
    ensures "full_name" in columns <==> Truthy(FinalName(input))
    ensures "phone_number" in columns <==> Truthy(FinalPhone(input))
    ensures "address" in columns <==> input.address.Some?
    ensures columns == [] <==> NoProfileFields(input)
  {
    var name := FinalName(input);
    var phone := FinalPhone(input);
    columns, values := [], [];
    if Truthy(name) {
      columns, values := columns + ["full_name"], values + [Str(name.value)];
    }
    if Truthy(phone) {
      columns, values := columns + ["phone_number"], values + [Str(phone.value)];
    }
    if input.address.Some? {
      columns, values := columns + ["address"], values + [Str(input.address.value)];
    }
  }

  /** updateProfile: 400 and no write when the request supplies no field; otherwise one
      `UPDATE users` whose placeholders match its values (the caller's id last), then
      the updated row is read back. When the caller's row is gone the update matches
      nothing and reading `users[0]` fails, which the handler reports as 500. */
  method UpdateProfile(db: Database, id: int, input: ProfileInput)
    returns (code: int, columns: seq<string>, query: seq<Tok>, values: seq<Param>, view: Option<ProfileView>)
    requires db.Valid()
    modifies db
    ensures db.Valid()
    ensures code == 400 <==> NoProfileFields(input)
    ensures code != 400 ==> Holes(query) == |values| && |values| == |columns| + 1 && values[|columns|] == Int(id)
    ensures code != 400 ==> ("full_name" in columns <==> Truthy(FinalName(input))) &&
                            ("phone_number" in columns <==> Truthy(FinalPhone(input))) &&
                            ("address" in columns <==> input.address.Some?)
    ensures code != 400 && id !in old(db.users) ==> code == 500 && view.None?
    ensures code != 400 && id in old(db.users) ==>
      code == 200 && db.users == old(db.users)[id := ApplyProfile(old(db.users)[id], input)] &&
      view == Some(ProfileOf(id, db.users[id]))
    ensures code != 200 ==> unchanged(db)
    ensures db.Content() == old(db.Content()).(users := db.users)
  {
    columns, values := ProfileUpdates(input);
    if columns == [] {
      return 400, [], [], [], None;
    }
    values := values + [Int(id)];
    query := UpdateStatement("users", columns, "user_id");
    if id !in db.users {
      return 500, columns, query, values, None;
    }
    db.users := db.users[id := ApplyProfile(db.users[id], input)];
    view := Some(ProfileOf(id, db.users[id]));
    code := 200;
  }

  /** bcrypt.compare: whether a plain password matches a stored hash. */
  type PasswordCheck = (string, string) -> bool

  /** changePassword: 400 unless both passwords are given; 401 when the old password
      does not match the stored hash; otherwise only the caller's hash is replaced.
      A missing row makes reading `users[0]` fail, reported as 500. */
  method ChangePassword(db: Database, id: int, oldPassword: Option<string>, newPassword: Option<string>,
                        compare: PasswordCheck, newHash: string) returns (code: int)
    requires db.Valid()
    modifies db
    ensures db.Valid()
    ensures code == 400 <==> !Truthy(oldPassword) || !Truthy(newPassword)
    ensures code != 400 && id !in old(db.users) ==> code == 500
    ensures code != 400 && id in old(db.users) ==>
      (code == 401 <==> !compare(oldPassword.value, old(db.users)[id].passwordHash))
    ensures code == 200 <==>
      Truthy(oldPassword) && Truthy(newPassword) && id in old(db.users) && compare(oldPassword.value, old(db.users)[id].passwordHash)
    ensures code == 200 ==> db.Content() == old(db.Content()).(users := old(db.users)[id := old(db.users)[id].(passwordHash := newHash)])
    ensures code != 200 ==> unchanged(db)
  {
    if !Truthy(oldPassword) || !Truthy(newPassword) {
      return 400;
    }
    if id !in db.users {
      return 500;
    }
    if !compare(oldPassword.value, db.users[id].passwordHash) {
      return 401;
    }
    db.users := db.users[id := db.users[id].(passwordHash := newHash)];
    return 200;
  }
}
