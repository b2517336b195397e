/**
 * Accounts (backend/routes/auth.py over the users table of
 * backend/models.py): registration, login, logout and profile update.
 *
 * bcrypt is abstracted: the salted hash register stores is a parameter
 * (its salt is random), and checkpw is a function parameter. The only
 * thing assumed of them, where a property needs it, is that checkpw accepts
 * the password a hash was made from.
 * A JSON field is None when it is missing or null; a non-string value is
 * not modelled. Flask-Login's session is not modelled: the current user of
 * a request is a parameter.
 */
module Auth {
  import opened Wrappers

  type UserId = nat

  datatype User = User(id: UserId, phone: string, name: string, passwordHash: string, avatar: string,
                       isPrivate: bool, isOnline: bool)

  /** The user fields login and update_profile reply with. */
  datatype Profile = Profile(id: UserId, phone: string, name: string, avatar: string)

  function ProfileOf(u: User): Profile
  {
    Profile(u.id, u.phone, u.name, u.avatar)
  }

  /** A JSON request body: NoJson when absent, unreadable or null; `nonEmpty` when it has a key. */
  datatype RegisterBody = NoJson | Body(nonEmpty: bool, phone: Option<string>, name: Option<string>, password: Option<string>)

  datatype LoginBody = NoLoginJson | LoginJson(nonEmpty: bool, phone: Option<string>, password: Option<string>)

  /**
   * The update_profile body, which is read outside any `try`: UnreadableProfileJson
   * when it is missing, empty or malformed (Flask answers 400 itself), NoProfileJson
   * when it parses to JSON null or to something other than an object.
   */
  datatype ProfileBody = UnreadableProfileJson | NoProfileJson | ProfileJson(name: Option<string>)

  /** Python truthiness of a string field: present, not null and not empty. */
  predicate Given(f: Option<string>)
  {
    f.Some? && f.value != ""
  }

  /** The row a new registration gets: the defaults of the users table. */
  function NewUser(id: UserId, phone: string, name: string, hash: string): (u: User)
    ensures u.id == id && u.phone == phone && u.name == name && u.passwordHash == hash
    ensures !u.isOnline && u.isPrivate && u.avatar == "default.png"
  {
    User(id, phone, name, hash, "default.png", true, false)
  }

  /** filter_by(phone=phone).first(): the position of the first user with the phone. */
  function FindByPhone(users: seq<User>, phone: string): (r: Option<nat>)
    ensures r.Some? ==> r.value < |users| && users[r.value].phone == phone
    ensures r.Some? ==> forall j :: 0 <= j < r.value ==> users[j].phone != phone
    ensures r.None? <==> forall j :: 0 <= j < |users| ==> users[j].phone != phone
  {
    if users == [] then None
    else if users[0].phone == phone then Some(0)
    else
      var rest := FindByPhone(users[1..], phone);
      if rest.Some? then Some(rest.value + 1) else None
  }

  /** No two users share a phone (the column is unique). */
  predicate PhonesUnique(users: seq<User>)
  {
    forall i, j :: 0 <= i < j < |users| ==> users[i].phone != users[j].phone
  }

  /** The validation of register: a JSON object carrying a phone, a name and a password. */
  function RegisterFields(body: RegisterBody): (r: Result<(string, string, string), HttpError>)
    ensures r.Failure? <==> body.NoJson? || !body.nonEmpty || !Given(body.phone) || !Given(body.name) || !Given(body.password)
    ensures r.Success? ==> r.value == (body.phone.value, body.name.value, body.password.value)
    ensures r.Failure? && !body.NoJson? && body.nonEmpty ==>
      r.error == HttpError(400, "Phone, name, and password are required")
    ensures r.Failure? && (body.NoJson? || !body.nonEmpty) ==> r.error == HttpError(400, "Invalid JSON data")
  {
    if body.NoJson? || !body.nonEmpty then Failure(HttpError(400, "Invalid JSON data"))
    else if !(Given(body.phone) && Given(body.name) && Given(body.password)) then
      Failure(HttpError(400, "Phone, name, and password are required"))
    else Success((body.phone.value, body.name.value, body.password.value))
  }

  /** The validation of login: a JSON object carrying a phone and a password. */
  function LoginFields(body: LoginBody): (r: Result<(string, string), HttpError>)
    ensures r.Failure? <==> body.NoLoginJson? || !body.nonEmpty || !Given(body.phone) || !Given(body.password)
    ensures r.Success? ==> r.value == (body.phone.value, body.password.value)
    ensures r.Failure? && !body.NoLoginJson? && body.nonEmpty ==> r.error == HttpError(400, "Phone and password are required")
    ensures r.Failure? && (body.NoLoginJson? || !body.nonEmpty) ==> r.error == HttpError(400, "Invalid JSON data")
  {
    if body.NoLoginJson? || !body.nonEmpty then Failure(HttpError(400, "Invalid JSON data"))
    else if !(Given(body.phone) && Given(body.password)) then Failure(HttpError(400, "Phone and password are required"))
    else Success((body.phone.value, body.password.value))
  }

  /** Who a login with these credentials signs in as: the user with the phone, when checkpw accepts the password. */
  function Authenticate(users: seq<User>, phone: string, password: string, checkpw: (string, string) -> bool): (r: Option<nat>)
    ensures r.Some? <==> exists i :: 0 <= i < |users| && users[i].phone == phone && FindByPhone(users, phone) == Some(i)
                                                    && checkpw(password, users[i].passwordHash)
    ensures r.Some? ==> r.value < |users| && users[r.value].phone == phone
  {
    var i := FindByPhone(users, phone);
    if i.Some? && checkpw(password, users[i.value].passwordHash) then i else None
  }

  /** With phones unique, the only user with the phone signs in, and only with a password checkpw accepts. */
  lemma AuthenticateUnique(users: seq<User>, i: nat, password: string, checkpw: (string, string) -> bool)
    requires PhonesUnique(users) && i < |users|
    ensures Authenticate(users, users[i].phone, password, checkpw) == (if checkpw(password, users[i].passwordHash) then Some(i) else None)
  {
    assert FindByPhone(users, users[i].phone) == Some(i);
  }

  class UserTable {
    var users: seq<User>

    /** Ids are positions (autoincrement from 1) and phones are unique. */
    ghost predicate Valid()
      reads this
    {
      (forall i :: 0 <= i < |users| ==> users[i].id == i + 1) && PhonesUnique(users)
    }

    constructor()
      ensures Valid() && users == []
    {
      users := [];
    }

    /**
     * register: a new user is added, with the password stored as `hash`,
     * unless a field is missing, the phone is taken, or the commit fails.
     */
    method Register(body: RegisterBody, hash: string, commitOk: bool) returns (r: Result<string, HttpError>)
      requires Valid()
      modifies this`users
      ensures Valid()
      ensures RegisterFields(body).Failure? ==> r == Failure(RegisterFields(body).error) && users == old(users)
      ensures RegisterFields(body).Success? && FindByPhone(old(users), body.phone.value).Some? ==>
        r == Failure(HttpError(400, "Phone number already registered")) && users == old(users)
      ensures RegisterFields(body).Success? && FindByPhone(old(users), body.phone.value).None? && !commitOk ==>
        r == Failure(HttpError(500, "Registration failed")) && users == old(users)
      ensures r.Success? <==> RegisterFields(body).Success? && FindByPhone(old(users), body.phone.value).None? && commitOk
      ensures r.Success? ==>
        && r.value == "User registered successfully"
        && users == old(users) + [NewUser(|old(users)| + 1, body.phone.value, body.name.value, hash)]
    {
      var fields := RegisterFields(body);
      if fields.Failure? {
        return Failure(fields.error);
      }
      var (phone, name, _) := fields.value;
      if FindByPhone(users, phone).Some? {
        return Failure(HttpError(400, "Phone number already registered"));
      }
      if !commitOk {
        return Failure(HttpError(500, "Registration failed"));
      }
      users := users + [NewUser(|users| + 1, phone, name, hash)];
      r := Success("User registered successfully");
    }

    /**
     * login: with valid credentials the user is marked online and their
     * profile returned; wrong or unknown credentials give 401.
     */
    method Login(body: LoginBody, checkpw: (string, string) -> bool, commitOk: bool) returns (r: Result<Profile, HttpError>)
      requires Valid()
      modifies this`users
      ensures Valid()
      ensures LoginFields(body).Failure? ==> r == Failure(LoginFields(body).error) && users == old(users)
      ensures LoginFields(body).Success? ==>
        var (phone, password) := LoginFields(body).value;
        match Authenticate(old(users), phone, password, checkpw)
        case None => r == Failure(HttpError(401, "Invalid credentials")) && users == old(users)
        case Some(i) =>
          if commitOk then
            r == Success(ProfileOf(old(users)[i])) && users == old(users)[i := old(users)[i].(isOnline := true)]
          else r == Failure(HttpError(500, "Login failed")) && users == old(users)
    {
      var fields := LoginFields(body);
      if fields.Failure? {
        return Failure(fields.error);
      }
      var (phone, password) := fields.value;
      var i := Authenticate(users, phone, password, checkpw);
      if i.None? {
        return Failure(HttpError(401, "Invalid credentials"));
      }
      if !commitOk {
        return Failure(HttpError(500, "Login failed"));
      }
      r := Success(ProfileOf(users[i.value]));
      users := users[i.value := users[i.value].(isOnline := true)];
    }

    /** logout: the current user is marked offline, unless the commit fails. */
    method Logout(current: UserId, commitOk: bool) returns (r: Result<string, HttpError>)
      requires Valid() && 1 <= current <= |users|
      modifies this`users
      ensures Valid()
      ensures commitOk ==> r == Success("Logged out successfully") && users == old(users)[current - 1 := old(users)[current - 1].(isOnline := false)]
      ensures !commitOk ==> r == Failure(HttpError(500, "Logout failed")) && users == old(users)
    {
      if !commitOk {
        return Failure(HttpError(500, "Logout failed"));
      }
      users := users[current - 1 := users[current - 1].(isOnline := false)];
      r := Success("Logged out successfully");
    }

    /**
     * update_profile: a given name replaces the current user's name and
     * nothing else; no name gives 400. A body Flask cannot read gets its
     * 400; a body that is null or not an object makes `data.get` raise,
     * which Flask answers with 500.
     */
    method UpdateProfile(current: UserId, body: ProfileBody, commitOk: bool) returns (r: Result<Profile, HttpError>)
      requires Valid() && 1 <= current <= |users|
      modifies this`users
      ensures Valid()
      ensures body.UnreadableProfileJson? ==> r == Failure(HttpError(400, "Bad Request")) && users == old(users)
      ensures body.NoProfileJson? ==> r == Failure(HttpError(500, "Internal Server Error")) && users == old(users)
      ensures body.ProfileJson? && !Given(body.name) ==> r == Failure(HttpError(400, "Name is required")) && users == old(users)
      ensures body.ProfileJson? && Given(body.name) && !commitOk ==>
        r == Failure(HttpError(500, "Profile update failed")) && users == old(users)
      ensures r.Success? <==> body.ProfileJson? && Given(body.name) && commitOk
      ensures r.Success? ==>
        && users == old(users)[current - 1 := old(users)[current - 1].(name := body.name.value)]
        && r.value == ProfileOf(users[current - 1])
    {
      if body.UnreadableProfileJson? {
        return Failure(HttpError(400, "Bad Request"));
      }
      if body.NoProfileJson? {
        return Failure(HttpError(500, "Internal Server Error"));
      }
      if !Given(body.name) {
        return Failure(HttpError(400, "Name is required"));
      }
      if !commitOk {
        return Failure(HttpError(500, "Profile update failed"));
      }
      users := users[current - 1 := users[current - 1].(name := body.name.value)];
      r := Success(ProfileOf(users[current - 1]));
    }
  }

  /** A registration rejects exactly the phones already taken, so phones stay unique. */
  lemma {:induction false} RegisterKeepsPhonesUnique(users: seq<User>, phone: string, name: string, hash: string)
    requires PhonesUnique(users) && FindByPhone(users, phone).None?
    ensures PhonesUnique(users + [NewUser(|users| + 1, phone, name, hash)])
  {
    var grown := users + [NewUser(|users| + 1, phone, name, hash)];
    forall i, j | 0 <= i < j < |grown|
      ensures grown[i].phone != grown[j].phone
    {
      if j == |users| {
        assert grown[i] == users[i];
      }
    }
  }

  /** A registered user can log in with the password they registered, whenever checkpw accepts it for its hash. */
  lemma RegisteredUserCanLogIn(users: seq<User>, phone: string, name: string, password: string, hash: string,
                               checkpw: (string, string) -> bool)
    requires PhonesUnique(users) && FindByPhone(users, phone).None?
    requires checkpw(password, hash)
    ensures Authenticate(users + [NewUser(|users| + 1, phone, name, hash)], phone, password, checkpw) == Some(|users|)
  {
    RegisterKeepsPhonesUnique(users, phone, name, hash);
    AuthenticateUnique(users + [NewUser(|users| + 1, phone, name, hash)], |users|, password, checkpw);
  }
}
