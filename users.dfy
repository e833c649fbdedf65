/** The user registry of the example application (app/v1/user.py): sign-up
    stores a record under the user's name with the next number; login checks
    the stored password and hands out a token for the name. Token signing is
    not modelled: a token only records whose it is. */
module Users {
  import opened Common
  import opened Exceptions

  /** A stored user: name, password and number. */
  datatype User = User(name: string, password: string, uid: int)

  /** A login token, standing for the signed `{'name': ...}` payload. */
  datatype Token = TokenFor(name: string)

  /** Sign-up: both fields must be non-empty, the name must be free; the new
      record gets number `count + 1` and is the only entry added. */
  function Registering(users: map<string, User>, name: string, pwd: string): (r: Result<map<string, User>, ExcInstance>)
    ensures name == "" || pwd == "" ==> r == Err(AppInit(LackOfInfoClass, PNone, PNone))
    ensures name != "" && pwd != "" && name in users ==> r == Err(AppInit(UserAlreadyExistClass, PNone, PNone))
    ensures r.Ok? <==> name != "" && pwd != "" && name !in users
    ensures r.Ok? ==> r.value == users[name := User(name, pwd, |users| + 1)]
    ensures r.Ok? ==> |r.value| == |users| + 1
  {
    if name == "" || pwd == "" then Err(AppInit(LackOfInfoClass, PNone, PNone))
    else if name in users then Err(AppInit(UserAlreadyExistClass, PNone, PNone))
    else Ok(users[name := User(name, pwd, |users| + 1)])
  }

  /** Login: both fields must be non-empty, the name must be known, and the
      password must match the stored one; then a token for that name. */
  function LoginResult(users: map<string, User>, name: string, pwd: string): (r: Result<Token, ExcInstance>)
    ensures name == "" || pwd == "" ==> r == Err(AppInit(LackOfInfoClass, PNone, PNone))
    ensures name != "" && pwd != "" && name !in users ==> r == Err(AppInit(NotFoundClass, PStr("不存在该用户，请先注册"), PNone))
    ensures name != "" && pwd != "" && name in users && users[name].password != pwd ==> r == Err(AppInit(PwdErrorClass, PNone, PNone))
    ensures r.Ok? <==> name != "" && pwd != "" && name in users && users[name].password == pwd
    ensures r.Ok? ==> r.value == TokenFor(name)
  {
    if name == "" || pwd == "" then Err(AppInit(LackOfInfoClass, PNone, PNone))
    else if name !in users then Err(AppInit(NotFoundClass, PStr("不存在该用户，请先注册"), PNone))
    else if pwd != users[name].password then Err(AppInit(PwdErrorClass, PNone, PNone))
    else Ok(TokenFor(name))
  }

  /** Signing up and then logging in with the same name and password yields a
      token for that name; any other password is refused. */
  lemma RegisterThenLogin(users: map<string, User>, name: string, pwd: string, other: string)
    requires Registering(users, name, pwd).Ok?
    ensures LoginResult(Registering(users, name, pwd).value, name, pwd) == Ok(TokenFor(name))
    ensures other != "" && other != pwd ==>
      LoginResult(Registering(users, name, pwd).value, name, other) == Err(AppInit(PwdErrorClass, PNone, PNone))
  {
  }

  /** The numbering invariant: each record is stored under its own name, and
      the numbers are exactly 1 .. count, each used once. */
  predicate WellNumbered(users: map<string, User>)
  {
    && (forall n :: n in users ==> users[n].name == n && 1 <= users[n].uid <= |users|)
    && (forall n, m :: n in users && m in users && n != m ==> users[n].uid != users[m].uid)
  }

  /** Sign-up keeps the numbering invariant: the new number is one past every
      number in use. */
  lemma RegisteringKeepsNumbering(users: map<string, User>, name: string, pwd: string)
    requires WellNumbered(users) && Registering(users, name, pwd).Ok?
    ensures WellNumbered(Registering(users, name, pwd).value)
  {
    var r := Registering(users, name, pwd).value;
    forall n | n in r ensures r[n].name == n && 1 <= r[n].uid <= |r| {
      if n != name {
        assert r[n] == users[n];
      }
    }
  }

  /** The stored users (`db['users']`). */
  class UserDb {
    var users: map<string, User>

    constructor ()
      ensures users == map[]
    {
      users := map[];
    }

    /** `Register.post`: the stored record, or a refusal that changes
        nothing. */
    method Register(name: string, pwd: string) returns (r: Result<User, ExcInstance>)
      modifies this
      ensures Registering(old(users), name, pwd).Err? ==>
        users == old(users) && r == Err(Registering(old(users), name, pwd).error)
      ensures Registering(old(users), name, pwd).Ok? ==>
        users == Registering(old(users), name, pwd).value && r == Ok(users[name])
    {
      if name == "" || pwd == "" {
        return Err(AppInit(LackOfInfoClass, PNone, PNone));
      }
      if name in users {
        return Err(AppInit(UserAlreadyExistClass, PNone, PNone));
      }
      var u := User(name, pwd, |users| + 1);
      users := users[name := u];
      r := Ok(u);
    }

    /** `Login.get`. */
    method Login(name: string, pwd: string) returns (r: Result<Token, ExcInstance>)
      ensures r == LoginResult(users, name, pwd)
    {
      if name == "" || pwd == "" {
        return Err(AppInit(LackOfInfoClass, PNone, PNone));
      }
      if name !in users {
        return Err(AppInit(NotFoundClass, PStr("不存在该用户，请先注册"), PNone));
      }
      if pwd != users[name].password {
        return Err(AppInit(PwdErrorClass, PNone, PNone));
      }
      r := Ok(TokenFor(name));
    }
  }
}
