/** The user service: registration and login over a user collection keyed by email.
    Password hashing, hash comparison and token signing are kept abstract: the store
    is given them as functions about which nothing is assumed. The claims a token
    signs are built as jsonwebtoken builds them from `expiresIn`. */
module UserService {
  import opened Envelopes
  import opened JsValues

  /** The request body of register and login; a field the body lacks is "". */
  datatype UserInput = UserInput(name: string, email: string, password: string)

  /** A database document id; `hex` is its `toString()` form. */
  datatype ObjectId = ObjectId(hex: string)

  /** A stored user: the password only as its salted hash. */
  datatype User = User(id: ObjectId, name: string, email: string, passwordHash: string)

  /** The argument of `createJWT`: a string id or an ObjectId. */
  datatype Uid = UidText(text: string) | UidObject(oid: ObjectId)

  /** The JWT payload: the user id, the issue time and the expiry (`exp`, section 4.1.4
      of RFC 7519), both in seconds since the epoch. */
  datatype Claims = Claims(id: string, iat: int, exp: int)

  /** The `data` part of a user-service envelope: public fields only, never a password. */
  datatype UserData = PublicUser(name: string, email: string) | Session(name: string, email: string, token: string)

  /** Which awaited call of a request throws, if any: the user lookup, `bcrypt.genSalt`,
      `bcrypt.hash`, `user.save`, `bcrypt.compare` or `jwt.sign`. */
  datatype Fault = NoFault | LookupFails | SaltFails | HashFails | SaveFails | CompareFails | SignFails

  const RegisterFieldsMessage := "Name, email, and password are required."
  const EmailExistsMessage := "Email already exists."
  const RegisteredMessage := "User registered successfully."
  const InternalErrorMessage := "Internal server error."
  const LoginFieldsMessage := "Email and password are required."
  const UserNotFoundMessage := "User not found."
  const InvalidPasswordMessage := "Invalid password."
  const LoginMessage := "Login successful."

  /** The `expiresIn` option of the token, and the number of seconds it stands for
      (`ExpiresInIsOneDay`). */
  const TokenExpiresIn := "1d"
  const TokenLifetimeSeconds: nat := 24 * 60 * 60

  /** The seconds one unit of an `ms` timespan stands for: second, minute, hour, day,
      week, and year of 365.25 days. */
  function UnitSeconds(u: char): Option<nat>
  {
    if u == 's' then Some(1)
    else if u == 'm' then Some(60)
    else if u == 'h' then Some(60 * 60)
    else if u == 'd' then Some(24 * 60 * 60)
    else if u == 'w' then Some(7 * 24 * 60 * 60)
    else if u == 'y' then Some(36525 * 24 * 60 * 60 / 100)
    else None
  }

  predicate AllDigits(ds: string)
  {
    forall i :: 0 <= i < |ds| ==> '0' <= ds[i] <= '9'
  }

  /** The number a string of decimal digits denotes. */
  function DecimalValue(ds: string): nat
    requires AllDigits(ds)
  {
    if |ds| == 0 then 0 else 10 * DecimalValue(ds[..|ds| - 1]) + (ds[|ds| - 1] as int - '0' as int)
  }

  /** The seconds an `expiresIn` string of the form `<digits><unit>` stands for, as
      jsonwebtoken reads it through the `ms` package; `None` for every other form. */
  function TimespanSeconds(s: string): Option<nat>
  {
    if |s| >= 2 && AllDigits(s[..|s| - 1]) && UnitSeconds(s[|s| - 1]).Some? then
      Some(DecimalValue(s[..|s| - 1]) * UnitSeconds(s[|s| - 1]).value)
    else None
  }

  /** Reading back the decimal digits of a number gives the number. */
  lemma {:induction false} DecimalRoundTrip(n: nat)
    ensures AllDigits(NatToDecimal(n)) && DecimalValue(NatToDecimal(n)) == n
  {
    var ds := NatToDecimal(n);
    if n >= 10 {
      DecimalRoundTrip(n / 10);
      assert ds[..|ds| - 1] == NatToDecimal(n / 10);
    }
    var d := n % 10;
    assert DigitChar(d) as int - '0' as int == d by {
      if d == 0 {} else if d == 1 {} else if d == 2 {} else if d == 3 {} else if d == 4 {}
      else if d == 5 {} else if d == 6 {} else if d == 7 {} else if d == 8 {} else {}
    }
  }

  /** `<n><unit>` stands for n units. */
  lemma TimespanRoundTrip(n: nat, u: char)
    requires UnitSeconds(u).Some?
    ensures TimespanSeconds(NatToDecimal(n) + [u]) == Some(n * UnitSeconds(u).value)
  {
    var s := NatToDecimal(n) + [u];
    assert s[..|s| - 1] == NatToDecimal(n);
    DecimalRoundTrip(n);
  }

  /** `expiresIn: "1d"` is the lifetime `createJWT` gives its tokens. */
  lemma ExpiresInIsOneDay()
    ensures TimespanSeconds(TokenExpiresIn) == Some(TokenLifetimeSeconds)
  {
    TimespanRoundTrip(1, 'd');
    assert NatToDecimal(1) + ['d'] == TokenExpiresIn;
  }

  /** The signing secret used when `JWT_SECRET` is unset or empty. */
  const DefaultSecret := "secret"

  /** `typeof uid === "string" ? uid : uid.toString()`. */
  function IdText(uid: Uid): string
  {
    match uid
    case UidText(t) => t
    case UidObject(o) => o.hex
  }

  predicate RegisterFieldsMissing(data: Option<UserInput>)
  {
    data.None? || data.value.name == "" || data.value.password == "" || data.value.email == ""
  }

  /** Login needs only email and password; the name is not looked at. */
  predicate LoginFieldsMissing(data: Option<UserInput>)
  {
    data.None? || data.value.email == "" || data.value.password == ""
  }

  /** The faults that happen after the duplicate check of a registration. */
  predicate ThrowsAfterLookup(fault: Fault)
  {
    fault == SaltFails || fault == HashFails || fault == SaveFails
  }

  class UserStore {
    var users: map<string, User>
    /** `bcrypt.hash(password, salt)`. */
    const hash: (string, string) -> string
    /** `bcrypt.compare(password, storedHash)`. */
    const compare: (string, string) -> bool
    /** `jwt.sign(payload, secret)`. */
    const sign: (Claims, string) -> string
    /** `process.env.JWT_SECRET`, "" when unset. */
    const jwtSecretEnv: string

    /** Each user is stored under its own, non-empty email, and ids are unique. */
    ghost predicate Valid()
      reads this
    {
      (forall e :: e in users ==> users[e].email == e && e != "") &&
      (forall e1, e2 :: e1 in users && e2 in users && e1 != e2 ==> users[e1].id != users[e2].id)
    }

    predicate IdTaken(id: ObjectId)
      reads this
    {
      exists e :: e in users && users[e].id == id
    }

    constructor (hashFn: (string, string) -> string, compareFn: (string, string) -> bool,
                 signFn: (Claims, string) -> string, secretEnv: string)
      ensures Valid() && users == map[]
      ensures hash == hashFn && compare == compareFn && sign == signFn && jwtSecretEnv == secretEnv
    {
      users := map[];
      hash, compare, sign, jwtSecretEnv := hashFn, compareFn, signFn, secretEnv;
    }

    /** `process.env.JWT_SECRET || "secret"`. */
    function Secret(): string
    {
      if jwtSecretEnv != "" then jwtSecretEnv else DefaultSecret
    }

    /** `createJWT(uid)` at time `now`: signs `{id}` with `expiresIn: "1d"`, which
        jsonwebtoken turns into `iat = now` and `exp = iat` plus that timespan. */
    function CreateJWT(uid: Uid, now: int): string
    {
      var lifetime := match TimespanSeconds(TokenExpiresIn) case Some(seconds) => seconds case None => 0;
      sign(Claims(IdText(uid), now, now + lifetime), Secret())
    }

    /** `User.findOne({email}).select('+password')`: the stored user with that email,
        password hash included. */
    method LocateUserByEmail(email: string) returns (r: Option<User>)
      requires Valid()
      ensures r.Some? <==> email in users
      ensures r.Some? ==> r.value == users[email] && r.value.email == email
    {
      if email in users {
        return Some(users[email]);
      }
      return None;
    }

    /** `user.save()`: stores the user unless the save throws or the id is taken. */
    method Save(u: User, fails: bool) returns (saved: bool)
      requires Valid() && u.email != "" && u.email !in users
      modifies this
      ensures Valid()
      ensures saved == (!fails && !old(IdTaken(u.id)))
      ensures users == (if saved then old(users)[u.email := u] else old(users))
    {
      if fails || IdTaken(u.id) {
        return false;
      }
      users := users[u.email := u];
      return true;
    }

    /** `registerService(data)`. `salt` is what `bcrypt.genSalt(10)` yields, `newId` the
        id generated for the new document and `fault` the call that throws, if any. */
    method RegisterService(data: Option<UserInput>, salt: string, newId: ObjectId, fault: Fault)
      returns (r: Envelope<UserData>)
      requires Valid()
      modifies this
      ensures Valid()
      ensures RegisterFieldsMissing(data) ==>
                r == Envelope(400, RegisterFieldsMessage, None) && users == old(users)
      ensures !RegisterFieldsMissing(data) && fault == LookupFails ==>
                r == Envelope(500, InternalErrorMessage, None) && users == old(users)
      ensures !RegisterFieldsMissing(data) && fault != LookupFails && data.value.email in old(users) ==>
                r == Envelope(409, EmailExistsMessage, None) && users == old(users)
      ensures !RegisterFieldsMissing(data) && fault != LookupFails && data.value.email !in old(users) &&
              (ThrowsAfterLookup(fault) || old(IdTaken(newId))) ==>
                r == Envelope(500, InternalErrorMessage, None) && users == old(users)
      ensures !RegisterFieldsMissing(data) && fault != LookupFails && data.value.email !in old(users) &&
              !ThrowsAfterLookup(fault) && !old(IdTaken(newId)) ==>
                r == Envelope(201, RegisteredMessage, Some(PublicUser(data.value.name, data.value.email))) &&
                users == old(users)[data.value.email := User(newId, data.value.name, data.value.email, hash(data.value.password, salt))]
      ensures r.status == 201 <==> users != old(users)
      ensures r.status == 201 ==> |users| == |old(users)| + 1 && users.Keys == old(users).Keys + {data.value.email}
    {
      if RegisterFieldsMissing(data) {
        return Envelope(400, RegisterFieldsMessage, None);
      }
      var body := data.value;
      if fault == LookupFails {
        return Envelope(500, InternalErrorMessage, None);
      }
      var existing := LocateUserByEmail(body.email);
      if existing.Some? {
        return Envelope(409, EmailExistsMessage, None);
      }
      if fault == SaltFails || fault == HashFails {
        return Envelope(500, InternalErrorMessage, None);
      }
      var hashed := hash(body.password, salt);
      var user := User(newId, body.name, body.email, hashed);
      ghost var before := users;
      var saved := Save(user, fault == SaveFails);
      if !saved {
        return Envelope(500, InternalErrorMessage, None);
      }
      assert users.Keys == before.Keys + {body.email};
      assert body.email in users && body.email !in before;
      return Envelope(201, RegisteredMessage, Some(PublicUser(user.name, user.email)));
    }

    /** `loginService(data)` at time `now`; `fault` is the call that throws, if any.
        The store is only read. */
    method LoginService(data: Option<UserInput>, now: int, fault: Fault) returns (r: Envelope<UserData>)
      requires Valid()
      ensures LoginFieldsMissing(data) ==> r == Envelope(400, LoginFieldsMessage, None)
      ensures !LoginFieldsMissing(data) && fault == LookupFails ==> r == Envelope(500, InternalErrorMessage, None)
      ensures !LoginFieldsMissing(data) && fault != LookupFails && data.value.email !in users ==>
                r == Envelope(404, UserNotFoundMessage, None)
      ensures !LoginFieldsMissing(data) && fault == CompareFails && data.value.email in users ==>
                r == Envelope(500, InternalErrorMessage, None)
      ensures !LoginFieldsMissing(data) && fault != LookupFails && fault != CompareFails && data.value.email in users &&
              !compare(data.value.password, users[data.value.email].passwordHash) ==>
                r == Envelope(401, InvalidPasswordMessage, None)
      ensures !LoginFieldsMissing(data) && fault == SignFails && data.value.email in users &&
              compare(data.value.password, users[data.value.email].passwordHash) ==>
                r == Envelope(500, InternalErrorMessage, None)
      ensures !LoginFieldsMissing(data) && fault != LookupFails && fault != CompareFails && fault != SignFails &&
              data.value.email in users && compare(data.value.password, users[data.value.email].passwordHash) ==>
                var u := users[data.value.email];
                r == Envelope(200, LoginMessage, Some(Session(u.name, data.value.email, CreateJWT(UidObject(u.id), now))))
      ensures r.data.Some? <==> r.status == 200
    {
      if LoginFieldsMissing(data) {
        return Envelope(400, LoginFieldsMessage, None);
      }
      var body := data.value;
      if fault == LookupFails {
        return Envelope(500, InternalErrorMessage, None);
      }
      var user := LocateUserByEmail(body.email);
      if user.None? {
        return Envelope(404, UserNotFoundMessage, None);
      }
      var u := user.value;
      if fault == CompareFails {
        return Envelope(500, InternalErrorMessage, None);
      }
      var isMatch := compare(body.password, u.passwordHash);
      if !isMatch {
        return Envelope(401, InvalidPasswordMessage, None);
      }
      if fault == SignFails {
        return Envelope(500, InternalErrorMessage, None);
      }
      var token := CreateJWT(UidObject(u.id), now);
      return Envelope(200, LoginMessage, Some(Session(u.name, u.email, token)));
    }
  }

  /** The token `createJWT` issues carries the string form of the id and, by what
      `expiresIn: "1d"` denotes, expires exactly one day after it is issued. */
  lemma TokenClaims(store: UserStore, uid: Uid, now: int)
    ensures exists c :: store.CreateJWT(uid, now) == store.sign(c, store.Secret()) &&
              c.id == IdText(uid) && c.iat == now && c.exp - c.iat == 24 * 60 * 60
  {
    ExpiresInIsOneDay();
    var c := Claims(IdText(uid), now, now + TokenLifetimeSeconds);
    assert store.CreateJWT(uid, now) == store.sign(c, store.Secret());
  }

  /** An ObjectId and its string form give the same token: `createJWT` signs the id
      only through `toString()`. */
  lemma TokenIdForm(store: UserStore, o: ObjectId, now: int)
    ensures store.CreateJWT(UidObject(o), now) == store.CreateJWT(UidText(o.hex), now)
  {
  }

  /** Registering the same email twice with valid data: 201, then 409, and only the
      first call adds a user. */
  method RegisterTwice(store: UserStore, data: UserInput, salt1: string, id1: ObjectId,
                       again: UserInput, salt2: string, id2: ObjectId)
    returns (first: Envelope<UserData>, second: Envelope<UserData>)
    requires store.Valid() && !RegisterFieldsMissing(Some(data)) && !RegisterFieldsMissing(Some(again))
    requires again.email == data.email && data.email !in store.users && !store.IdTaken(id1)
    modifies store
    ensures first.status == 201 && second == Envelope(409, EmailExistsMessage, None)
    ensures store.users == old(store.users)[data.email := User(id1, data.name, data.email, store.hash(data.password, salt1))]
  {
    first := store.RegisterService(Some(data), salt1, id1, NoFault);
    second := store.RegisterService(Some(again), salt2, id2, NoFault);
  }

  /** Logging in right after registering succeeds exactly when `compare` accepts the
      password against its own hash; the model assumes nothing about that. */
  method RegisterThenLogin(store: UserStore, data: UserInput, salt: string, id: ObjectId, now: int)
    returns (registered: Envelope<UserData>, login: Envelope<UserData>)
    requires store.Valid() && !RegisterFieldsMissing(Some(data)) && data.email !in store.users && !store.IdTaken(id)
    modifies store
    ensures registered == Envelope(201, RegisteredMessage, Some(PublicUser(data.name, data.email)))
    ensures store.compare(data.password, store.hash(data.password, salt)) ==>
              login == Envelope(200, LoginMessage, Some(Session(data.name, data.email, store.CreateJWT(UidObject(id), now))))
    ensures !store.compare(data.password, store.hash(data.password, salt)) ==>
              login == Envelope(401, InvalidPasswordMessage, None)
  {
    registered := store.RegisterService(Some(data), salt, id, NoFault);
    login := store.LoginService(Some(data), now, NoFault);
  }
}
