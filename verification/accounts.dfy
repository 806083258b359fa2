/** The account handlers of the server: sign-up, login and profile update
    over the user collection. Users are kept in insertion order and a
    user's id is its position; bcrypt and token signing are symbolic. */
module Accounts {
  import opened Outcomes
  import opened Http
  import opened Gate

  /** A bcrypt digest: its cost, its random salt and the secret it was made
      from. The secret cannot be read back; only `Matches` looks at it. */
  datatype Digest = Digest(cost: nat, salt: nat, secret: string)

  /** `bcrypt.hash(password, 10)`, with `salt` standing for the random salt
      bcrypt draws. */
  function Hash(password: string, salt: nat): Digest {
    Digest(SaltRounds, salt, password)
  }

  /** `bcrypt.compare(password, digest)`. */
  predicate Matches(password: string, d: Digest) {
    d.secret == password
  }

  /** A stored user; its password is only ever a digest. */
  datatype User = User(name: string, email: string, password: Digest)

  type Users = seq<User>

  /** A signed token: its claims and its expiry time in seconds. */
  datatype Token = Token(claims: Claims, expiresAt: int)

  const SaltRounds := 10
  const TokenLifetime := 24 * 60 * 60

  const UserExists := "User already exists"
  const UserCreated := "User created successfully"
  const AuthFailed := "Authentication failed! Email or Password is wrong"
  const LoginDone := "Login successful"
  const EmailTaken := "Email is already taken by another user"
  const UserNotFound := "User not found"
  const ProfileUpdated := "Profile updated successfully"

  /** `UserModel.findOne({ email })`: the first user with that email. */
  function FindByEmail(users: Users, email: string): (r: Option<nat>)
    ensures r.Some? ==> r.value < |users| && users[r.value].email == email
    ensures r.Some? ==> forall j :: 0 <= j < r.value ==> users[j].email != email
    ensures r.None? <==> forall j :: 0 <= j < |users| ==> users[j].email != email
  {
    if |users| == 0 then None
    else if users[0].email == email then Some(0)
    else match FindByEmail(users[1..], email)
      case None => None
      case Some(i) => Some(i + 1)
  }

  /** No two users share an email. */
  predicate UniqueEmails(users: Users) {
    forall i, j :: 0 <= i < j < |users| ==> users[i].email != users[j].email
  }

  /** `signup`: a known email is refused with 400; otherwise the user is
      added with the password's digest and 201 is returned with no user
      data. */
  function Signup(users: Users, db: Db, name: string, email: string, password: string, salt: nat)
    : (r: (Users, Response<string>))
    ensures db.Failing? ==> r == (users, ServerError())
    ensures db.Healthy? && FindByEmail(users, email).Some? ==>
              r == (users, Response(400, Failed(UserExists)))
    ensures db.Healthy? && FindByEmail(users, email).None? ==>
              r == (users + [User(name, email, Hash(password, salt))], Response(201, Succeeded(UserCreated)))
  {
    if db.Failing? then (users, ServerError())
    else if FindByEmail(users, email).Some? then (users, Response(400, Failed(UserExists)))
    else (users + [User(name, email, Hash(password, salt))], Response(201, Succeeded(UserCreated)))
  }

  /** The success payload of a login. */
  datatype Session = Session(message: string, jwtToken: Token, email: string, name: string)

  /** `login`: an unknown email and a wrong password give the same 403
      reply; a match gives a token over the user's email and id, valid for
      24 hours from `now`, and the user's email and name. */
  function Login(users: Users, db: Db, email: string, password: string, now: int): (r: Response<Session>)
    ensures db.Failing? ==> r == ServerError()
    ensures db.Healthy? ==>
              (r.status == 200 <==>
                 FindByEmail(users, email).Some? && Matches(password, users[FindByEmail(users, email).value].password))
    ensures db.Healthy? && r.status != 200 ==> r == Response(403, Failed(AuthFailed))
    ensures r.status == 200 ==>
              var i := FindByEmail(users, email).value;
              r.body == Succeeded(Session(LoginDone, Token(Claims(users[i].email, i), now + TokenLifetime),
                                          users[i].email, users[i].name))
  {
    if db.Failing? then ServerError()
    else match FindByEmail(users, email)
      case None => Response(403, Failed(AuthFailed))
      case Some(i) =>
        var u := users[i];
        if !Matches(password, u.password) then Response(403, Failed(AuthFailed))
        else Response(200, Succeeded(Session(LoginDone, Token(Claims(u.email, i), now + TokenLifetime), u.email, u.name)))
  }

  /** The success payload of a profile update. */
  datatype Profile = Profile(message: string, name: string, email: string)

  /** Some user other than `id` has `email`. */
  predicate TakenByOther(users: Users, id: nat, email: string) {
    exists j :: 0 <= j < |users| && j != id && users[j].email == email
  }

  /** `updateProfile` for the user `id` named by the token: the email check
      against other users comes first, then the user must exist; only the
      name and the email change. */
  function UpdateProfile(users: Users, db: Db, id: nat, name: string, email: string)
    : (r: (Users, Response<Profile>))
    ensures db.Failing? ==> r == (users, ServerError())
    ensures db.Healthy? && TakenByOther(users, id, email) ==> r == (users, Response(400, Failed(EmailTaken)))
    ensures db.Healthy? && !TakenByOther(users, id, email) && id >= |users| ==>
              r == (users, Response(404, Failed(UserNotFound)))
    ensures db.Healthy? && !TakenByOther(users, id, email) && id < |users| ==>
              && r.1 == Response(200, Succeeded(Profile(ProfileUpdated, name, email)))
              && r.0 == users[id := users[id].(name := name, email := email)]
  {
    if db.Failing? then (users, ServerError())
    else if TakenByOther(users, id, email) then (users, Response(400, Failed(EmailTaken)))
    else if id >= |users| then (users, Response(404, Failed(UserNotFound)))
    else (users[id := users[id].(name := name, email := email)], Response(200, Succeeded(Profile(ProfileUpdated, name, email))))
  }

  /** Sign-up and profile update keep emails unique. */
  lemma HandlersKeepEmailsUnique(users: Users, db: Db, name: string, email: string, password: string,
                                 salt: nat, id: nat)
    requires UniqueEmails(users)
    ensures UniqueEmails(Signup(users, db, name, email, password, salt).0)
    ensures UniqueEmails(UpdateProfile(users, db, id, name, email).0)
  {
    var (after, _) := UpdateProfile(users, db, id, name, email);
    if db.Healthy? && !TakenByOther(users, id, email) && id < |users| {
      forall i, j | 0 <= i < j < |after| ensures after[i].email != after[j].email {
        if i == id {
          assert after[j] == users[j];
        } else if j == id {
          assert after[i] == users[i];
        } else {
          assert after[i] == users[i] && after[j] == users[j];
        }
      }
    }
  }

  /** A new account can log in at once with the password it was created
      with, and the token names its position as the id. */
  lemma SignupThenLogin(users: Users, name: string, email: string, password: string, salt: nat, now: int)
    requires FindByEmail(users, email).None?
    ensures var (after, reply) := Signup(users, Healthy, name, email, password, salt);
            && reply.status == 201
            && Login(after, Healthy, email, password, now)
               == Response(200, Succeeded(Session(LoginDone, Token(Claims(email, |users|), now + TokenLifetime), email, name)))
  {
    var u := User(name, email, Hash(password, salt));
    var after := users + [u];
    assert Signup(users, Healthy, name, email, password, salt) == (after, Response(201, Succeeded(UserCreated)));
    assert after[|users|] == u;
    assert FindByEmail(after, email) == Some(|users|);
    assert Matches(password, u.password);
  }

  /** Keeping one's own email is not a conflict. */
  lemma OwnEmailAllowed(users: Users, id: nat, name: string)
    requires UniqueEmails(users) && id < |users|
    ensures UpdateProfile(users, Healthy, id, name, users[id].email).1.status == 200
  {
  }

  /** A refused login does not reveal whether the email is registered: a
      wrong password for a known email and any password for an unknown
      email get the same reply. */
  lemma LoginRefusalsAgree(users: Users, known: string, unknown: string, p: string, q: string, now: int, later: int)
    requires FindByEmail(users, unknown).None?
    requires FindByEmail(users, known).Some? && !Matches(p, users[FindByEmail(users, known).value].password)
    ensures Login(users, Healthy, known, p, now) == Login(users, Healthy, unknown, q, later)
  {
  }

  /** The `PUT /auth/update-profile` route: the token check runs first and
      the id in the token's claims picks the user to update. The request
      validator that sits between them is not part of this model. */
  function ServeUpdateProfile(users: Users, db: Db, verify: string -> Option<Claims>, header: Option<string>,
                              name: string, email: string): (r: (Users, Response<Profile>))
    ensures Authenticate(header, verify).Deny? ==>
              r == (users, Response(403, Failed(Authenticate(header, verify).response.body.error)))
    ensures Authenticate(header, verify).Pass? ==>
              r == UpdateProfile(users, db, Authenticate(header, verify).user.id, name, email)
  {
    match Authenticate(header, verify)
    case Deny(response) => (users, Response(response.status, Failed(response.body.error)))
    case Pass(claims) => UpdateProfile(users, db, claims.id, name, email)
  }
}
