/** backend/controllers/users-controllers.js: listing users, signing up and
    logging in. Hashing and token signing are the functions of the `Bcrypt`
    and `Jwt` values passed in; a step whose library call or driver call
    throws is an input (`findFails`, `hashFails`, ...). */
module UsersControllers {
  import opened Wrappers
  import opened HttpErrors
  import opened PlaceModel
  import opened UserModel
  import opened Store
  import opened Routing
  import opened Crypto
  import UsersRoutes

  const INVALID_INPUTS := HttpError("Invalid inputs passed, please check your data.", 422)
  const FETCH_USERS_FAILED := HttpError("Fetching users failed", 500)
  const SIGNUP_FAILED := HttpError("Signing up failed. Pleae try again. ", 500)
  const USER_EXISTS := HttpError("User exists already. Please login instead. ", 422)
  const HASH_FAILED := HttpError("Hashing password failed, please try again.", 500)
  const CREATE_USER_FAILED := HttpError("Cannot create user, please try again. ", 500)
  const LOGIN_LOOKUP_FAILED := HttpError("Logging in failed. Pleae tyr again. ", 500)
  const NOT_REGISTERED := HttpError("Not a registered user or correct email address. Please signup or try again.", 403)
  const COMPARE_FAILED := HttpError("Could not log in. Please check your credentials and try again.", 500)
  const INVALID_CREDENTIALS := HttpError("Invalid credentials, cannot login.", 401)
  const LOGIN_SIGN_FAILED := HttpError("Logging in failed. Pleae try again. ", 500)

  /** The body of a successful signup or login: `{ userId, email, token }`. */
  datatype Session = Session(userId: UserId, email: string, token: string)

  /** The token both signup and login issue: the payload `{ userId, email }`,
      the server's key, a one-hour lifetime. */
  function Issue(jwt: Jwt, secret: string, id: UserId, email: string): (token: string)
    // verified with the same key, a token gives back the user it was issued for
    ensures Sound(jwt) ==> jwt.verify(token, secret) == Some(Claims(id, email))
  {
    jwt.sign(Claims(id, email), secret, TOKEN_LIFETIME)
  }

  /** `users.map(user => user.toObject())` over `User.find({}, "-password")`:
      every stored user, keyed by id, without its password. */
  function ListUsers(users: map<UserId, User>): (r: map<UserId, PublicUser>)
    ensures r.Keys == users.Keys
    ensures forall id :: id in r ==>
      r[id].name == users[id].name && r[id].email == users[id].email &&
      r[id].image == users[id].image && r[id].places == users[id].places
  {
    map id | id in users :: Public(users[id])
  }

  /** `GET /api/users`. */
  method GetUsers(db: Database, findFails: bool) returns (r: Reply<map<UserId, PublicUser>>)
    ensures findFails ==> r == Err(FETCH_USERS_FAILED)
    ensures !findFails ==> r.Ok? && r.status == 200 && r.body.Keys == db.users.Keys
    ensures r.Ok? ==> forall id :: id in r.body ==> r.body[id] == Public(db.users[id])
  {
    if findFails {
      return Err(FETCH_USERS_FAILED);
    }
    r := Ok(200, ListUsers(db.users));
  }

  /** The body signup reads, after the validators normalised the email. */
  function SignupBody(body: Body, lib: EmailChecks): Body {
    Sanitize(UsersRoutes.SignupRules(lib), body)
  }

  /** The document signup saves: the digest in place of the password, no
      places yet, the uploaded image. */
  function NewUser(b: Body, bcrypt: Bcrypt, image: string): (u: User)
    ensures u.name == Field(b, "name") && u.email == Field(b, "email") && u.image == image
    ensures u.password == bcrypt.hash(Field(b, "password"), SALT_ROUNDS)
    ensures u.places == []
  {
    User(Field(b, "name"), Field(b, "email"), bcrypt.hash(Field(b, "password"), SALT_ROUNDS), image, [])
  }

  /** Input that passed the signup validators gives a document the schema
      accepts, when the validator library accepts no empty address, the
      digest has at least six characters and an image was uploaded. */
  lemma ValidSignupMeetsSchema(body: Body, lib: EmailChecks, bcrypt: Bcrypt, image: string)
    requires AllHold(UsersRoutes.SignupRules(lib), body)
    requires !lib.isEmail("") && !lib.isEmail(lib.normalize(""))
    requires |bcrypt.hash(Field(body, "password"), SALT_ROUNDS)| >= 6 && image != ""
    ensures UserSchemaValid(NewUser(SignupBody(body, lib), bcrypt, image))
  {
    UsersRoutes.SignupSanitizes(lib, body);
  }

  /** `POST /api/users/signup`; `newId` is the id the driver gives the new
      document. */
  method Signup(db: Database, body: Body, imagePath: string, lib: EmailChecks, bcrypt: Bcrypt, jwt: Jwt,
                secret: string, newId: UserId, findFails: bool, hashFails: bool, saveFails: bool, signFails: bool)
      returns (r: Reply<Session>)
    requires db.Valid() && newId !in db.users
    modifies db
    ensures db.Valid()
    ensures db.places == old(db.places)
    ensures var b := SignupBody(body, lib);
      var created := NewUser(b, bcrypt, imagePath);
      var saved := AllHold(UsersRoutes.SignupRules(lib), body) && !findFails && !EmailTaken(old(db.users), created.email)
                   && !hashFails && !saveFails && UserSchemaValid(created);
      && r == (
        if !AllHold(UsersRoutes.SignupRules(lib), body) then Err(INVALID_INPUTS)
        else if findFails then Err(SIGNUP_FAILED)
        else if EmailTaken(old(db.users), created.email) then Err(USER_EXISTS)
        else if hashFails then Err(HASH_FAILED)
        else if saveFails || !UserSchemaValid(created) then Err(CREATE_USER_FAILED)
        else if signFails then Err(SIGNUP_FAILED)
        else Ok(201, Session(newId, created.email, Issue(jwt, secret, newId, created.email))))
      // the user stays saved even when signing the token then fails
      && db.users == if saved then old(db.users)[newId := created] else old(db.users)
  {
    if !AllHold(UsersRoutes.SignupRules(lib), body) {
      return Err(INVALID_INPUTS);
    }
    var b := SignupBody(body, lib);
    var email := Field(b, "email");
    if findFails {
      return Err(SIGNUP_FAILED);
    }
    if exists id :: id in db.users && db.users[id].email == email {
      return Err(USER_EXISTS);
    }
    if hashFails {
      return Err(HASH_FAILED);
    }
    var created := NewUser(b, bcrypt, imagePath);
    if saveFails || !UserSchemaValid(created) {
      return Err(CREATE_USER_FAILED);
    }
    SignupKeepsConsistent(db.users, db.places, newId, created);
    db.users := db.users[newId := created];
    if signFails {
      return Err(SIGNUP_FAILED);
    }
    r := Ok(201, Session(newId, email, Issue(jwt, secret, newId, email)));
  }

  /** What login answers once it has looked up `email`: 403 when no user
      holds it, 401 when the password does not match that user's digest,
      otherwise a session for that user. */
  ghost function LoginReply(users: map<UserId, User>, email: string, password: string,
                            bcrypt: Bcrypt, jwt: Jwt, secret: string,
                            findFails: bool, compareFails: bool, signFails: bool): (r: Reply<Session>)
    // a lookup that throws is a 500
    ensures findFails ==> r == Err(LOGIN_LOOKUP_FAILED)
    // nobody holds the address: refused as unregistered
    ensures !findFails && !EmailTaken(users, email) ==> r == Err(NOT_REGISTERED)
    // a comparison that throws is a 500
    ensures !findFails && EmailTaken(users, email) && compareFails ==> r == Err(COMPARE_FAILED)
    // a holder whose digest the password does not match: 401
    ensures !findFails && !compareFails && EmailsUnique(users) ==>
      forall id :: id in users && users[id].email == email && !bcrypt.compare(password, users[id].password)
        ==> r == Err(INVALID_CREDENTIALS)
    // the right password, but signing throws: 500
    ensures !findFails && !compareFails && signFails && EmailsUnique(users) ==>
      forall id :: id in users && users[id].email == email && bcrypt.compare(password, users[id].password)
        ==> r == Err(LOGIN_SIGN_FAILED)
    // a token is issued only to a stored holder of the address whose digest
    // the password matches, and it names that user
    ensures r.Ok? ==>
      && r.status == 200
      && r.body.userId in users && users[r.body.userId].email == email == r.body.email
      && bcrypt.compare(password, users[r.body.userId].password)
      && r.body.token == Issue(jwt, secret, r.body.userId, email)
    // with no failing call, the holder and a matching password are enough
    ensures !findFails && !compareFails && !signFails && EmailsUnique(users) ==>
      (r.Ok? <==> exists id :: id in users && users[id].email == email
                               && bcrypt.compare(password, users[id].password))
  {
    if findFails then Err(LOGIN_LOOKUP_FAILED)
    else if !EmailTaken(users, email) then Err(NOT_REGISTERED)
    else
      var id := Holder(users, email);
      if compareFails then Err(COMPARE_FAILED)
      else if !bcrypt.compare(password, users[id].password) then Err(INVALID_CREDENTIALS)
      else if signFails then Err(LOGIN_SIGN_FAILED)
      else Ok(200, Session(id, users[id].email, Issue(jwt, secret, id, users[id].email)))
  }

  /** `POST /api/users/login`. The email is looked up exactly as sent. */
  method Login(db: Database, body: Body, bcrypt: Bcrypt, jwt: Jwt, secret: string,
               findFails: bool, compareFails: bool, signFails: bool)
      returns (r: Reply<Session>)
    requires db.Valid()
    ensures r == LoginReply(db.users, Field(body, "email"), Field(body, "password"),
                            bcrypt, jwt, secret, findFails, compareFails, signFails)
  {
    var email := Field(body, "email");
    if findFails {
      return Err(LOGIN_LOOKUP_FAILED);
    }
    if !exists id :: id in db.users && db.users[id].email == email {
      return Err(NOT_REGISTERED);
    }
    var id :| id in db.users && db.users[id].email == email;
    assert id == Holder(db.users, email);
    var user := db.users[id];
    if compareFails {
      return Err(COMPARE_FAILED);
    }
    if !bcrypt.compare(Field(body, "password"), user.password) {
      return Err(INVALID_CREDENTIALS);
    }
    if signFails {
      return Err(LOGIN_SIGN_FAILED);
    }
    r := Ok(200, Session(id, user.email, Issue(jwt, secret, id, user.email)));
  }

  /** The address signup stores for a body: the sent email, normalised. */
  function StoredEmail(body: Body, lib: EmailChecks): (email: string)
    ensures email == Field(SignupBody(body, lib), "email")
  {
    UsersRoutes.SignupSanitizes(lib, body);
    if "email" in body then lib.normalize(body["email"]) else ""
  }

  /** Login with the sent email normalised the way signup normalises it
      before the lookup. */
  method NormalizedLogin(db: Database, body: Body, lib: EmailChecks, bcrypt: Bcrypt, jwt: Jwt,
                         secret: string, findFails: bool, compareFails: bool, signFails: bool)
      returns (r: Reply<Session>)
    requires db.Valid()
    ensures r == LoginReply(db.users, StoredEmail(body, lib), Field(body, "password"),
                            bcrypt, jwt, secret, findFails, compareFails, signFails)
  {
    var normalized := body;
    if "email" in body {
      normalized := body["email" := lib.normalize(body["email"])];
    }
    assert Field(normalized, "email") == StoredEmail(body, lib);
    assert Field(normalized, "password") == Field(body, "password");
    r := Login(db, normalized, bcrypt, jwt, secret, findFails, compareFails, signFails);
  }

  /** With the normalised lookup, whoever signed up logs in by sending the
      same email and password again. */
  lemma SignupThenLogin(users: map<UserId, User>, id: UserId, body: Body, lib: EmailChecks,
                        bcrypt: Bcrypt, jwt: Jwt, secret: string, image: string)
    requires EmailsUnique(users) && Matches(bcrypt)
    requires id in users && users[id] == NewUser(SignupBody(body, lib), bcrypt, image)
    ensures LoginReply(users, StoredEmail(body, lib), Field(body, "password"), bcrypt, jwt, secret, false, false, false)
      == Ok(200, Session(id, StoredEmail(body, lib), Issue(jwt, secret, id, StoredEmail(body, lib))))
  {
    var email := StoredEmail(body, lib);
    UsersRoutes.SignupSanitizes(lib, body);
    assert users[id].email == email;
    assert Holder(users, email) == id;
    assert users[id].password == bcrypt.hash(Field(body, "password"), SALT_ROUNDS);
  }

  /** A library whose `normalizeEmail` lower-cases one address. */
  function Lowering(): EmailChecks {
    EmailChecks(e => if e == "A@x.io" then "a@x.io" else e, e => true)
  }

  /** A hashing library that stores passwords as they are. */
  function PlainHashing(): Bcrypt {
    Bcrypt((p, rounds) => p, (p, h) => p == h)
  }

  /** As written, the same signup body sent to login is not found: signup
      stored `a@x.io`, login looks up `A@x.io`. */
  lemma LoginMissesSignupEmail(jwt: Jwt, secret: string)
    ensures var body := map["name" := "Ann", "email" := "A@x.io", "password" := "secret1"];
      var users := map["u" := NewUser(SignupBody(body, Lowering()), PlainHashing(), "img")];
      && LoginReply(users, Field(body, "email"), Field(body, "password"), PlainHashing(), jwt, secret, false, false, false)
         == Err(NOT_REGISTERED)
      && LoginReply(users, StoredEmail(body, Lowering()), Field(body, "password"), PlainHashing(), jwt, secret, false, false, false).Ok?
  {
    var body := map["name" := "Ann", "email" := "A@x.io", "password" := "secret1"];
    var users := map["u" := NewUser(SignupBody(body, Lowering()), PlainHashing(), "img")];
    UsersRoutes.SignupSanitizes(Lowering(), body);
    assert users["u"].email == "a@x.io";
    assert !EmailTaken(users, "A@x.io");
    SignupThenLogin(users, "u", body, Lowering(), PlainHashing(), jwt, secret, "img");
  }
}
