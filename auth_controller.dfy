/** Registration and login over the `utilisateurs` table. bcrypt and the
    JWT signer are parameters; the table is a map from id to row. */
module AuthController {
  import opened Common
  import opened Http

  const MissingRegisterFields := "Nom complet, email et mot de passe sont requis."
  const EmailTaken := "Un utilisateur avec cet email existe déjà."
  const Registered := "Utilisateur enregistré avec succès."
  const MissingLoginFields := "Email et mot de passe sont requis."
  const UnknownEmail := "Identifiants invalides (email)."
  const WrongPassword := "Identifiants invalides (mot de passe)."
  const LoggedIn := "Connexion réussie."

  /** The role every registered user gets. */
  const DefaultRole := "agriculteur"

  /** The bcrypt cost factor the controller asks `genSalt` for. */
  const SaltRounds := 10

  /** A bcrypt salt: its cost factor and its random part. */
  datatype Salt = Salt(cost: nat, random: string)

  /** `bcrypt.genSalt`, `bcrypt.hash` and `bcrypt.compare`; the first two
      may fail (`Err` carries the message of the error they throw). */
  datatype Hasher = Hasher(
    genSalt: nat -> Result<Salt, string>,
    hash: (string, Salt) -> Result<string, string>,
    compare: (string, string) -> bool)

  /** One row of `utilisateurs`; `lastLogin` is `derniere_connexion`. */
  datatype User = User(
    id: nat, fullName: string, email: string, passwordHash: string,
    phone: Option<string>, role: string, lastLogin: Option<int>)

  /** The user as both handlers answer it: never the hash. */
  datatype PublicUser = PublicUser(id: nat, fullName: string, email: string, role: string)

  function Public(u: User): (p: PublicUser)
    ensures p.id == u.id && p.fullName == u.fullName && p.email == u.email && p.role == u.role
  {
    PublicUser(u.id, u.fullName, u.email, u.role)
  }

  /** The answer's user depends on the four public columns only: two rows
      that differ in the hash, the phone or the last login answer the
      same, and rows that differ in a public column answer differently. */
  lemma PublicHidesSecrets(u: User, hash: string, phone: Option<string>, lastLogin: Option<int>, v: User)
    ensures Public(u.(passwordHash := hash, phone := phone, lastLogin := lastLogin)) == Public(u)
    ensures Public(u) == Public(v) <==>
      u.id == v.id && u.fullName == v.fullName && u.email == v.email && u.role == v.role
  {
  }

  /** The claims `login` signs. */
  datatype TokenPayload = TokenPayload(id: nat, role: string, fullName: string, email: string)

  /** Request bodies; `None` is an absent field. */
  datatype RegisterBody = RegisterBody(fullName: Option<string>, email: Option<string>, password: Option<string>, phone: Option<string>)
  datatype LoginBody = LoginBody(email: Option<string>, password: Option<string>)

  datatype RegisterAnswer = RegisterAnswer(message: string, user: PublicUser)
  datatype LoginAnswer = LoginAnswer(message: string, token: string, user: PublicUser)

  predicate Present(v: Option<string>)
  {
    v.Some? && v.value != ""
  }

  class UserStore {
    var users: map<nat, User>
    var nextId: nat

    /** Rows are keyed by their id, ids lie below the next id the sequence
        will hand out, and no two rows share an email. */
    ghost predicate Valid()
      reads this
    {
      (forall id :: id in users ==> id < nextId && users[id].id == id) &&
      (forall a, b :: a in users && b in users && users[a].email == users[b].email ==> a == b)
    }

    constructor ()
      ensures Valid() && users == map[] && nextId == 1
    {
      users := map[];
      nextId := 1;
    }

    /** `SELECT * FROM utilisateurs WHERE email = $1`: a scan over the ids. */
    method FindByEmail(email: string) returns (r: Option<nat>)
      requires Valid()
      ensures r.Some? ==> r.value in users && users[r.value].email == email
      ensures r.None? ==> forall id :: id in users ==> users[id].email != email
    {
      var i := 0;
      while i < nextId
        invariant 0 <= i <= nextId
        invariant forall j :: j in users && j < i ==> users[j].email != email
      {
        if i in users && users[i].email == email {
          return Some(i);
        }
        i := i + 1;
      }
      return None;
    }

    /** `register`: 400 without a name, email or password; 409 when the
        email is taken; otherwise a cost-10 salt and the bcrypt hash of
        the password, whose failure goes to the global handler with
        nothing written; then the INSERT of one new row with role
        `agriculteur` under the sequence's next value, answered 201 with
        the public projection. The database may refuse the row (`engine`
        is its verdict on the constraints the store does not keep, such as
        the unique phone number); the refusal goes to the global handler,
        no row is added, and the sequence has moved all the same. */
    method Register(body: RegisterBody, hasher: Hasher, engine: User -> Option<DbError>)
      returns (reply: Reply<RegisterAnswer>)
      requires Valid()
      modifies this
      ensures Valid()
      ensures !(Present(body.fullName) && Present(body.email) && Present(body.password)) ==>
        reply == Message(400, MissingRegisterFields) && users == old(users) && nextId == old(nextId)
      ensures Present(body.fullName) && Present(body.email) && Present(body.password) &&
              (exists id :: id in old(users) && old(users)[id].email == body.email.value) ==>
        reply == Message(409, EmailTaken) && users == old(users) && nextId == old(nextId)
      ensures Present(body.fullName) && Present(body.email) && Present(body.password) &&
              (forall id :: id in old(users) ==> old(users)[id].email != body.email.value) ==>
        match hasher.genSalt(SaltRounds)
        case Err(m) => reply == GlobalHandler(Raised(0, m)) && users == old(users) && nextId == old(nextId)
        case Ok(salt) =>
          match hasher.hash(body.password.value, salt)
          case Err(m) => reply == GlobalHandler(Raised(0, m)) && users == old(users) && nextId == old(nextId)
          case Ok(hash) =>
            var u := User(old(nextId), body.fullName.value, body.email.value, hash, body.phone, DefaultRole, None);
            nextId == old(nextId) + 1 &&
            match engine(u)
            case Some(e) => reply == GlobalHandler(Database(e)) && users == old(users)
            case None =>
              users == old(users)[old(nextId) := u] &&
              reply == Data(201, RegisterAnswer(Registered, Public(u)))
    {
      if !(Present(body.fullName) && Present(body.email) && Present(body.password)) {
        return Message(400, MissingRegisterFields);
      }
      var existing := FindByEmail(body.email.value);
      if existing.Some? {
        return Message(409, EmailTaken);
      }
      var salt := hasher.genSalt(SaltRounds);
      if salt.Err? {
        return GlobalHandler(Raised(0, salt.error));
      }
      var hash := hasher.hash(body.password.value, salt.value);
      if hash.Err? {
        return GlobalHandler(Raised(0, hash.error));
      }
      var u := User(nextId, body.fullName.value, body.email.value, hash.value, body.phone, DefaultRole, None);
      nextId := nextId + 1;
      var refused := engine(u);
      if refused.Some? {
        return GlobalHandler(Database(refused.value));
      }
      users := users[u.id := u];
      reply := Data(201, RegisterAnswer(Registered, Public(u)));
    }

    /** `login`: 400 without email or password; 401 for an unknown email
        and, with another message, for a wrong password; a signing error
        goes to the global handler and changes nothing; otherwise the
        payload `{id, role, nom_complet, email}` is signed, that user's
        `derniere_connexion` is set to `now`, and 200 carries the token and
        the public projection. */
    method Login(body: LoginBody, hasher: Hasher, sign: TokenPayload -> Result<string, string>, now: int)
      returns (reply: Reply<LoginAnswer>)
      requires Valid()
      modifies this
      ensures Valid() && nextId == old(nextId)
      ensures !(Present(body.email) && Present(body.password)) ==>
        reply == Message(400, MissingLoginFields) && users == old(users)
      ensures Present(body.email) && Present(body.password) &&
              (forall id :: id in old(users) ==> old(users)[id].email != body.email.value) ==>
        reply == Message(401, UnknownEmail) && users == old(users)
      ensures Present(body.email) && Present(body.password) ==>
        forall id :: id in old(users) && old(users)[id].email == body.email.value ==>
          var u := old(users)[id];
          var payload := TokenPayload(u.id, u.role, u.fullName, u.email);
          if !hasher.compare(body.password.value, u.passwordHash) then
            reply == Message(401, WrongPassword) && users == old(users)
          else if sign(payload).Err? then
            reply == GlobalHandler(Raised(0, sign(payload).error)) && users == old(users)
          else
            users == old(users)[id := u.(lastLogin := Some(now))] &&
            reply == Data(200, LoginAnswer(LoggedIn, sign(payload).value, Public(u)))
    {
      if !(Present(body.email) && Present(body.password)) {
        return Message(400, MissingLoginFields);
      }
      var found := FindByEmail(body.email.value);
      if found.None? {
        return Message(401, UnknownEmail);
      }
      var u := users[found.value];
      if !hasher.compare(body.password.value, u.passwordHash) {
        return Message(401, WrongPassword);
      }
      var signed := sign(TokenPayload(u.id, u.role, u.fullName, u.email));
      if signed.Err? {
        return GlobalHandler(Raised(0, signed.error));
      }
      users := users[u.id := u.(lastLogin := Some(now))];
      reply := Data(200, LoginAnswer(LoggedIn, signed.value, Public(u)));
    }

    /** Registering and then logging in with the same credentials succeeds
        when bcrypt hashes without error and accepts a password against its
        own hash, the database takes the row, and signing succeeds; the
        login returns the user just registered. */
    method RegisterThenLogin(fullName: string, email: string, password: string, hasher: Hasher,
                             engine: User -> Option<DbError>, sign: TokenPayload -> Result<string, string>, now: int)
      returns (first: Reply<RegisterAnswer>, second: Reply<LoginAnswer>)
      requires Valid()
      requires fullName != "" && email != "" && password != ""
      requires forall id :: id in users ==> users[id].email != email
      requires forall c :: hasher.genSalt(c).Ok?
      requires forall pw, s :: hasher.hash(pw, s).Ok? && hasher.compare(pw, hasher.hash(pw, s).value)
      requires forall u :: engine(u).None?
      requires forall p :: sign(p).Ok?
      modifies this
      ensures Valid()
      ensures first.Data? && first.status == 201
      ensures second.Data? && second.status == 200 && second.payload.user == first.payload.user
    {
      first := Register(RegisterBody(Some(fullName), Some(email), Some(password), None), hasher, engine);
      ghost var id := nextId - 1;
      assert id in users && users[id].email == email;
      second := Login(LoginBody(Some(email), Some(password)), hasher, sign, now);
    }
  }
}
