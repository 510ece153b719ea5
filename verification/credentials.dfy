/**
 * The credential store behind `/api/auth`: a module-level list of users that
 * `register` appends to and `login` only reads. bcrypt is left abstract: a
 * `Bcrypt` value carries `hash` and `compare`.
 */
module Credentials {
  import opened Wrappers
  import opened Sequences
  import opened Records
  import opened Tokens

  /** `bcrypt.hash(password, rounds)` (salt drawn inside) and `bcrypt.compare(password, hash)`. */
  datatype Bcrypt = Bcrypt(hash: (string, nat) -> string, compare: (string, string) -> bool)

  const SaltRounds: nat := 10

  const MissingCredentials: string := "Email and password are required"
  const UserExists: string := "User already exists"
  const InvalidCredentials: string := "Invalid credentials"

  /** The assumption about the abstract pair: a password is accepted against its own hash. */
  predicate AcceptsOwnHash(b: Bcrypt, password: string)
  {
    b.compare(password, b.hash(password, SaltRounds))
  }

  /** The body of a successful register or login: a token and the public part of the user. */
  datatype Session = Session(token: string, user: Claims)

  /** `(u) => u.email === email`: exact, case-sensitive comparison. */
  function HasEmail(email: string): User -> bool
  {
    (u: User) => u.email == email
  }

  predicate EmailTaken(users: seq<User>, email: string)
  {
    exists i :: 0 <= i < |users| && users[i].email == email
  }

  predicate UniqueEmails(users: seq<User>)
  {
    forall i, j :: 0 <= i < j < |users| ==> users[i].email != users[j].email
  }

  predicate UniqueIds(users: seq<User>)
  {
    forall i, j :: 0 <= i < j < |users| ==> users[i].id != users[j].id
  }

  /** The only part of a user that a reply ever carries: no password hash. */
  function PublicView(u: User): Claims
  {
    Claims(u.id, u.email)
  }

  /** The session a reply hands out for a stored user. */
  function SessionFor(jwt: Jwt, u: User): Session
  {
    Session(GenerateToken(jwt, PublicView(u)), PublicView(u))
  }

  /** What the login handler answers, given the users stored when it runs. */
  function LoginOutcome(users: seq<User>, b: Bcrypt, jwt: Jwt, email: Option<string>, password: Option<string>): (r: Reply<Session>)
    ensures Falsy(email) || Falsy(password) ==> r == Failure(BadRequest, MissingCredentials)
    ensures r.Failure? && !Falsy(email) && !Falsy(password) ==> r == Failure(Unauthorized, InvalidCredentials)
    ensures !Falsy(email) && !EmailTaken(users, email.value) ==> r.Failure?
    ensures r.Success? ==> r.status == Ok
    ensures r.Success? ==> exists i :: 0 <= i < |users| && users[i].email == email.value
                                       && b.compare(password.value, users[i].password)
                                       && r.body == SessionFor(jwt, users[i])
  {
    if Falsy(email) || Falsy(password) then Failure(BadRequest, MissingCredentials)
    else
      match Find(users, HasEmail(email.value))
      case None => Failure(Unauthorized, InvalidCredentials)
      case Some(u) =>
        if b.compare(password.value, u.password) then Success(Ok, SessionFor(jwt, u))
        else Failure(Unauthorized, InvalidCredentials)
  }

  /** With unique emails, login succeeds exactly for a stored email whose hash accepts the password. */
  lemma LoginSucceedsIff(users: seq<User>, b: Bcrypt, jwt: Jwt, email: string, password: string)
    requires UniqueEmails(users)
    requires email != "" && password != ""
    ensures LoginOutcome(users, b, jwt, Some(email), Some(password)).Success?
        <==> exists i :: 0 <= i < |users| && users[i].email == email && b.compare(password, users[i].password)
  {
    var found := Find(users, HasEmail(email));
    if exists i :: 0 <= i < |users| && users[i].email == email && b.compare(password, users[i].password) {
      var i :| 0 <= i < |users| && users[i].email == email && b.compare(password, users[i].password);
      assert HasEmail(email)(users[i]);
      var k :| 0 <= k < |users| && users[k] == found.value && HasEmail(email)(users[k]);
      assert k == i;
    }
  }

  /** Registering `email` into a table without it keeps every email unique. */
  lemma {:induction false} AppendKeepsEmailsUnique(users: seq<User>, u: User)
    requires UniqueEmails(users)
    requires !EmailTaken(users, u.email)
    ensures UniqueEmails(users + [u])
  {
    forall i, j | 0 <= i < j < |users| + 1
      ensures (users + [u])[i].email != (users + [u])[j].email
    {
      if j == |users| {
        assert users[i].email != u.email;
      }
    }
  }

  /** Login right after a successful register of the same credentials returns the registered user. */
  lemma LoginAfterRegister(users: seq<User>, b: Bcrypt, jwt: Jwt, email: string, password: string, id: string)
    requires email != "" && password != ""
    requires !EmailTaken(users, email)
    requires AcceptsOwnHash(b, password)
    ensures LoginOutcome(users + [User(id, email, b.hash(password, SaltRounds))], b, jwt, Some(email), Some(password))
         == Success(Ok, Session(GenerateToken(jwt, Claims(id, email)), Claims(id, email)))
  {
    var u := User(id, email, b.hash(password, SaltRounds));
    var all := users + [u];
    assert all[|users|] == u;
    var found := Find(all, HasEmail(email));
    var k :| 0 <= k < |all| && all[k] == found.value && HasEmail(email)(all[k]);
    assert k == |users|;
  }

  /** The module-level `users` array and the two handlers over it. */
  class UserStore {
    var users: seq<User>
    const bcrypt: Bcrypt
    const jwt: Jwt

    /** No two stored users share an email or an id. */
    predicate Valid()
      reads this
    {
      UniqueEmails(users) && UniqueIds(users)
    }

    constructor (bcrypt: Bcrypt, jwt: Jwt)
      ensures Valid() && users == []
      ensures this.bcrypt == bcrypt && this.jwt == jwt
    {
      users := [];
      this.bcrypt := bcrypt;
      this.jwt := jwt;
    }

    /**
     * `POST /register`. `freshId` stands for `uuidv4()`, so it is not the id of
     * any stored user.
     */
    method Register(email: Option<string>, password: Option<string>, freshId: string) returns (r: Reply<Session>)
      requires Valid()
      requires forall i :: 0 <= i < |users| ==> users[i].id != freshId
      modifies this`users
      ensures Valid()
      ensures Falsy(email) || Falsy(password) ==> r == Failure(BadRequest, MissingCredentials) && users == old(users)
      ensures !Falsy(email) && !Falsy(password) && EmailTaken(old(users), email.value)
              ==> r == Failure(BadRequest, UserExists) && users == old(users)
      ensures r.Success? <==> !Falsy(email) && !Falsy(password) && !EmailTaken(old(users), email.value)
      ensures r.Success? ==>
                var u := User(freshId, email.value, bcrypt.hash(password.value, SaltRounds));
                users == old(users) + [u] && r == Success(Created, SessionFor(jwt, u))
    {
      if Falsy(email) || Falsy(password) {
        return Failure(BadRequest, MissingCredentials);
      }
      var existing := Find(users, HasEmail(email.value));
      if existing.Some? {
        return Failure(BadRequest, UserExists);
      }
      var hashed := bcrypt.hash(password.value, SaltRounds);
      var newUser := User(freshId, email.value, hashed);
      AppendKeepsEmailsUnique(users, newUser);
      users := users + [newUser];
      var token := GenerateToken(jwt, Claims(newUser.id, newUser.email));
      r := Success(Created, Session(token, Claims(newUser.id, newUser.email)));
    }

    /** `POST /login`: reads the store, never changes it. */
    method Login(email: Option<string>, password: Option<string>) returns (r: Reply<Session>)
      ensures r == LoginOutcome(users, bcrypt, jwt, email, password)
    {
      if Falsy(email) || Falsy(password) {
        return Failure(BadRequest, MissingCredentials);
      }
      var user := Find(users, HasEmail(email.value));
      if user.None? {
        return Failure(Unauthorized, InvalidCredentials);
      }
      var isValidPassword := bcrypt.compare(password.value, user.value.password);
      if !isValidPassword {
        return Failure(Unauthorized, InvalidCredentials);
      }
      var token := GenerateToken(jwt, Claims(user.value.id, user.value.email));
      r := Success(Ok, Session(token, Claims(user.value.id, user.value.email)));
    }
  }

  /**
   * Registering twice with the same email, then logging in: the first register
   * succeeds, the second is refused, and login returns the registered user
   * with a token that verifies to that same user.
   */
  method RegisterTwiceThenLogin(store: UserStore, email: string, password: string, id1: string, id2: string)
      returns (first: Reply<Session>, second: Reply<Session>, login: Reply<Session>)
    requires store.Valid()
    requires email != "" && password != "" && !EmailTaken(store.users, email)
    requires id1 != id2
    requires forall i :: 0 <= i < |store.users| ==> store.users[i].id != id1 && store.users[i].id != id2
    requires AcceptsOwnHash(store.bcrypt, password)
    requires IssuedTokensVerify(store.jwt, Claims(id1, email))
    modifies store
    ensures first.Success? && first.status == Created && first.body.user == Claims(id1, email)
    ensures second == Failure(BadRequest, UserExists)
    ensures login.Success? && login.status == Ok && login.body.user == first.body.user
    ensures store.jwt.verify(login.body.token) == Some(first.body.user)
    ensures store.jwt.verify(first.body.token) == Some(first.body.user)
  {
    var before := store.users;
    first := store.Register(Some(email), Some(password), id1);
    assert store.users[|before|].email == email;
    second := store.Register(Some(email), Some(password), id2);
    LoginAfterRegister(before, store.bcrypt, store.jwt, email, password, id1);
    login := store.Login(Some(email), Some(password));
  }
}
