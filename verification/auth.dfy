/** Signup and login over the user collection. The collection is a map
    from the stored (trimmed, lower-cased) e-mail to the account, since the
    e-mail is declared unique; hashing, comparing and token signing are
    parameters. */
module Auth {
  import opened Wrappers
  import opened Text
  import opened UserModel

  /** A stored user; `password` holds the hash. */
  datatype Account = Account(id: nat, email: string, password: string)

  /** A JSON reply: its status, its `message` and, on login, its `token`. */
  datatype Reply = Reply(status: nat, message: string, token: Option<string>)

  /** bcrypt's `hash` (None when it throws), bcrypt's `compare`, and
      `jwt.sign` of a user id with the secret and the one-hour expiry (None
      when it throws). */
  datatype Crypto = Crypto(hash: string -> Option<string>, compare: (string, string) -> bool, sign: nat -> Option<string>)

  /** A password always matches its own hash. */
  ghost predicate Sound(c: Crypto) {
    forall p, h :: c.hash(p) == Some(h) ==> c.compare(p, h)
  }

  const UserExists := "User already exists"
  const SignedUp := "You're all set! Thanks for signing up"
  const ServerError := "Server error"
  const LoginPasswordRequired := "Password is required"
  const BadCredentials := "Invalid email or password"
  const Welcome := "Welcome back!"

  /** Every account is filed under its own stored e-mail, which is a valid
      address. */
  predicate Keyed(users: map<string, Account>) {
    forall k :: k in users ==> users[k].email == k && EmailShape(k)
  }

  datatype Outcome = Outcome(reply: Reply, users: map<string, Account>)

  /** signup: the lookup by e-mail, then validation, then the hook's hash,
      then the insert. A missing e-mail is looked up as null, which no
      stored account has. */
  function SignupOutcome(users: map<string, Account>, email: Option<string>, password: Option<string>,
                         newId: nat, c: Crypto): (r: Outcome)
    ensures var key := NormalizeEmail(email);
      key.Some? && key.value in users ==> r == Outcome(Reply(400, UserExists, None), users)
    ensures var key := NormalizeEmail(email);
      !(key.Some? && key.value in users) && FirstError(key, password).Some? ==>
        r == Outcome(Reply(400, FirstError(key, password).value, None), users)
    ensures r.reply.status != 201 ==> r.users == users
    ensures r.reply.status == 201 <==>
      var key := NormalizeEmail(email);
      && key.Some? && key.value !in users && FirstError(key, password).None?
      && c.hash(password.value).Some?
    ensures var key := NormalizeEmail(email);
      !(key.Some? && key.value in users) && FirstError(key, password).None? && c.hash(password.value).None? ==>
        r == Outcome(Reply(500, ServerError, None), users)
  {
    var key := NormalizeEmail(email);
    if key.Some? && key.value in users then Outcome(Reply(400, UserExists, None), users)
    else match FirstError(key, password)
      case Some(m) => Outcome(Reply(400, m, None), users)
      case None =>
        match c.hash(password.value)
        case None => Outcome(Reply(500, ServerError, None), users)
        case Some(h) => Outcome(Reply(201, SignedUp, None), users[key.value := Account(newId, key.value, h)])
  }

  /** login: the input checks in order on the e-mail as given, then the
      lookup, the password comparison and the token. */
  function LoginReply(users: map<string, Account>, email: Option<string>, password: Option<string>, c: Crypto): (r: Reply)
    ensures email.None? || email.value == "" ==> r == Reply(400, EmailRequired, None)
    ensures email.Some? && email.value != "" && !EmailShape(email.value) ==> r == Reply(400, EmailInvalid, None)
    ensures email.Some? && EmailShape(email.value) && (password.None? || password.value == "") ==>
      r == Reply(400, LoginPasswordRequired, None)
    ensures email.Some? && EmailShape(email.value) && password.Some? && password.value != "" ==>
      var key := NormalizeEmail(email).value;
      && (key !in users ==> r == Reply(400, BadCredentials, None))
      && (key in users && !c.compare(password.value, users[key].password) ==> r == Reply(400, BadCredentials, None))
    ensures r.token.Some? <==>
      && email.Some? && EmailShape(email.value) && password.Some? && password.value != ""
      && NormalizeEmail(email).value in users
      && c.compare(password.value, users[NormalizeEmail(email).value].password)
      && c.sign(users[NormalizeEmail(email).value].id).Some?
    ensures r.token.Some? ==> r == Reply(200, Welcome, c.sign(users[NormalizeEmail(email).value].id))
    ensures email.Some? && EmailShape(email.value) && password.Some? && password.value != "" ==>
      var key := NormalizeEmail(email).value;
      key in users && c.compare(password.value, users[key].password) && c.sign(users[key].id).None? ==>
        r == Reply(500, ServerError, None)
  {
    if email.None? || email.value == "" then Reply(400, EmailRequired, None)
    else if !EmailShape(email.value) then Reply(400, EmailInvalid, None)
    else if password.None? || password.value == "" then Reply(400, LoginPasswordRequired, None)
    else
      var key := NormalizeEmail(email).value;
      if key !in users then Reply(400, BadCredentials, None)
      else if !c.compare(password.value, users[key].password) then Reply(400, BadCredentials, None)
      else match c.sign(users[key].id)
        case None => Reply(500, ServerError, None)
        case Some(token) => Reply(200, Welcome, Some(token))
  }

  /** A successful signup adds exactly one account, under the stored
      e-mail, with the new id and the hash of the password, and keeps every
      other account as it was. */
  lemma SignupAddsOne(users: map<string, Account>, email: Option<string>, password: Option<string>, newId: nat, c: Crypto)
    requires SignupOutcome(users, email, password, newId, c).reply.status == 201
    ensures var r := SignupOutcome(users, email, password, newId, c);
      var key := NormalizeEmail(email).value;
      && r.reply == Reply(201, SignedUp, None)
      && key !in users && r.users.Keys == users.Keys + {key}
      && (forall k :: k in users ==> r.users[k] == users[k])
      && r.users[key].id == newId && r.users[key].email == key
      && c.hash(password.value) == Some(r.users[key].password)
  {
  }

  /** Signup keeps every account filed under its own valid e-mail. */
  lemma SignupKeepsKeyed(users: map<string, Account>, email: Option<string>, password: Option<string>, newId: nat, c: Crypto)
    requires Keyed(users)
    ensures Keyed(SignupOutcome(users, email, password, newId, c).users)
  {
  }

  /** Once an e-mail signed up, signing up again with it, in any letter
      case and padding, is refused and changes nothing. */
  lemma SignupOnce(users: map<string, Account>, email: string, password: Option<string>, newId: nat, c: Crypto,
                   again: string, password2: Option<string>, newId2: nat)
    requires SignupOutcome(users, Some(email), password, newId, c).reply.status == 201
    requires ToLower(Trim(again)) == ToLower(Trim(email))
    ensures var after := SignupOutcome(users, Some(email), password, newId, c).users;
      SignupOutcome(after, Some(again), password2, newId2, c) == Outcome(Reply(400, UserExists, None), after)
  {
  }

  /** With a sound hash, the e-mail and password just signed up with log
      in: the reply carries the token signed for the new account. */
  lemma SignupThenLogin(users: map<string, Account>, email: string, password: string, newId: nat, c: Crypto)
    requires Sound(c) && Trim(email) == email && NoKelvin(email)
    requires SignupOutcome(users, Some(email), Some(password), newId, c).reply.status == 201
    requires c.sign(newId).Some?
    ensures var after := SignupOutcome(users, Some(email), Some(password), newId, c).users;
      LoginReply(after, Some(email), Some(password), c) == Reply(200, Welcome, c.sign(newId))
  {
    var key := ToLower(email);
    assert NormalizeEmail(Some(email)) == Some(key);
    assert EmailShape(key);
    LowerKeepsShape(email);
    var after := SignupOutcome(users, Some(email), Some(password), newId, c).users;
    assert c.compare(password, after[key].password);
  }

  /** The address U+212A KELVIN SIGN followed by "a@b.com". */
  const KelvinAddress: string := [KelvinSign] + "a@b.com"

  /** As written, signup validates the stored (lower-cased) address while
      login validates the address as typed: an address with a Kelvin sign
      signs up as "ka@b.com" and can then never log in with what was typed. */
  lemma KelvinSignupCannotLogin(users: map<string, Account>, password: string, newId: nat, c: Crypto)
    requires "ka@b.com" !in users
    requires PasswordError(Some(password)).None? && c.hash(password).Some?
    ensures var r := SignupOutcome(users, Some(KelvinAddress), Some(password), newId, c);
      && r.reply.status == 201 && "ka@b.com" in r.users
      && LoginReply(r.users, Some(KelvinAddress), Some(password), c) == Reply(400, EmailInvalid, None)
  {
    KelvinStored();
    KaShape();
    KelvinInvalid();
  }

  /** The setters store the Kelvin address as "ka@b.com". */
  lemma KelvinStored()
    ensures NormalizeEmail(Some(KelvinAddress)) == Some("ka@b.com")
  {
    var e := KelvinAddress;
    assert Trim(e) == e by {
      TrimPadded([], e, []);
      assert [] + e + [] == e;
    }
    assert ToLower(e) == "ka@b.com";
  }

  /** As typed, the Kelvin address does not match the pattern: the Kelvin
      sign is no word character. */
  lemma KelvinInvalid()
    ensures KelvinAddress != "" && !EmailShape(KelvinAddress)
  {
    var e := KelvinAddress;
    forall i | 0 <= i < |e| && e[i] == '@' ensures !Dotted(e[..i]) {
      assert e[..i][0] == KelvinSign;
    }
  }

  /** "ka@b.com" is a valid address. */
  lemma KaShape()
    ensures EmailShape("ka@b.com")
  {
    var s := "ka@b.com";
    assert s[..2] == "ka" && s[3..] == "b.com";
    assert Dotted("ka");
    DomainB();
  }

  lemma DomainB()
    ensures DomainShape("b.com")
  {
    var t := "b.com";
    assert Dotted(t);
    assert t[1] == '.' && t[2..] == "com" && Word("com");
  }

  /** login as evidently intended: the e-mail passes through the schema's
      setters before it is checked, so it is validated in the form signup
      stored. */
  function NormalizedLoginReply(users: map<string, Account>, email: Option<string>, password: Option<string>, c: Crypto): Reply
  {
    LoginReply(users, NormalizeEmail(email), password, c)
  }

  /** With a sound hash, every e-mail and password that signed up log in
      under the intended login, whatever padding, letter case or Kelvin
      sign the e-mail was typed with. */
  lemma SignupThenLoginNormalized(users: map<string, Account>, email: string, password: string, newId: nat, c: Crypto)
    requires Sound(c)
    requires SignupOutcome(users, Some(email), Some(password), newId, c).reply.status == 201
    requires c.sign(newId).Some?
    ensures var after := SignupOutcome(users, Some(email), Some(password), newId, c).users;
      NormalizedLoginReply(after, Some(email), Some(password), c) == Reply(200, Welcome, c.sign(newId))
  {
    var key := NormalizeEmail(Some(email)).value;
    NormalizeIdempotent(Some(email));
    assert EmailShape(key);
    var after := SignupOutcome(users, Some(email), Some(password), newId, c).users;
    assert c.compare(password, after[key].password);
  }

  /** An unknown e-mail and a wrong password get the same reply. */
  lemma LoginHidesWhichFailed(users: map<string, Account>, unknown: string, known: string, p: string, q: string, c: Crypto)
    requires EmailShape(unknown) && EmailShape(known) && p != "" && q != ""
    requires NormalizeEmail(Some(unknown)).value !in users
    requires NormalizeEmail(Some(known)).value in users
    requires !c.compare(q, users[NormalizeEmail(Some(known)).value].password)
    ensures LoginReply(users, Some(unknown), Some(p), c) == LoginReply(users, Some(known), Some(q), c)
  {
  }

  /** The user collection. */
  class UserStore {
    var users: map<string, Account>

    constructor ()
      ensures users == map[]
    {
      users := map[];
    }

    /** signup: looks the e-mail up, builds the document, saves it (which
        validates and hashes), and files the account on success. */
    method Signup(email: Option<string>, password: Option<string>, newId: nat, c: Crypto) returns (reply: Reply)
      modifies this
      ensures var o := SignupOutcome(old(users), email, password, newId, c);
        reply == o.reply && users == o.users
    {
      var key := NormalizeEmail(email);
      if key.Some? && key.value in users {
        return Reply(400, UserExists, None);
      }
      var user := new UserDocument(email, password);
      var outcome := user.Save(c.hash);
      match outcome
      case Invalid(message) =>
        reply := Reply(400, message, None);
      case Failed =>
        reply := Reply(500, ServerError, None);
      case Stored =>
        users := users[user.email.value := Account(newId, user.email.value, user.password.value)];
        reply := Reply(201, SignedUp, None);
    }

    /** login: an early-return chain that only reads the collection. */
    method Login(email: Option<string>, password: Option<string>, c: Crypto) returns (reply: Reply)
      ensures reply == LoginReply(users, email, password, c)
    {
      if email.None? || email.value == "" {
        return Reply(400, EmailRequired, None);
      }
      if !EmailShape(email.value) {
        return Reply(400, EmailInvalid, None);
      }
      if password.None? || password.value == "" {
        return Reply(400, LoginPasswordRequired, None);
      }
      var key := NormalizeEmail(email).value;
      if key !in users {
        return Reply(400, BadCredentials, None);
      }
      var user := users[key];
      var isMatch := c.compare(password.value, user.password);
      if !isMatch {
        return Reply(400, BadCredentials, None);
      }
      var token := c.sign(user.id);
      if token.None? {
        return Reply(500, ServerError, None);
      }
      reply := Reply(200, Welcome, token);
    }
  }
}
