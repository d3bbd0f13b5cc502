/** The four user handlers as the imperative code they are, over the code store, the keystore, the
    user table and the mail service. Module HandlerRuns shows that a call of each is a run of its
    thread in Protocol. */
module Handlers {
  import opened Prelude
  import KeyRing
  import KS = KeyStore
  import opened Tokens
  import opened Otp
  import opened Validate
  import opened Protocol
  import Web

  // ---------------------------------------------------------------- Auth

  class Auth {
    const ks: KS.KeyStore

    constructor (ks: KS.KeyStore)
      ensures this.ks == ks
    {
      this.ks := ks;
    }

    /** Signs with the active key and names it in the header; no key, no token. */
    method Token(claims: Claims) returns (r: Option<Token>)
      ensures ks.Typed() ==>
        r == if ks.active in ks.keys then Some(Sign(ks.active, ks.keys[ks.active], claims)) else None
    {
      var kid, found := ks.Active();
      match found
      case Found(key) => r := Some(Jwt(Some(kid), claims, key.signer));
      case _ => r := None;
    }

    /** Verifies under the key the header names, then looks at the dates. */
    method ParseToken(tk: Token) returns (r: Result<Payload, ParseError>)
      modifies ks.clock
      ensures old(ks.clock.now) <= ks.clock.now
      ensures ks.Typed() ==> r == Parse(ks.keys, ks.clock.now, tk)
    {
      match tk
      case NotAJwt => r := Err(Malformed);
      case Jwt(kid, claims, signedBy) =>
        if kid.None? {
          return Err(ErrInvalidToken);
        }
        var found := ks.Signer(kid.value);
        if !found.Found? {
          return Err(UnknownKey);
        }
        if signedBy != found.key.signer {
          return Err(BadSignature);
        }
        var now := ks.clock.Now();
        r := if claims.exp <= now then Err(Expired)
             else if now < claims.nbf then Err(NotYetValid)
             else Ok(claims.payload);
    }

    method ParseFromBearer(cfg: Config, header: string) returns (r: Result<Payload, ParseError>)
      modifies ks.clock
      ensures old(ks.clock.now) <= ks.clock.now
      ensures ks.Typed() ==> r == Parse(ks.keys, ks.clock.now, Presented(cfg, header))
      ensures !IsBearer(header) ==> r == Err(Malformed)
    {
      NoBearerNoToken(header);
      var text := BearerToken(header);
      if text.None? {
        return Err(Malformed);
      }
      r := ParseToken(cfg.decode(text.value));
    }
  }

  // ---------------------------------------------------------------- mail and user table

  class Mailer {
    var sent: seq<(string, string)>

    method Send(to: string, code: string, fault: bool) returns (ok: bool)
      modifies this
      ensures ok == !fault && sent == if fault then old(sent) else old(sent) + [(to, code)]
    {
      ok := !fault;
      if ok {
        sent := sent + [(to, code)];
      }
    }
  }

  class UserTable {
    var rows: map<nat, Row>

    /** An error while rows are read looks as if there were no row. */
    method LookUpEmail(email: string, q: Query) returns (failed: bool, r: Option<Row>)
      ensures failed <==> q.Fails?
      ensures UsersOk(rows) ==> r == if q.Works? then FindUser(rows, email) else None
    {
      failed, r := q.Fails?, None;
      if q.Works? {
        if id :| id in rows.Keys && rows[id].email == email {
          r := Some(rows[id]);
        }
      }
    }

    /** Inserts the row under the id the database assigns, or fails and changes nothing. */
    method Create(username: string, name: string, email: string, password: string, id: nat, fault: bool)
        returns (ok: bool)
      requires 1 <= id && id !in rows
      modifies this
      ensures ok <==> !fault && !Conflict(old(rows), email, username)
      ensures ok <==> !fault && forall i :: i in old(rows) ==>
        old(rows)[i].email != email && old(rows)[i].username != username
      ensures UsersOk(old(rows)) ==>
        (ok <==> !fault && UsersOk(old(rows)[id := Row(id, username, name, email, Bcrypt(password))]))
      ensures rows == if ok then old(rows)[id := Row(id, username, name, email, Bcrypt(password))] else old(rows)
      ensures UsersOk(old(rows)) ==> UsersOk(rows)
    {
      ok := !fault && !(exists i :: i in rows && (rows[i].email == email || rows[i].username == username));
      if UsersOk(rows) {
        TakenIff(rows, Row(id, username, name, email, Bcrypt(password)));
      }
      if ok {
        rows := rows[id := Row(id, username, name, email, Bcrypt(password))];
      }
    }
  }

  // ---------------------------------------------------------------- answers

  datatype Answer = Respond(status: int, token: Option<Token>) | Fail(e: Web.Error)

  /** What the client is told once the Errors middleware has dealt with an error. */
  function StatusOf(a: Answer): int {
    match a
    case Respond(status, _) => status
    case Fail(e) => Web.ReplyFor(e).status
  }

  function TokenOf(a: Answer): Option<Token> {
    if a.Respond? then a.token else None
  }

  function EUE(message: string, status: int): Web.Error {
    Web.EndUser(Web.EndUserError(message, status, map[]))
  }

  const MALFORMED := EUE("request body is malformed", 400)
  const INVALID_FIELDS := Web.Wrapped("validation", Web.FieldErrors([]))

  function Because(what: string): Web.Error {
    Web.Wrapped(what, Web.Plain("cause"))
  }

  // ---------------------------------------------------------------- what a request does

  /** The answer to a request and what it leaves in the code store, the mailbox and the table. */
  datatype Effect = Effect(
    status: int, token: Option<Token>, cache: map<string, string>, mails: seq<(string, string)>, users: map<nat, Row>)

  /** A request body: None when it is not the JSON object the route expects. The flags say which
      calls fail, `code` what code generation delivers. */
  datatype EmailInput = EmailInput(
    body: Option<string>, lookup: Query, existsFails: bool, code: Option<string>, messageFails: bool,
    sendFails: bool, saveFails: bool)

  ghost function EmailEffect(cfg: Config, cache: map<string, string>, users: map<nat, Row>, x: EmailInput): Effect {
    var refused := (status: int) => Effect(status, None, cache, [], users);
    if x.body.None? || !EmailShape(cfg.rules, x.body.value) then refused(400)
    else if x.lookup.Fails? then refused(500)
    else if x.lookup.Works? && FindUser(users, x.body.value).Some? then refused(400)
    else if x.existsFails then refused(500)
    else if x.body.value in cache then refused(425)
    else MailEffect(cache, users, x.body.value, x.code, x.messageFails, x.sendFails, x.saveFails)
  }

  ghost function MailEffect(cache: map<string, string>, users: map<nat, Row>, email: string, code: Option<string>,
                            messageFails: bool, sendFails: bool, saveFails: bool): Effect {
    if code.None? || messageFails then Effect(500, None, cache, [], users)
    else if sendFails then Effect(503, None, cache, [], users)
    else
      var mails := [(email, code.value)];
      if saveFails then Effect(500, None, cache, mails, users)
      else Effect(204, None, cache[email := code.value], mails, users)
  }

  /** Two readings of the clock, taken by the claims constructors. */
  datatype Readings = Readings(exp: Time, nbf: Time)

  ghost function MintEffect(cfg: Config, cache: map<string, string>, users: map<nat, Row>, keys: map<nat, KeyRing.Key>,
                            active: nat, payload: Payload, lifetime: int, respondFails: bool, at: Readings): Effect {
    if active !in keys || respondFails then Effect(500, None, cache, [], users)
    else
      var claims := NewClaims(payload, lifetime, cfg.precision, at.exp, at.nbf);
      Effect(200, Some(Sign(active, keys[active], claims)), cache, [], users)
  }

  datatype OtpInput = OtpInput(body: Option<(string, string)>, checkFails: bool, respondFails: bool)

  ghost function OtpEffect(cfg: Config, cache: map<string, string>, users: map<nat, Row>, keys: map<nat, KeyRing.Key>,
                           active: nat, x: OtpInput, at: Readings): Effect {
    var refused := (status: int) => Effect(status, None, cache, [], users);
    if x.body.None? || !EmailShape(cfg.rules, x.body.value.0) || !OtpShape(x.body.value.1) then refused(400)
    else
      var (email, otp) := x.body.value;
      if x.checkFails || email !in cache || cache[email] != otp then refused(401)
      else
        MintEffect(cfg, cache - {email}, users, keys, active, EmailVerified(email), cfg.verifyLife, x.respondFails, at)
  }

  datatype NewUser = NewUser(name: string, username: string, password: string)

  /** `id` is what the database would assign. */
  datatype RegisterInput = RegisterInput(body: Option<NewUser>, header: string, id: nat, createFails: bool)

  ghost function RegisterEffect(cfg: Config, cache: map<string, string>, users: map<nat, Row>,
                                keys: map<nat, KeyRing.Key>, now: Time, x: RegisterInput): Effect {
    var refused := (status: int) => Effect(status, None, cache, [], users);
    if x.body.None? || !NewUserShape(cfg.rules, x.body.value.name, x.body.value.username, x.body.value.password)
    then refused(400)
    else
      var parsed := Parse(keys, now, Presented(cfg, x.header));
      if parsed.Err? then refused(401)
      else if x.createFails || Conflict(users, EmailOf(parsed.value), x.body.value.username) then refused(500)
      else
        var NewUser(name, username, password) := x.body.value;
        var row := Row(x.id, username, name, EmailOf(parsed.value), Bcrypt(password));
        Effect(201, None, cache, [], users[x.id := row])
  }

  datatype LoginInput = LoginInput(body: Option<(string, string)>, lookup: Query, respondFails: bool)

  ghost function LoginEffect(cfg: Config, cache: map<string, string>, users: map<nat, Row>, keys: map<nat, KeyRing.Key>,
                             active: nat, x: LoginInput, at: Readings): Effect {
    var refused := (status: int) => Effect(status, None, cache, [], users);
    if x.body.None? || !LoginShape(cfg.rules, x.body.value.0, x.body.value.1) then refused(400)
    else if x.lookup.Fails? then refused(500)
    else
      var found := if x.lookup.Misses? then None else FindUser(users, x.body.value.0);
      if found.None? then refused(400)
      else if !Accepts(found.value.hash, x.body.value.1) then refused(401)
      else MintEffect(cfg, cache, users, keys, active, User(found.value.id), cfg.sessionLife, x.respondFails, at)
  }

  // ---------------------------------------------------------------- what the answers mean

  predicate ValidAddress(cfg: Config, email: string) {
    email != "" && cfg.rules.isEmail(email)
  }

  /** What each answer of verifyEmail says: 400 for an invalid or a registered address, 425 while a code
      is live, 503 when the mail cannot be sent, 204 when the code mailed is now live, 500 otherwise.
      Nothing is saved but with 204, and nothing else is mailed but the one code. */
  lemma VerifyEmailAnswers(cfg: Config, cache: map<string, string>, users: map<nat, Row>, x: EmailInput)
    ensures var e := EmailEffect(cfg, cache, users, x);
      var valid := x.body.Some? && ValidAddress(cfg, x.body.value);
      var free := valid && (x.lookup.Misses? ||
        (x.lookup.Works? && forall id :: id in users ==> users[id].email != x.body.value));
      var asked := free && !x.existsFails;
      var ready := asked && x.body.value !in cache && x.code.Some? && !x.messageFails;
      && (e.status == 400 <==> !valid || (x.lookup.Works? && !free))
      && (e.status == 425 <==> asked && x.body.value in cache)
      && (e.status == 503 <==> ready && x.sendFails)
      && (e.status == 204 <==> ready && !x.sendFails && !x.saveFails)
      && e.status in {204, 400, 425, 500, 503}
      && e.mails == (if ready && !x.sendFails then [(x.body.value, x.code.value)] else [])
      && e.cache == (if e.status == 204 then cache[x.body.value := x.code.value] else cache)
      && e.users == users && e.token == None
  {
  }

  /** What each answer of verifyOTP says: 400 for an invalid request, 401 without effect for a wrong
      code, 200 with a token for the address; the code is used up with 200 and with 500. */
  lemma VerifyOtpAnswers(cfg: Config, cache: map<string, string>, users: map<nat, Row>, keys: map<nat, KeyRing.Key>,
                         active: nat, x: OtpInput, at: Readings)
    ensures var e := OtpEffect(cfg, cache, users, keys, active, x, at);
      var valid := x.body.Some? && ValidAddress(cfg, x.body.value.0)
        && |x.body.value.1| == 6 && Numeric(x.body.value.1);
      var right := valid && !x.checkFails && x.body.value.0 in cache && cache[x.body.value.0] == x.body.value.1;
      && (e.status == 400 <==> !valid)
      && (e.status == 401 <==> valid && !right)
      && (e.status == 200 <==> right && active in keys && !x.respondFails)
      && e.status in {200, 400, 401, 500}
      && e.cache == (if right then cache - {x.body.value.0} else cache) && e.users == users && e.mails == []
      && (e.token.Some? <==> e.status == 200)
      && (e.status == 200 ==> e.token.value == Sign(active, keys[active],
            NewClaims(EmailVerified(x.body.value.0), cfg.verifyLife, cfg.precision, at.exp, at.nbf)))
  {
  }

  /** What each answer of register says: 400 for an invalid request, 401 for a token that does not parse,
      500 for data that is taken or a failing table, 201 for the new row; only 201 changes anything. */
  lemma RegisterAnswers(cfg: Config, cache: map<string, string>, users: map<nat, Row>,
                        keys: map<nat, KeyRing.Key>, now: Time, x: RegisterInput)
    ensures var e := RegisterEffect(cfg, cache, users, keys, now, x);
      var valid := x.body.Some?
        && NewUserShape(cfg.rules, x.body.value.name, x.body.value.username, x.body.value.password);
      var parsed := Parse(keys, now, Presented(cfg, x.header));
      var free := valid && parsed.Ok? && !x.createFails && forall id :: id in users ==>
        users[id].email != EmailOf(parsed.value) && users[id].username != x.body.value.username;
      && (e.status == 400 <==> !valid)
      && (e.status == 401 <==> valid && parsed.Err?)
      && (e.status == 201 <==> free)
      && e.status in {201, 400, 401, 500}
      && (valid && !IsBearer(x.header) ==> e.status == 401)
      && e.users == (if !free then users else users[x.id := Row(x.id, x.body.value.username, x.body.value.name,
                       EmailOf(parsed.value), Bcrypt(x.body.value.password))])
      && e.cache == cache && e.mails == [] && e.token == None
  {
    NoBearerNoToken(x.header);
  }

  /** What each answer of authenticate says: 400 for an invalid request or an unknown address, 401 for a
      password other than the account's, 200 with a token for the account. */
  lemma AuthenticateAnswers(cfg: Config, cache: map<string, string>, users: map<nat, Row>,
                            keys: map<nat, KeyRing.Key>, active: nat, x: LoginInput, at: Readings)
    requires UsersOk(users)
    ensures var e := LoginEffect(cfg, cache, users, keys, active, x, at);
      e.cache == cache && e.users == users && e.mails == [] && (e.token.Some? <==> e.status == 200)
    ensures x.body.None? || !ValidAddress(cfg, x.body.value.0) || !(8 <= |x.body.value.1| <= 32) ==>
      LoginEffect(cfg, cache, users, keys, active, x, at).status == 400
    ensures forall row, password :: LoginFor(cfg, users, x, row, password) ==>
      var e := LoginEffect(cfg, cache, users, keys, active, x, at);
      && (x.body.value.1 != password ==> e.status == 401)
      && (x.body.value.1 == password && active in keys && !x.respondFails ==>
            e.status == 200 && e.token.value == Sign(active, keys[active],
              NewClaims(User(row.id), cfg.sessionLife, cfg.precision, at.exp, at.nbf)))
  {
    forall row, password | LoginFor(cfg, users, x, row, password)
      ensures FindUser(users, x.body.value.0) == Some(row)
    {
    }
  }

  /** A valid login, whose lookup works, for the address of a stored account made with this password. */
  ghost predicate LoginFor(cfg: Config, users: map<nat, Row>, x: LoginInput, row: Row, password: string) {
    && x.body.Some? && LoginShape(cfg.rules, x.body.value.0, x.body.value.1) && x.lookup.Works?
    && row.id in users && users[row.id] == row && row.email == x.body.value.0 && row.hash == Bcrypt(password)
  }

  // ---------------------------------------------------------------- handlers

  class UserGroup {
    const cfg: Config
    const otp: OTP
    const a: Auth
    const users: UserTable
    const mail: Mailer

    constructor (cfg: Config, otp: OTP, a: Auth, users: UserTable, mail: Mailer)
      ensures this.cfg == cfg && this.otp == otp && this.a == a && this.users == users && this.mail == mail
    {
      this.cfg, this.otp, this.a, this.users, this.mail := cfg, otp, a, users, mail;
    }

    /** The group New builds around a fresh code store; a bad mail template fails it. */
    static method New(cfg: Config, a: Auth, users: UserTable, mail: Mailer, templateOk: bool) returns (r: UserGroup?)
      ensures r == null <==> !templateOk
      ensures r != null ==>
        && fresh(r) && fresh(r.otp) && r.otp.s == map[] && r.otp.codeLen == cfg.codeLen
        && r.cfg == cfg && r.a == a && r.users == users && r.mail == mail
    {
      if !templateOk {
        return null;
      }
      var otp := new OTP(cfg.codeLen);
      r := new UserGroup(cfg, otp, a, users, mail);
    }

    ghost predicate Valid()
      reads a.ks, otp, users
    {
      a.ks.Typed() && UsersOk(users.rows) && otp.codeLen == cfg.codeLen
    }

    /** The objects and the answer are as `e` says. */
    twostate predicate Did(e: Effect, r: Answer)
      reads this, otp, users, mail
    {
      && StatusOf(r) == e.status && TokenOf(r) == e.token
      && otp.s == e.cache && users.rows == e.users && mail.sent == old(mail.sent) + e.mails
    }

    /** `random` is the outcome of the random source. */
    method VerifyEmail(body: Option<string>, lookup: Query, existsFails: bool, random: Option<seq<Byte>>,
                       messageFails: bool, sendFails: bool, saveFails: bool) returns (r: Answer)
      requires Valid()
      requires random.Some? ==> |random.value| == cfg.codeLen
      modifies otp, mail
      ensures Valid()
      ensures var code := if random.None? then None else Some(Encode(random.value));
        Did(EmailEffect(cfg, old(otp.s), old(users.rows),
                        EmailInput(body, lookup, existsFails, code, messageFails, sendFails, saveFails)), r)
    {
      if body.None? {
        return Fail(MALFORMED);
      }
      var email := body.value;
      if !EmailShape(cfg.rules, email) {
        return Fail(INVALID_FIELDS);
      }
      var failed, row := users.LookUpEmail(email, lookup);
      if failed {
        return Fail(Because("lookup email"));
      }
      if row.Some? {
        return Fail(EUE("email is not unique", 400));
      }
      var exists_ := otp.Exists(email, existsFails);
      if exists_.Err? {
        return Fail(Because("check code exists"));
      }
      if exists_.value {
        return Fail(EUE("a code has been generated lately", 425));
      }
      r := MailCode(email, random, messageFails, sendFails, saveFails);
    }

    /** The rest of verifyEmail: the code is drawn, put into a message, mailed and only then saved. */
    method MailCode(email: string, random: Option<seq<Byte>>, messageFails: bool, sendFails: bool, saveFails: bool)
        returns (r: Answer)
      requires random.Some? ==> |random.value| == cfg.codeLen
      modifies otp, mail
      ensures var code := if random.None? then None else Some(Encode(random.value));
        Did(MailEffect(old(otp.s), users.rows, email, code, messageFails, sendFails, saveFails), r)
    {
      var code := GenCode(cfg.codeLen, random);
      if code.None? {
        return Fail(Because("generate otp code"));
      }
      if messageFails {
        return Fail(Because("message for otp"));
      }
      var sent := mail.Send(email, code.value, sendFails);
      if !sent {
        return Fail(Web.External(Because("send email verification mail")));
      }
      var saved := otp.Save(email, code.value, saveFails);
      if saved.Some? {
        return Fail(Because("save otp code"));
      }
      r := Respond(204, None);
    }

    /** The claims constructor and Auth.Token. */
    method Issue(payload: Payload, lifetime: int) returns (tk: Option<Token>, ghost at: Readings)
      requires Valid()
      modifies a.ks.clock
      ensures old(a.ks.clock.now) <= at.exp <= at.nbf <= a.ks.clock.now
      ensures tk.None? <==> a.ks.active !in a.ks.keys
      ensures tk.Some? ==>
        tk.value == Sign(a.ks.active, a.ks.keys[a.ks.active],
                         NewClaims(payload, lifetime, cfg.precision, at.exp, at.nbf))
    {
      var expRead := a.ks.clock.Now();
      var exp := NumericDate(expRead + lifetime, cfg.precision);
      var nbfRead := a.ks.clock.Now();
      var nbf := NumericDate(nbfRead, cfg.precision);
      at := Readings(expRead, nbfRead);
      tk := a.Token(Claims(payload, exp, nbf));
    }

    method VerifyOtp(body: Option<(string, string)>, checkFails: bool, respondFails: bool)
        returns (r: Answer, ghost at: Readings)
      requires Valid()
      modifies otp, a.ks.clock
      ensures Valid() && old(a.ks.clock.now) <= at.exp <= at.nbf <= a.ks.clock.now
      ensures Did(OtpEffect(cfg, old(otp.s), old(users.rows), a.ks.keys, a.ks.active,
                            OtpInput(body, checkFails, respondFails), at), r)
    {
      at := Readings(a.ks.clock.now, a.ks.clock.now);
      if body.None? {
        return Fail(MALFORMED), at;
      }
      var (email, code) := body.value;
      if !EmailShape(cfg.rules, email) || !OtpShape(code) {
        return Fail(INVALID_FIELDS), at;
      }
      var err := otp.Check(email, code, checkFails, otp.s);
      if err.Some? {
        return Fail(EUE("verification code is not valid", 401)), at;
      }
      var tk;
      tk, at := Issue(EmailVerified(email), cfg.verifyLife);
      if tk.None? {
        return Fail(Because("gen token for email verified")), at;
      }
      if respondFails {
        return Fail(Web.Plain("respond")), at;
      }
      r := Respond(200, tk);
    }

    /** The date of the header's token is checked at the last reading of the clock. */
    method Register(body: Option<NewUser>, header: string, id: nat, createFails: bool) returns (r: Answer)
      requires Valid() && 1 <= id && id !in users.rows
      modifies users, a.ks.clock
      ensures Valid() && old(a.ks.clock.now) <= a.ks.clock.now
      ensures Did(RegisterEffect(cfg, otp.s, old(users.rows), a.ks.keys, a.ks.clock.now,
                                 RegisterInput(body, header, id, createFails)), r)
    {
      if body.None? {
        return Fail(MALFORMED);
      }
      var NewUser(name, username, password) := body.value;
      if !NewUserShape(cfg.rules, name, username, password) {
        return Fail(INVALID_FIELDS);
      }
      var parsed := a.ParseFromBearer(cfg, header);
      if parsed.Err? {
        return Fail(EUE("token provided is not valid", 401));
      }
      var created := users.Create(username, name, EmailOf(parsed.value), password, id, createFails);
      if !created {
        return Fail(Because("create new user"));
      }
      r := Respond(201, None);
    }

    method Authenticate(body: Option<(string, string)>, lookup: Query, respondFails: bool)
        returns (r: Answer, ghost at: Readings)
      requires Valid()
      modifies a.ks.clock
      ensures Valid() && old(a.ks.clock.now) <= at.exp <= at.nbf <= a.ks.clock.now
      ensures Did(LoginEffect(cfg, otp.s, users.rows, a.ks.keys, a.ks.active,
                              LoginInput(body, lookup, respondFails), at), r)
    {
      at := Readings(a.ks.clock.now, a.ks.clock.now);
      if body.None? {
        return Fail(MALFORMED), at;
      }
      var (email, password) := body.value;
      if !LoginShape(cfg.rules, email, password) {
        return Fail(INVALID_FIELDS), at;
      }
      var failed, row := users.LookUpEmail(email, lookup);
      if failed {
        return Fail(Because("lookup")), at;
      }
      if row.None? {
        return Fail(EUE("this email is not registered", 400)), at;
      }
      if !Accepts(row.value.hash, password) {
        return Fail(EUE("wrong credentials", 401)), at;
      }
      var tk;
      tk, at := Issue(User(row.value.id), cfg.sessionLife);
      if tk.None? {
        return Fail(Because("gen token for authenticated user")), at;
      }
      if respondFails {
        return Fail(Web.Plain("respond")), at;
      }
      r := Respond(200, tk);
    }
  }
}
