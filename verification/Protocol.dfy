/**
  The registration protocol: e-mail verification codes, tokens and accounts, on top of the
  rotating keystore.

  Every request is a thread; every call a handler makes to the code store, the mail service, the
  user table, the clock or the keystore is one step, and steps of different threads, of the
  rotation goroutine and of the cache's own evictions interleave freely. What happened is kept
  in `log`, which no step reads.
*/
module Protocol {
  import opened Prelude
  import KeyRing
  import opened Tokens
  import opened Otp
  import opened Validate

  datatype Config = Config(
    life: nat,              // expiration period of keys
    precision: Precision,   // of dates in tokens
    verifyLife: int,        // lifetime of tokens for a verified e-mail
    sessionLife: int,       // lifetime of session tokens
    codeLen: nat,
    rules: Rules,
    decode: string -> Token // what a token string says
  )

  /** A password hash accepts the password it was made from. */
  datatype Hash = Bcrypt(password: string)

  predicate Accepts(h: Hash, password: string) {
    h.password == password
  }

  datatype Row = Row(id: nat, username: string, name: string, email: string, hash: Hash)

  datatype Request =
    | Garbled                                   // body is not the JSON object the route expects
    | VerifyEmail(email: string)
    | VerifyOtp(email: string, otp: string)
    | Register(name: string, username: string, password: string, header: string)
    | Login(email: string, password: string)
    | Access(header: string)                    // any route behind the Auth middleware

  /** On what ground a token is issued. */
  datatype Why = ByCode(email: string, code: string) | ByPassword(row: Row, password: string)

  /** Where a handler stands: the next call it is going to make. */
  datatype Thread =
    | EmailLookup(email: string)
    | EmailExists(email: string)
    | EmailCode(email: string)
    | EmailSend(email: string, code: string)
    | EmailSave(email: string, code: string)
    | OtpGet(email: string, otp: string)
    | OtpDel(email: string, code: string)
    | MintExp(payload: Payload, lifetime: int, why: Why)
    | MintNbf(payload: Payload, exp: Time, why: Why)
    | MintActive(claims: Claims, why: Why)
    | MintLoad(claims: Claims, why: Why, kid: nat)
    | RegParse(name: string, username: string, password: string, header: string)
    | RegCreate(name: string, username: string, password: string, tk: Token, why: Why)
    | LoginLookup(email: string, password: string)
    | LoginCompare(row: Row, password: string)
    | AccessParse(header: string)
    | Inner(id: int)                            // the handler behind Auth, with this user id
    | Done(status: int, token: Option<Token>)

  datatype Event =
    | Mailed(email: string, code: string)
    | Saved(email: string, code: string)
    | Lost(email: string)                       // a live code evicted or overwritten
    | Checked(email: string, code: string)      // Check has returned success
    | Cleared(email: string)                    // the Del of a Check removed a live code
    | Issued(tk: Token, why: Why)
    | Created(row: Row, tk: Token, why: Why)
    | LoggedIn(row: Row, password: string)
    | Admitted(id: int, tk: Token, why: Why)

  datatype State = State(
    ring: KeyRing.State,
    cache: map<string, string>,
    users: map<nat, Row>,
    threads: map<nat, Thread>,
    issued: map<Token, Why>,
    origin: map<nat, (Token, Why)>,   // for each account made by register
    log: seq<Event>
  )

  /** How the outside world decides a call: it works, it fails, a lookup misses a row that is there,
      the code drawn, the id assigned. */
  datatype Choice = Plain | Fault | Miss | Drawn(code: string) | Id(id: nat)

  /** How a lookup in the user table goes. An error while its rows are read is reported as no row. */
  datatype Query = Works | Fails | Misses

  function ChoiceOf(q: Query): Choice {
    match q
    case Works => Plain
    case Fails => Fault
    case Misses => Miss
  }

  datatype Step =
    | Ring(step: KeyRing.Step)
    | Evict(email: string)
    | Spawn(tid: nat, req: Request)
    | Go(tid: nat, choice: Choice)

  // ---------------------------------------------------------------- the user table

  ghost predicate UsersOk(users: map<nat, Row>) {
    && (forall id :: id in users ==> 1 <= id && users[id].id == id)
    && (forall i, j :: i in users && j in users && users[i].email == users[j].email ==> i == j)
    && (forall i, j :: i in users && j in users && users[i].username == users[j].username ==> i == j)
  }

  predicate Conflict(users: map<nat, Row>, email: string, username: string) {
    exists id :: id in users && (users[id].email == email || users[id].username == username)
  }

  /** Data is taken exactly if the row would break the constraints of the table. */
  lemma TakenIff(users: map<nat, Row>, row: Row)
    requires UsersOk(users) && 1 <= row.id && row.id !in users
    ensures Conflict(users, row.email, row.username) <==> !UsersOk(users[row.id := row])
  {
    var more := users[row.id := row];
    if Conflict(users, row.email, row.username) {
      var id :| id in users && (users[id].email == row.email || users[id].username == row.username);
      assert id in more && row.id in more && more[id] == users[id];
    }
  }

  ghost function FindUser(users: map<nat, Row>, email: string): (r: Option<Row>)
    ensures r.Some? ==> exists id :: id in users && users[id] == r.value && r.value.email == email
    ensures r.None? ==> forall id :: id in users ==> users[id].email != email
  {
    if exists id :: id in users && users[id].email == email
    then var id :| id in users && users[id].email == email; Some(users[id])
    else None
  }

  // ---------------------------------------------------------------- steps

  /** The token string of a bearer header, decoded. */
  function Presented(cfg: Config, header: string): Token {
    match BearerToken(header)
    case None => NotAJwt
    case Some(text) => cfg.decode(text)
  }

  /** Nobody but the program signs with the keystore's signers. */
  ghost predicate Unforged(s: State, tk: Token) {
    tk.Jwt? && tk !in s.issued ==>
      forall k :: k in s.ring.minted ==> tk.signedBy != s.ring.minted[k].signer
  }

  /** The record in a token; a string that is no token has none. */
  function PayloadOf(tk: Token): Payload {
    if tk.Jwt? then tk.claims.payload else EmailVerified("")
  }

  /** The ground on which tk was issued, for the log. */
  function WhyOf(s: State, tk: Token): Why {
    if tk in s.issued then s.issued[tk] else ByCode("", "")
  }

  /** What decoding and validating the body makes of a request. */
  ghost function Begin(cfg: Config, req: Request): Thread {
    match req
    case Garbled => Done(400, None)
    case VerifyEmail(email) =>
      if EmailShape(cfg.rules, email) then EmailLookup(email) else Done(400, None)
    case VerifyOtp(email, otp) =>
      if EmailShape(cfg.rules, email) && OtpShape(otp) then OtpGet(email, otp) else Done(400, None)
    case Register(name, username, password, header) =>
      if NewUserShape(cfg.rules, name, username, password)
      then RegParse(name, username, password, header) else Done(400, None)
    case Login(email, password) =>
      if LoginShape(cfg.rules, email, password) then LoginLookup(email, password) else Done(400, None)
    case Access(header) => AccessParse(header)
  }

  ghost predicate CanGo(cfg: Config, s: State, t: Thread, ch: Choice) {
    match t
    case EmailLookup(_) => ch.Plain? || ch.Fault? || ch.Miss?
    case EmailExists(_) => ch.Plain? || ch.Fault?
    case EmailCode(_) => ch.Fault? || (ch.Drawn? && IsCode(ch.code, cfg.codeLen))
    case EmailSend(_, _) => ch.Plain? || ch.Fault?
    case EmailSave(_, _) => ch.Plain? || ch.Fault?
    case OtpGet(_, _) => ch.Plain? || ch.Fault?
    case MintLoad(_, _, _) => ch.Plain? || ch.Fault?
    case RegParse(_, _, _, header) => ch.Plain? && Unforged(s, Presented(cfg, header))
    case RegCreate(_, username, _, tk, _) =>
      || ch.Fault?
      || (ch.Id? && 1 <= ch.id && ch.id !in s.users
          && !Conflict(s.users, EmailOf(PayloadOf(tk)), username))
    case LoginLookup(_, _) => ch.Plain? || ch.Fault? || ch.Miss?
    case AccessParse(header) => ch.Plain? && Unforged(s, Presented(cfg, header))
    case Inner(_) => false
    case Done(_, _) => false
    case _ => ch.Plain?
  }

  /** verifyEmail */
  ghost function EmailAct(cfg: Config, s: State, t: Thread, ch: Choice): (State, Thread)
    requires t.EmailLookup? || t.EmailExists? || t.EmailCode? || t.EmailSend? || t.EmailSave?
    requires CanGo(cfg, s, t, ch)
  {
    match t
    case EmailLookup(email) =>
      if ch.Fault? then (s, Done(500, None))
      else if ch.Plain? && FindUser(s.users, email).Some? then (s, Done(400, None))
      else (s, EmailExists(email))
    case EmailExists(email) =>
      if ch.Fault? then (s, Done(500, None))
      else if email in s.cache then (s, Done(425, None))
      else (s, EmailCode(email))
    case EmailCode(email) =>
      if ch.Fault? then (s, Done(500, None)) else (s, EmailSend(email, ch.code))
    case EmailSend(email, code) =>
      if ch.Fault? then (s, Done(503, None))
      else (s.(log := s.log + [Mailed(email, code)]), EmailSave(email, code))
    case EmailSave(email, code) =>
      if ch.Fault? then (s, Done(500, None))
      else
        var lost := if email in s.cache then [Lost(email)] else [];
        (s.(cache := s.cache[email := code], log := s.log + lost + [Saved(email, code)]), Done(204, None))
  }

  /** verifyOTP up to the point where it asks for a token; Check is a Get and a Del. */
  ghost function OtpAct(cfg: Config, s: State, t: Thread, ch: Choice): (State, Thread)
    requires t.OtpGet? || t.OtpDel?
    requires CanGo(cfg, s, t, ch)
  {
    match t
    case OtpGet(email, otp) =>
      if ch.Plain? && email in s.cache && s.cache[email] == otp then (s, OtpDel(email, otp))
      else (s, Done(401, None))
    case OtpDel(email, code) =>
      var cleared := if email in s.cache then [Cleared(email)] else [];
      (s.(cache := s.cache - {email}, log := s.log + [Checked(email, code)] + cleared),
       MintExp(EmailVerified(email), cfg.verifyLife, ByCode(email, code)))
  }

  /** The claims constructors, Auth.Token and the answer; a Fault in the last step is the answer's. */
  ghost function MintAct(cfg: Config, s: State, t: Thread, ch: Choice): (State, Thread)
    requires t.MintExp? || t.MintNbf? || t.MintActive? || t.MintLoad?
  {
    match t
    case MintExp(payload, lifetime, why) =>
      (s, MintNbf(payload, NumericDate(s.ring.now + lifetime, cfg.precision), why))
    case MintNbf(payload, exp, why) =>
      (s, MintActive(Claims(payload, exp, NumericDate(s.ring.now, cfg.precision)), why))
    case MintActive(claims, why) => (s, MintLoad(claims, why, s.ring.active))
    case MintLoad(claims, why, kid) =>
      if kid !in s.ring.store then (s, Done(500, None))
      else
        var tk := Sign(kid, s.ring.store[kid], claims);
        (s.(issued := s.issued[tk := why], log := s.log + [Issued(tk, why)]),
         if ch.Fault? then Done(500, None) else Done(200, Some(tk)))
  }

  /** register */
  ghost function RegAct(cfg: Config, s: State, t: Thread, ch: Choice): (State, Thread)
    requires t.RegParse? || t.RegCreate?
    requires CanGo(cfg, s, t, ch)
  {
    match t
    case RegParse(name, username, password, header) =>
      var tk := Presented(cfg, header);
      if Parse(s.ring.store, s.ring.now, tk).Err? then (s, Done(401, None))
      else (s, RegCreate(name, username, password, tk, WhyOf(s, tk)))
    case RegCreate(name, username, password, tk, why) =>
      if ch.Fault? then (s, Done(500, None))
      else
        var row := Row(ch.id, username, name, EmailOf(PayloadOf(tk)), Bcrypt(password));
        (s.(users := s.users[row.id := row], origin := s.origin[row.id := (tk, why)],
            log := s.log + [Created(row, tk, why)]),
         Done(201, None))
  }

  /** authenticate, and the Auth middleware */
  ghost function LoginAct(cfg: Config, s: State, t: Thread, ch: Choice): (State, Thread)
    requires t.LoginLookup? || t.LoginCompare? || t.AccessParse?
    requires CanGo(cfg, s, t, ch)
  {
    match t
    case LoginLookup(email, password) =>
      var found := if ch.Miss? then None else FindUser(s.users, email);
      if ch.Fault? then (s, Done(500, None))
      else if found.None? then (s, Done(400, None))
      else (s, LoginCompare(found.value, password))
    case LoginCompare(row, password) =>
      if !Accepts(row.hash, password) then (s, Done(401, None))
      else (s.(log := s.log + [LoggedIn(row, password)]),
            MintExp(User(row.id), cfg.sessionLife, ByPassword(row, password)))
    case AccessParse(header) =>
      var tk := Presented(cfg, header);
      if Parse(s.ring.store, s.ring.now, tk).Err? then (s, Done(401, None))
      else
        var id := IdOf(PayloadOf(tk));
        (s.(log := s.log + [Admitted(id, tk, WhyOf(s, tk))]), Inner(id))
  }

  ghost function Act(cfg: Config, s: State, t: Thread, ch: Choice): (State, Thread)
    requires CanGo(cfg, s, t, ch)
  {
    match t
    case EmailLookup(_) => EmailAct(cfg, s, t, ch)
    case EmailExists(_) => EmailAct(cfg, s, t, ch)
    case EmailCode(_) => EmailAct(cfg, s, t, ch)
    case EmailSend(_, _) => EmailAct(cfg, s, t, ch)
    case EmailSave(_, _) => EmailAct(cfg, s, t, ch)
    case OtpGet(_, _) => OtpAct(cfg, s, t, ch)
    case OtpDel(_, _) => OtpAct(cfg, s, t, ch)
    case MintExp(_, _, _) => MintAct(cfg, s, t, ch)
    case MintNbf(_, _, _) => MintAct(cfg, s, t, ch)
    case MintActive(_, _) => MintAct(cfg, s, t, ch)
    case MintLoad(_, _, _) => MintAct(cfg, s, t, ch)
    case RegParse(_, _, _, _) => RegAct(cfg, s, t, ch)
    case RegCreate(_, _, _, _, _) => RegAct(cfg, s, t, ch)
    case LoginLookup(_, _) => LoginAct(cfg, s, t, ch)
    case LoginCompare(_, _) => LoginAct(cfg, s, t, ch)
    case AccessParse(_) => LoginAct(cfg, s, t, ch)
  }

  ghost predicate Enabled(cfg: Config, s: State, st: Step) {
    match st
    case Ring(step) => KeyRing.Enabled(s.ring, step)
    case Evict(email) => email in s.cache
    case Spawn(tid, _) => tid !in s.threads
    case Go(tid, ch) => tid in s.threads && CanGo(cfg, s, s.threads[tid], ch)
  }

  ghost function Apply(cfg: Config, s: State, st: Step): State
    requires Enabled(cfg, s, st)
  {
    match st
    case Ring(step) => s.(ring := KeyRing.Apply(cfg.life, s.ring, step))
    case Evict(email) => s.(cache := s.cache - {email}, log := s.log + [Lost(email)])
    case Spawn(tid, req) => s.(threads := s.threads[tid := Begin(cfg, req)])
    case Go(tid, ch) =>
      var r := Act(cfg, s, s.threads[tid], ch);
      r.0.(threads := s.threads[tid := r.1])
  }

  ghost predicate Leads(cfg: Config, s: State, steps: seq<Step>, t: State)
    decreases |steps|
  {
    if steps == [] then s == t
    else Enabled(cfg, s, steps[0]) && Leads(cfg, Apply(cfg, s, steps[0]), steps[1..], t)
  }

  /** The program as it starts: a new keystore, an empty cache, a table that keeps its constraints. */
  ghost predicate IsStart(cfg: Config, s: State) {
    && KeyRing.IsInitial(cfg.life, s.ring)
    && UsersOk(s.users)
    && s == State(s.ring, map[], s.users, map[], map[], map[], [])
  }

  lemma {:induction false} LeadsConcat(cfg: Config, s: State, a: seq<Step>, t: State, b: seq<Step>, u: State)
    requires Leads(cfg, s, a, t) && Leads(cfg, t, b, u)
    ensures Leads(cfg, s, a + b, u)
    decreases |a|
  {
    if a == [] {
      assert a + b == b;
    } else {
      LeadsConcat(cfg, Apply(cfg, s, a[0]), a[1..], t, b, u);
      assert (a + b)[1..] == a[1..] + b;
    }
  }
}
