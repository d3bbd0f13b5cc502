/** Runs from the start of the program. The premises of RoundTrip.VisitSucceeds can be met: whoever asks
    with valid data gets from the first request to a session, whatever code is drawn. And there is a
    way to an account without an e-mail address. */
module FirstVisit {
  import opened Prelude
  import opened Tokens
  import opened Otp
  import opened Validate
  import opened Protocol
  import opened ThreadSteps
  import opened RoundTrip
  import Provenance
  import OneTime

  /** What one visitor sends; `id` is the one the database assigns, `text` how the token is written. */
  datatype Visitor = Visitor(email: string, name: string, username: string, password: string, id: nat, text: string)

  predicate ValidVisitor(cfg: Config, s: State, x: Visitor) {
    LoginShape(cfg.rules, x.email, x.password) && ValidApplicant(cfg, s, x)
  }

  /** The data of a request to register that finds address and username free. */
  predicate ValidApplicant(cfg: Config, s: State, x: Visitor) {
    && NewUserShape(cfg.rules, x.name, x.username, x.password)
    && Untaken(s.users, x.email, x.username) && 1 <= x.id && x.id !in s.users
    && x.text != "" && ' ' !in x.text
  }

  /** No stored user has the address or the username. */
  predicate Untaken(users: map<nat, Row>, email: string, username: string) {
    forall id :: id in users ==> users[id].email != email && users[id].username != username
  }

  lemma Onward(cfg: Config, s0: State, tr: Trail, s: State, st: Step, tid: nat) returns (more: Trail, u: State)
    requires IsTrail(cfg, s0, tr, s) && Smooth(tr, tid)
    requires Enabled(cfg, s, st) && SmoothStep(s, st, tid)
    ensures u == Apply(cfg, s, st) && IsTrail(cfg, s0, more, u) && Smooth(more, tid)
  {
    u := Apply(cfg, s, st);
    more := Trail(tr.states + [u], tr.steps + [st]);
  }

  /** The token minted in state s with no time passing. */
  function TokenNow(cfg: Config, s: State, payload: Payload, lifetime: int): Token
    requires s.ring.active in s.ring.store
  {
    Sign(s.ring.active, s.ring.store[s.ring.active],
         NewClaims(payload, lifetime, cfg.precision, s.ring.now, s.ring.now))
  }

  function WithToken(s: State, tid: nat, tk: Token, why: Why): State {
    s.(threads := s.threads[tid := Done(200, Some(tk))], issued := s.issued[tk := why],
       log := s.log + [Issued(tk, why)])
  }

  lemma Minted(cfg: Config, s0: State, tr: Trail, s: State, tid: nat, payload: Payload, lifetime: int, why: Why)
      returns (more: Trail, t: State)
    requires IsTrail(cfg, s0, tr, s) && Smooth(tr, tid)
    requires tid in s.threads && s.threads[tid] == MintExp(payload, lifetime, why) && s.ring.active in s.ring.store
    ensures IsTrail(cfg, s0, more, t) && Smooth(more, tid)
    ensures t == WithToken(s, tid, TokenNow(cfg, s, payload, lifetime), why)
  {
    var claims := NewClaims(payload, lifetime, cfg.precision, s.ring.now, s.ring.now);
    more, t := Onward(cfg, s0, tr, s, Go(tid, Plain), tid);
    more, t := Onward(cfg, s0, more, t, Go(tid, Plain), tid);
    assert t == s.(threads := s.threads[tid := MintActive(claims, why)]);
    more, t := LoadsKey(cfg, s0, more, t, tid, claims, why);
    assert t.threads == s.threads[tid := t.threads[tid]];
  }

  lemma LoadsKey(cfg: Config, s0: State, tr: Trail, s: State, tid: nat, claims: Claims, why: Why)
      returns (more: Trail, t: State)
    requires IsTrail(cfg, s0, tr, s) && Smooth(tr, tid)
    requires tid in s.threads && s.threads[tid] == MintActive(claims, why) && s.ring.active in s.ring.store
    ensures IsTrail(cfg, s0, more, t) && Smooth(more, tid)
    ensures t == WithToken(s, tid, Sign(s.ring.active, s.ring.store[s.ring.active], claims), why)
  {
    more, t := Onward(cfg, s0, tr, s, Go(tid, Plain), tid);
    assert t == s.(threads := s.threads[tid := MintLoad(claims, why, s.ring.active)]);
    more, t := Onward(cfg, s0, more, t, Go(tid, Plain), tid);
    assert t.threads == s.threads[tid := t.threads[tid]];
  }

  /** verifyOTP with the live code, from the step of its check on. */
  lemma Redeems(cfg: Config, s: State, tid: nat, email: string) returns (tr: Trail, t: State)
    requires email in s.cache && s.ring.active in s.ring.store
    requires tid in s.threads && s.threads[tid] == OtpGet(email, s.cache[email])
    ensures Enabled(cfg, s, Go(tid, Plain))
    ensures IsTrail(cfg, Apply(cfg, s, Go(tid, Plain)), tr, t) && Smooth(tr, tid)
    ensures var code := s.cache[email];
      t == WithToken(s.(cache := s.cache - {email}, log := s.log + [Checked(email, code)] + [Cleared(email)]), tid,
                    TokenNow(cfg, s, EmailVerified(email), cfg.verifyLife), ByCode(email, code))
  {
    var code := s.cache[email];
    var u := Apply(cfg, s, Go(tid, Plain));
    assert u == s.(threads := s.threads[tid := OtpDel(email, code)]);
    tr, t := Onward(cfg, u, Trail([u], []), u, Go(tid, Plain), tid);
    tr, t := Minted(cfg, u, tr, t, tid, EmailVerified(email), cfg.verifyLife, ByCode(email, code));
    assert t.threads == s.threads[tid := t.threads[tid]];
  }

  /** authenticate with the password of the row found. */
  lemma LogsBackIn(cfg: Config, s: State, tid: nat, row: Row, password: string) returns (tr: Trail, t: State)
    requires FindUser(s.users, row.email) == Some(row) && Accepts(row.hash, password) && s.ring.active in s.ring.store
    requires tid in s.threads && s.threads[tid] == LoginLookup(row.email, password)
    ensures IsTrail(cfg, s, tr, t) && Smooth(tr, tid)
    ensures t.threads == s.threads[tid := Done(200, Some(TokenNow(cfg, s, User(row.id), cfg.sessionLife)))]
    ensures TokenNow(cfg, s, User(row.id), cfg.sessionLife) in t.issued && t.ring == s.ring && t.users == s.users
  {
    tr, t := Onward(cfg, s, Trail([s], []), s, Go(tid, Plain), tid);
    assert t == s.(threads := s.threads[tid := LoginCompare(row, password)]);
    tr, t := Onward(cfg, s, tr, t, Go(tid, Plain), tid);
    tr, t := Minted(cfg, s, tr, t, tid, User(row.id), cfg.sessionLife, ByPassword(row, password));
    assert t.threads == s.threads[tid := t.threads[tid]];
  }

  /** register with a token just issued. */
  lemma Registers(cfg: Config, s: State, tid: nat, x: Visitor, tk: Token) returns (tr: Trail, t: State)
    requires tid in s.threads && s.threads[tid] == RegParse(x.name, x.username, x.password, BearerHeader(x.text))
    requires ValidApplicant(cfg, s, x) && cfg.decode(x.text) == tk && EmailOf(PayloadOf(tk)) == x.email
    requires StillGood(s, tk) && tk.signedBy == s.ring.store[tk.kid.value].signer
    ensures Enabled(cfg, s, Go(tid, Plain)) && Presented(cfg, BearerHeader(x.text)) == tk
    ensures IsTrail(cfg, Apply(cfg, s, Go(tid, Plain)), tr, t)
    ensures t.threads == s.threads[tid := Done(201, None)] && t.ring == s.ring
    ensures t.users == s.users[x.id := Row(x.id, x.username, x.name, x.email, Bcrypt(x.password))]
  {
    BearerTokenIff(BearerHeader(x.text), x.text);
    var u := Apply(cfg, s, Go(tid, Plain));
    assert u.threads[tid] == RegCreate(x.name, x.username, x.password, tk, WhyOf(s, tk));
    tr, t := Extended(cfg, u, Trail([u], []), u, Go(tid, Id(x.id)));
    assert t.threads == s.threads[tid := t.threads[tid]];
  }

  /** From the start of the program to a code mailed and live. */
  lemma CodeMailed(cfg: Config, s: State, x: Visitor, code: string) returns (t: State)
    requires IsStart(cfg, s) && ValidVisitor(cfg, s, x) && IsCode(code, cfg.codeLen)
    ensures Provenance.Reachable(cfg, s.users, t)
    ensures t == s.(log := t.log, cache := map[x.email := code], threads := map[0 := Done(204, None)])
  {
    assert FindUser(s.users, x.email).None?;
    var front;
    front, t := OneTime.FirstCode(cfg, s, x.email, code, 0);
    TrailLeads(cfg, s, front, t);
  }

  /** The code presented and redeemed. */
  lemma CodePart(cfg: Config, seed: map<nat, Row>, s: State, email: string, code: string) returns (g: Stage)
    requires Provenance.Reachable(cfg, seed, s) && s.cache == map[email := code] && 1 !in s.threads
    requires EmailShape(cfg.rules, email) && OtpShape(code) && s.ring.active in s.ring.store
    ensures Provenance.Reachable(cfg, seed, g.before) && g.tid == 1 && ChecksCode(cfg, email, g)
    ensures var tk := TokenNow(cfg, s, EmailVerified(email), cfg.verifyLife);
      && g.after.threads == s.threads[1 := Done(200, Some(tk))]
      && tk in g.after.issued && g.after.ring == s.ring && g.after.users == s.users
  {
    var next := Begin(cfg, VerifyOtp(email, code));
    var u := s.(threads := s.threads[1 := next]);
    ReachableStep(cfg, seed, s, Spawn(1, VerifyOtp(email, code)));
    var trail, after := Redeems(cfg, u, 1, email);
    g := Stage(1, u, trail, after);
    assert after.threads == s.threads[1 := after.threads[1]];
  }

  lemma CodeStage(cfg: Config, s: State, x: Visitor, code: string) returns (g: Stage)
    requires IsStart(cfg, s) && ValidVisitor(cfg, s, x) && IsCode(code, cfg.codeLen) && cfg.codeLen == 6
    ensures Provenance.Reachable(cfg, s.users, g.before) && g.tid == 1 && ChecksCode(cfg, x.email, g)
    ensures var tk := TokenNow(cfg, s, EmailVerified(x.email), cfg.verifyLife);
      && g.after.threads == map[0 := Done(204, None), 1 := Done(200, Some(tk))]
      && tk in g.after.issued && g.after.ring == s.ring && g.after.users == s.users
  {
    CodePassesIff(code, 6);
    var mid := CodeMailed(cfg, s, x, code);
    g := CodePart(cfg, s.users, mid, x.email, code);
  }

  /** The token presented and the account made. */
  lemma AccountPart(cfg: Config, check: Stage, x: Visitor, tk: Token) returns (between: Trail, g: Stage)
    requires Answered(check) && check.after.threads[check.tid].token == Some(tk)
    requires 2 !in check.after.threads && ValidApplicant(cfg, check.after, x)
    requires cfg.decode(x.text) == tk && EmailOf(PayloadOf(tk)) == x.email
    requires StillGood(check.after, tk) && tk.signedBy == check.after.ring.store[tk.kid.value].signer
    ensures ShowsToken(cfg, check, between, g)
    ensures g.before.threads[g.tid] == RegParse(x.name, x.username, x.password, BearerHeader(x.text))
    ensures g.after.threads == check.after.threads[2 := Done(201, None)] && g.after.ring == check.after.ring
    ensures g.after.users == check.after.users[x.id := Row(x.id, x.username, x.name, x.email, Bcrypt(x.password))]
  {
    var s := check.after;
    var req := Register(x.name, x.username, x.password, BearerHeader(x.text));
    var shown;
    between, shown := Extended(cfg, s, Trail([s], []), s, Spawn(2, req));
    var create, registered := Registers(cfg, shown, 2, x, tk);
    g := Stage(2, shown, create, registered);
    assert registered.threads == s.threads[2 := registered.threads[2]];
  }

  /** The login with the new account. */
  lemma SessionPart(cfg: Config, create: Stage, x: Visitor, users: map<nat, Row>) returns (later: Trail, g: Stage)
    requires LoginShape(cfg.rules, x.email, x.password) && Untaken(users, x.email, x.username)
    requires create.after.users == users[x.id := Row(x.id, x.username, x.name, x.email, Bcrypt(x.password))]
    requires 3 !in create.after.threads && create.after.ring.active in create.after.ring.store
    ensures LogsIn(cfg, x.email, x.password, create, later, g)
  {
    var s := create.after;
    var login;
    later, login := Extended(cfg, s, Trail([s], []), s, Spawn(3, Login(x.email, x.password)));
    assert FindUser(login.users, x.email) == Some(s.users[x.id]);
    var compare, session := LogsBackIn(cfg, login, 3, s.users[x.id], x.password);
    g := Stage(3, login, compare, session);
  }

  lemma NewTokenIsGood(cfg: Config, s: State, payload: Payload, lifetime: int, t: State)
    requires s.ring.active in s.ring.store && cfg.precision <= lifetime
    requires TokenNow(cfg, s, payload, lifetime) in t.issued && t.ring == s.ring
    ensures var tk := TokenNow(cfg, s, payload, lifetime);
      && StillGood(t, tk) && tk.signedBy == t.ring.store[tk.kid.value].signer && PayloadOf(tk) == payload
  {
  }

  lemma AccountStage(cfg: Config, s: State, x: Visitor, check: Stage) returns (between: Trail, create: Stage)
    requires s.ring.active in s.ring.store && ValidApplicant(cfg, s, x) && cfg.precision <= cfg.verifyLife
    requires cfg.decode(x.text) == TokenNow(cfg, s, EmailVerified(x.email), cfg.verifyLife)
    requires var tk := TokenNow(cfg, s, EmailVerified(x.email), cfg.verifyLife);
      && check.tid == 1 && check.after.threads == map[0 := Done(204, None), 1 := Done(200, Some(tk))]
      && tk in check.after.issued && check.after.ring == s.ring && check.after.users == s.users
    ensures ShowsToken(cfg, check, between, create)
    ensures create.before.threads[create.tid] == RegParse(x.name, x.username, x.password, BearerHeader(x.text))
    ensures 3 !in create.after.threads && create.after.ring == s.ring
    ensures create.after.users == s.users[x.id := Row(x.id, x.username, x.name, x.email, Bcrypt(x.password))]
  {
    var tk := TokenNow(cfg, s, EmailVerified(x.email), cfg.verifyLife);
    NewTokenIsGood(cfg, s, EmailVerified(x.email), cfg.verifyLife, check.after);
    between, create := AccountPart(cfg, check, x, tk);
  }

  /** A whole visit, right after the start, for every valid visitor and every code. */
  lemma VisitHappens(cfg: Config, s: State, x: Visitor, code: string) returns (v: Visit)
    requires IsStart(cfg, s) && ValidVisitor(cfg, s, x) && IsCode(code, cfg.codeLen) && cfg.codeLen == 6
    requires cfg.precision <= cfg.verifyLife
    requires cfg.decode(x.text) == TokenNow(cfg, s, EmailVerified(x.email), cfg.verifyLife)
    ensures Provenance.Reachable(cfg, s.users, v.check.before) && IsVisit(cfg, v) && v.email == x.email
    ensures v.create.before.threads[v.create.tid] == RegParse(x.name, x.username, x.password, BearerHeader(x.text))
  {
    var check := CodeStage(cfg, s, x, code);
    var between, create := AccountStage(cfg, s, x, check);
    var later, login := SessionPart(cfg, create, x, s.users);
    v := Visit(x.email, check, between, create, later, login);
  }

  /** After every start, a token for an address just verified passes Auth, and the handler behind it
      gets user 0. */
  lemma VerifiedTokenAdmitted(cfg: Config, s: State, x: Visitor, code: string) returns (t: State)
    requires IsStart(cfg, s) && ValidVisitor(cfg, s, x) && IsCode(code, cfg.codeLen) && cfg.codeLen == 6
    requires cfg.precision <= cfg.verifyLife
    requires cfg.decode(x.text) == TokenNow(cfg, s, EmailVerified(x.email), cfg.verifyLife)
    ensures Provenance.Reachable(cfg, s.users, t) && 2 in t.threads && t.threads[2] == Inner(0)
  {
    var redeemed := CodeRedeemed(cfg, s, x, code);
    NewTokenIsGood(cfg, s, EmailVerified(x.email), cfg.verifyLife, redeemed);
    BearerTokenIff(BearerHeader(x.text), x.text);
    var u := Knocks(cfg, s.users, redeemed, BearerHeader(x.text));
    t := Passes(cfg, s.users, u, cfg.decode(x.text));
  }

  lemma CodeRedeemed(cfg: Config, s: State, x: Visitor, code: string) returns (t: State)
    requires IsStart(cfg, s) && ValidVisitor(cfg, s, x) && IsCode(code, cfg.codeLen) && cfg.codeLen == 6
    ensures Provenance.Reachable(cfg, s.users, t) && t.ring == s.ring && 2 !in t.threads
    ensures TokenNow(cfg, s, EmailVerified(x.email), cfg.verifyLife) in t.issued
  {
    var check := CodeStage(cfg, s, x, code);
    CheckSucceeds(cfg, s.users, x.email, check);
    t := check.after;
  }

  /** A request to a route behind Auth. */
  lemma Knocks(cfg: Config, seed: map<nat, Row>, s: State, header: string) returns (t: State)
    requires Provenance.Reachable(cfg, seed, s) && 2 !in s.threads
    ensures Provenance.Reachable(cfg, seed, t) && t == s.(threads := s.threads[2 := AccessParse(header)])
  {
    t := s.(threads := s.threads[2 := AccessParse(header)]);
    ReachableStep(cfg, seed, s, Spawn(2, Access(header)));
  }

  /** A token just issued passes Auth. */
  lemma Passes(cfg: Config, seed: map<nat, Row>, s: State, tk: Token) returns (t: State)
    requires Provenance.Reachable(cfg, seed, s) && 2 in s.threads && s.threads[2].AccessParse?
    requires Presented(cfg, s.threads[2].header) == tk
    requires StillGood(s, tk) && tk.signedBy == s.ring.store[tk.kid.value].signer
    ensures Provenance.Reachable(cfg, seed, t) && 2 in t.threads && t.threads[2] == Inner(IdOf(PayloadOf(tk)))
  {
    t := Admits(cfg, s, 2, tk);
    ReachableStep(cfg, seed, s, Go(2, Plain));
  }

  lemma Admits(cfg: Config, s: State, tid: nat, tk: Token) returns (t: State)
    requires tid in s.threads && s.threads[tid].AccessParse? && Presented(cfg, s.threads[tid].header) == tk
    requires StillGood(s, tk) && tk.signedBy == s.ring.store[tk.kid.value].signer
    ensures Enabled(cfg, s, Go(tid, Plain)) && t == Apply(cfg, s, Go(tid, Plain))
    ensures tid in t.threads && t.threads[tid] == Inner(IdOf(PayloadOf(tk)))
  {
    t := Apply(cfg, s, Go(tid, Plain));
  }

  // ---------------------------------------------------------------- an account without an address

  /** A user stored at the start logs in. */
  lemma SessionStage(cfg: Config, s: State, row: Row, password: string) returns (g: Stage)
    requires IsStart(cfg, s) && Provenance.Stored(s.users, row) && Accepts(row.hash, password)
    requires LoginShape(cfg.rules, row.email, password)
    ensures Provenance.Reachable(cfg, s.users, g.after) && g.after.ring == s.ring && g.after.users == s.users
    ensures var tk := TokenNow(cfg, s, User(row.id), cfg.sessionLife);
      && tk in g.after.issued && g.after.threads == map[g.tid := Done(200, Some(tk))] && g.tid == 1
  {
    assert FindUser(s.users, row.email) == Some(row);
    var u := s.(threads := s.threads[1 := LoginLookup(row.email, password)]);
    assert Leads(cfg, s, [], s);
    assert Provenance.Reachable(cfg, s.users, s);
    ReachableStep(cfg, s.users, s, Spawn(1, Login(row.email, password)));
    var tr, t := LogsBackIn(cfg, u, 1, row, password);
    TrailLeads(cfg, u, tr, t);
    Provenance.ReachableLeads(cfg, s.users, u, tr.steps, t);
    g := Stage(1, u, tr, t);
  }

  /** After every start with a stored user and no account without an address, a login and a request to
      register with the session token make one: the record of a session has no address, and register
      reads it as the empty one. */
  lemma SessionTokenRegisters(cfg: Config, s: State, row: Row, password: string, x: Visitor) returns (t: State)
    requires IsStart(cfg, s) && Provenance.Stored(s.users, row) && Accepts(row.hash, password)
    requires LoginShape(cfg.rules, row.email, password) && cfg.precision <= cfg.sessionLife
    requires ValidApplicant(cfg, s, x) && x.email == ""
    requires cfg.decode(x.text) == TokenNow(cfg, s, User(row.id), cfg.sessionLife)
    ensures Provenance.Reachable(cfg, s.users, t) && 2 in t.threads && t.threads[2] == Done(201, None)
    ensures t.users == s.users[x.id := Row(x.id, x.username, x.name, "", Bcrypt(x.password))]
  {
    var login := SessionStage(cfg, s, row, password);
    NewTokenIsGood(cfg, s, User(row.id), cfg.sessionLife, login.after);
    var between, create := AccountPart(cfg, login, x, TokenNow(cfg, s, User(row.id), cfg.sessionLife));
    var _ := RegisterSucceeds(cfg, s.users, login, between, create);
    t := create.after;
  }
}
