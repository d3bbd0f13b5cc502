/** From a mailed code to a session, with any other requests, rotations and evictions in between:
    each handler, once past its check, reaches its answer, and the answers fit together. */
module RoundTrip {
  import opened Prelude
  import opened Tokens
  import opened Validate
  import opened Protocol
  import opened ThreadSteps
  import opened Provenance

  /** No step of this thread fails from outside: no call fails, and the key it read is found. */
  ghost predicate Smooth(tr: Trail, tid: nat) {
    |tr.states| == |tr.steps| + 1 && forall i :: 0 <= i < |tr.steps| ==> SmoothStep(tr.states[i], tr.steps[i], tid)
  }

  predicate SmoothStep(s: State, st: Step, tid: nat) {
    FaultFree(st, tid) && (Loads(s, st, tid) ==> s.threads[tid].kid in s.ring.store)
  }

  predicate FaultFree(st: Step, tid: nat) {
    st.Go? && st.tid == tid ==> st.choice != Fault && st.choice != Miss
  }

  /** The thread loads the key with which it is going to sign. */
  predicate Loads(s: State, st: Step, tid: nat) {
    st.Go? && st.tid == tid && tid in s.threads && s.threads[tid].MintLoad?
  }

  /** The run without its first step. */
  function Rest(tr: Trail): Trail
    requires |tr.states| == |tr.steps| + 1 && tr.steps != []
  {
    Trail(tr.states[1..], tr.steps[1..])
  }

  lemma RestIsTrail(cfg: Config, s: State, tr: Trail, t: State, tid: nat)
    requires IsTrail(cfg, s, tr, t) && tr.steps != [] && Smooth(tr, tid)
    ensures Enabled(cfg, s, tr.steps[0]) && SmoothStep(s, tr.steps[0], tid)
    ensures IsTrail(cfg, Apply(cfg, s, tr.steps[0]), Rest(tr), t) && Smooth(Rest(tr), tid)
  {
    assert SmoothStep(tr.states[0], tr.steps[0], tid);
    assert tr.states[1] == Apply(cfg, tr.states[0], tr.steps[0]);
  }

  /** Asking for a token with this record, or answered with one. */
  predicate Minting(t: Thread, payload: Payload) {
    match t
    case MintExp(p, _, _) => p == payload
    case MintNbf(p, _, _) => p == payload
    case MintActive(claims, _) => claims.payload == payload
    case MintLoad(claims, _, _) => claims.payload == payload
    case Done(status, tk) => status == 200 && tk.Some? && PayloadOf(tk.value) == payload && tk.value.Jwt?
    case _ => false
  }

  // ---------------------------------------------------------------- verifyOTP

  ghost predicate CodeAccepted(s: State, tid: nat, email: string, code: string) {
    tid in s.threads && (s.threads[tid] == OtpDel(email, code) || Minting(s.threads[tid], EmailVerified(email)))
  }

  lemma {:induction false} CodeRun(cfg: Config, s: State, tr: Trail, t: State, tid: nat, email: string, code: string)
    requires IsTrail(cfg, s, tr, t) && Smooth(tr, tid) && CodeAccepted(s, tid, email, code)
    ensures CodeAccepted(t, tid, email, code)
    decreases |tr.steps|
  {
    if tr.steps != [] {
      var st := tr.steps[0];
      RestIsTrail(cfg, s, tr, t, tid);
      if st.Go? && st.tid == tid {
        assert Minting(Act(cfg, s, s.threads[tid], st.choice).1, EmailVerified(email));
      }
      CodeRun(cfg, Apply(cfg, s, st), Rest(tr), t, tid, email, code);
    }
  }

  /** A live code presented for its address passes validation and the check, and the answer is a
      token for that address. */
  lemma CodeIsRedeemed(cfg: Config, seed: map<nat, Row>, s: State, email: string, tid: nat, tr: Trail, t: State)
    requires Reachable(cfg, seed, s) && cfg.codeLen == 6
    requires email in s.cache
    requires tid in s.threads && s.threads[tid] == Begin(cfg, VerifyOtp(email, s.cache[email]))
    requires Enabled(cfg, s, Go(tid, Plain))
    requires IsTrail(cfg, Apply(cfg, s, Go(tid, Plain)), tr, t) && Smooth(tr, tid)
    requires tid in t.threads && t.threads[tid].Done?
    ensures s.threads[tid] == OtpGet(email, s.cache[email])
    ensures t.threads[tid].status == 200 && t.threads[tid].token.Some?
    ensures PayloadOf(t.threads[tid].token.value) == EmailVerified(email)
  {
    ReachableInv(cfg, seed, s);
    CodePassesIff(s.cache[email], 6);
    var u := Apply(cfg, s, Go(tid, Plain));
    assert u.threads[tid] == OtpDel(email, s.cache[email]);
    CodeRun(cfg, u, tr, t, tid, email, s.cache[email]);
  }

  /** A token in an answer is an issued one. */
  lemma AnswerIsIssued(cfg: Config, seed: map<nat, Row>, t: State, tid: nat)
    requires Reachable(cfg, seed, t) && tid in t.threads && t.threads[tid].Done? && t.threads[tid].token.Some?
    ensures t.threads[tid].token.value in t.issued
  {
    ReachableInv(cfg, seed, t);
    assert ThreadOk(cfg, t.log, t.users, t.issued, t.threads[tid]);
  }

  // ---------------------------------------------------------------- register

  /** The account that a register request asks for is in the table. */
  ghost predicate HasAccount(users: map<nat, Row>, id: nat, email: string, name: string, username: string,
                             password: string)
  {
    id in users && users[id] == Row(id, username, name, email, Bcrypt(password))
  }

  ghost predicate Registering(s: State, tid: nat, email: string, name: string, username: string, password: string) {
    && tid in s.threads
    && match s.threads[tid]
       case RegCreate(n, u, p, tk, _) => n == name && u == username && p == password && EmailOf(PayloadOf(tk)) == email
       case Done(status, _) => status == 201 ==> exists id :: HasAccount(s.users, id, email, name, username, password)
       case _ => false
  }

  lemma RegisteringStep(cfg: Config, seed: map<nat, Row>, s: State, st: Step,
                        tid: nat, email: string, name: string, username: string, password: string)
    requires Inv(cfg, seed, s) && Enabled(cfg, s, st) && Registering(s, tid, email, name, username, password)
    ensures Registering(Apply(cfg, s, st), tid, email, name, username, password)
  {
    var t := Apply(cfg, s, st);
    UsersStay(cfg, s, st);
    if st.Go? && st.tid == tid {
      assert t.threads[tid] == Act(cfg, s, s.threads[tid], st.choice).1;
      if st.choice.Id? {
        assert HasAccount(t.users, st.choice.id, email, name, username, password);
      }
    } else if s.threads[tid].Done? && s.threads[tid].status == 201 {
      var id :| HasAccount(s.users, id, email, name, username, password);
      assert HasAccount(t.users, id, email, name, username, password);
    }
  }

  ghost predicate KeepsRows(s: State, u: State) {
    && (forall id :: id in s.users ==> id in u.users && u.users[id] == s.users[id])
    && s.issued.Keys <= u.issued.Keys
  }

  lemma ActKeepsRows(cfg: Config, s: State, t: Thread, ch: Choice)
    requires CanGo(cfg, s, t, ch)
    ensures KeepsRows(s, Act(cfg, s, t, ch).0)
  {
  }

  /** Rows and issued tokens are never removed. */
  lemma UsersStay(cfg: Config, s: State, st: Step)
    requires Enabled(cfg, s, st)
    ensures KeepsRows(s, Apply(cfg, s, st))
  {
    if st.Go? {
      ActKeepsRows(cfg, s, s.threads[st.tid], st.choice);
    }
  }

  lemma {:induction false} RegisteringRun(cfg: Config, seed: map<nat, Row>, s: State, steps: seq<Step>, t: State,
                                          tid: nat, email: string, name: string, username: string, password: string)
    requires Inv(cfg, seed, s) && Leads(cfg, s, steps, t)
    requires Registering(s, tid, email, name, username, password)
    ensures Registering(t, tid, email, name, username, password)
    decreases |steps|
  {
    if steps != [] {
      InvStep(cfg, seed, s, steps[0]);
      RegisteringStep(cfg, seed, s, steps[0], tid, email, name, username, password);
      RegisteringRun(cfg, seed, Apply(cfg, s, steps[0]), steps[1..], t, tid, email, name, username, password);
    }
  }

  /** An issued token within its dates whose key is held. */
  predicate StillGood(s: State, tk: Token) {
    && tk in s.issued && tk.Jwt? && tk.kid.Some? && tk.kid.value in s.ring.store
    && tk.claims.nbf <= s.ring.now < tk.claims.exp
  }

  /** register with a token that is still good answers 201 only if the account asked for is there,
      under the address the token was issued for. */
  lemma RegistrationIsKept(cfg: Config, seed: map<nat, Row>, s: State, tid: nat, steps: seq<Step>, t: State)
      returns (id: nat)
    requires Reachable(cfg, seed, s) && tid in s.threads && s.threads[tid].RegParse?
    requires StillGood(s, Presented(cfg, s.threads[tid].header)) && Enabled(cfg, s, Go(tid, Plain))
    requires Leads(cfg, Apply(cfg, s, Go(tid, Plain)), steps, t)
    requires tid in t.threads && t.threads[tid].Done? && t.threads[tid].status == 201
    ensures var r := s.threads[tid];
      HasAccount(t.users, id, EmailOf(PayloadOf(Presented(cfg, r.header))), r.name, r.username, r.password)
  {
    ReachableInv(cfg, seed, s);
    var r := s.threads[tid];
    var tk := Presented(cfg, r.header);
    assert Parse(s.ring.store, s.ring.now, tk).Ok?;
    assert Apply(cfg, s, Go(tid, Plain)).threads[tid] == RegCreate(r.name, r.username, r.password, tk, WhyOf(s, tk));
    InvStep(cfg, seed, s, Go(tid, Plain));
    RegisteringRun(cfg, seed, Apply(cfg, s, Go(tid, Plain)), steps, t,
                   tid, EmailOf(PayloadOf(tk)), r.name, r.username, r.password);
    id :| HasAccount(t.users, id, EmailOf(PayloadOf(tk)), r.name, r.username, r.password);
  }

  // ---------------------------------------------------------------- authenticate

  /** Where a login thread for this row and password may stand. */
  predicate LoginThread(t: Thread, row: Row, password: string) {
    t == LoginLookup(row.email, password) || t == LoginCompare(row, password) || Minting(t, User(row.id))
  }

  lemma MintingGo(cfg: Config, s: State, t: Thread, ch: Choice, payload: Payload)
    requires Minting(t, payload) && CanGo(cfg, s, t, ch) && ch != Fault
    requires t.MintLoad? ==> t.kid in s.ring.store
    ensures Minting(Act(cfg, s, t, ch).1, payload)
  {
  }

  lemma LoginThreadGo(cfg: Config, s: State, t: Thread, ch: Choice, row: Row, password: string)
    requires UsersOk(s.users) && Stored(s.users, row) && Accepts(row.hash, password)
    requires LoginThread(t, row, password) && CanGo(cfg, s, t, ch) && ch != Fault && ch != Miss
    requires t.MintLoad? ==> t.kid in s.ring.store
    ensures LoginThread(Act(cfg, s, t, ch).1, row, password)
  {
    if t.LoginLookup? {
      assert FindUser(s.users, row.email) == Some(row);
    } else if !t.LoginCompare? {
      MintingGo(cfg, s, t, ch, User(row.id));
    }
  }

  ghost predicate LoggingIn(s: State, tid: nat, row: Row, password: string) {
    Stored(s.users, row) && tid in s.threads && LoginThread(s.threads[tid], row, password)
  }

  lemma LoggingInStep(cfg: Config, seed: map<nat, Row>, s: State, st: Step, tid: nat, row: Row, password: string)
    requires Inv(cfg, seed, s) && Enabled(cfg, s, st) && LoggingIn(s, tid, row, password)
    requires Accepts(row.hash, password) && SmoothStep(s, st, tid)
    ensures LoggingIn(Apply(cfg, s, st), tid, row, password)
  {
    UsersStay(cfg, s, st);
    if st.Go? && st.tid == tid {
      LoginThreadGo(cfg, s, s.threads[tid], st.choice, row, password);
    }
  }

  lemma {:induction false} LoggingInRun(cfg: Config, seed: map<nat, Row>, s: State, tr: Trail, t: State,
                                        tid: nat, row: Row, password: string)
    requires Inv(cfg, seed, s) && IsTrail(cfg, s, tr, t) && Smooth(tr, tid)
    requires LoggingIn(s, tid, row, password) && Accepts(row.hash, password)
    ensures LoggingIn(t, tid, row, password)
    decreases |tr.steps|
  {
    if tr.steps != [] {
      var st := tr.steps[0];
      RestIsTrail(cfg, s, tr, t, tid);
      InvStep(cfg, seed, s, st);
      LoggingInStep(cfg, seed, s, st, tid, row, password);
      LoggingInRun(cfg, seed, Apply(cfg, s, st), Rest(tr), t, tid, row, password);
    }
  }

  /** Logging in with the address and password of a stored account answers a token with exactly
      that account's id. */
  lemma LoginFindsAccount(cfg: Config, seed: map<nat, Row>, s: State, row: Row, password: string,
                          tid: nat, tr: Trail, t: State)
    requires Reachable(cfg, seed, s) && Stored(s.users, row) && Accepts(row.hash, password)
    requires LoginShape(cfg.rules, row.email, password)
    requires tid in s.threads && s.threads[tid] == Begin(cfg, Login(row.email, password))
    requires IsTrail(cfg, s, tr, t) && Smooth(tr, tid)
    requires tid in t.threads && t.threads[tid].Done?
    ensures t.threads[tid].status == 200 && t.threads[tid].token.Some?
    ensures PayloadOf(t.threads[tid].token.value) == User(row.id)
  {
    ReachableInv(cfg, seed, s);
    LoggingInRun(cfg, seed, s, tr, t, tid, row, password);
  }

  lemma {:induction false} UsersStayRun(cfg: Config, s: State, steps: seq<Step>, t: State)
    requires Leads(cfg, s, steps, t)
    ensures KeepsRows(s, t)
    decreases |steps|
  {
    if steps != [] {
      UsersStay(cfg, s, steps[0]);
      UsersStayRun(cfg, Apply(cfg, s, steps[0]), steps[1..], t);
    }
  }

  // ---------------------------------------------------------------- the whole way

  /** One request of the visitor, in a run full of others: from state `before` on, its thread is
      done in state `after`. */
  datatype Stage = Stage(tid: nat, before: State, trail: Trail, after: State)

  ghost predicate Answered(g: Stage) {
    g.tid in g.after.threads && g.after.threads[g.tid].Done?
  }

  /** The live code is presented to verifyOTP, which checks it at once. */
  ghost predicate PresentsCode(cfg: Config, email: string, g: Stage) {
    && email in g.before.cache
    && g.tid in g.before.threads && g.before.threads[g.tid] == Begin(cfg, VerifyOtp(email, g.before.cache[email]))
    && Enabled(cfg, g.before, Go(g.tid, Plain))
    && IsTrail(cfg, Apply(cfg, g.before, Go(g.tid, Plain)), g.trail, g.after)
    && Answered(g)
  }

  ghost predicate ChecksCode(cfg: Config, email: string, g: Stage) {
    PresentsCode(cfg, email, g) && Smooth(g.trail, g.tid)
  }

  /** The token of the first answer is presented to register, which parses it at once and in the end
      answers 201. */
  ghost predicate PresentsToken(cfg: Config, check: Stage, between: Trail, g: Stage) {
    && Answered(check)
    && IsTrail(cfg, check.after, between, g.before)
    && g.tid in g.before.threads && g.before.threads[g.tid].RegParse?
    && var tk := Presented(cfg, g.before.threads[g.tid].header);
    && check.after.threads[check.tid].token == Some(tk)
    && tk.Jwt? && tk.kid.Some? && tk.claims.nbf <= g.before.ring.now < tk.claims.exp
    && Enabled(cfg, g.before, Go(g.tid, Plain))
    && IsTrail(cfg, Apply(cfg, g.before, Go(g.tid, Plain)), g.trail, g.after)
    && Answered(g) && g.after.threads[g.tid].status == 201
  }

  ghost predicate ShowsToken(cfg: Config, check: Stage, between: Trail, g: Stage) {
    && PresentsToken(cfg, check, between, g)
    && Presented(cfg, g.before.threads[g.tid].header).kid.value in g.before.ring.store
  }

  /** The login with the address and the password registered. */
  ghost predicate PresentsPassword(cfg: Config, email: string, password: string, create: Stage, later: Trail,
                                   g: Stage)
  {
    && IsTrail(cfg, create.after, later, g.before)
    && LoginShape(cfg.rules, email, password)
    && g.tid in g.before.threads && g.before.threads[g.tid] == Begin(cfg, Login(email, password))
    && IsTrail(cfg, g.before, g.trail, g.after)
    && Answered(g)
  }

  ghost predicate LogsIn(cfg: Config, email: string, password: string, create: Stage, later: Trail, g: Stage) {
    PresentsPassword(cfg, email, password, create, later, g) && Smooth(g.trail, g.tid)
  }

  ghost predicate Registered(create: Stage, id: nat, email: string)
    requires create.tid in create.before.threads && create.before.threads[create.tid].RegParse?
  {
    var r := create.before.threads[create.tid];
    HasAccount(create.after.users, id, email, r.name, r.username, r.password)
  }

  datatype Visit = Visit(email: string, check: Stage, between: Trail, create: Stage, later: Trail, login: Stage)

  ghost predicate IsVisit(cfg: Config, v: Visit) {
    && ChecksCode(cfg, v.email, v.check)
    && ShowsToken(cfg, v.check, v.between, v.create)
    && LogsIn(cfg, v.email, v.create.before.threads[v.create.tid].password, v.create, v.later, v.login)
  }

  /** Code, e-mail token, account, session: the token answers for the address of the code, register
      puts that address and the chosen password into one new row, and the login that follows is
      answered with a token for exactly that row. */
  lemma {:induction false} VisitSucceeds(cfg: Config, seed: map<nat, Row>, v: Visit) returns (id: nat)
    requires Reachable(cfg, seed, v.check.before) && cfg.codeLen == 6 && IsVisit(cfg, v)
    ensures Redeemed(v.check, v.email)
    ensures Registered(v.create, id, v.email)
    ensures Welcomed(v.login, id)
  {
    CheckSucceeds(cfg, seed, v.email, v.check);
    id := RegisterSucceeds(cfg, seed, v.check, v.between, v.create);
    LoginSucceeds(cfg, seed, v.email, v.create.before.threads[v.create.tid].password, v.create, v.later, v.login, id);
  }

  /** The answer is 200 and a token for the address. */
  ghost predicate Redeemed(g: Stage, email: string) {
    && Answered(g) && g.after.threads[g.tid].status == 200 && g.after.threads[g.tid].token.Some?
    && PayloadOf(g.after.threads[g.tid].token.value) == EmailVerified(email)
  }

  /** The answer is 200 and a token for the user. */
  ghost predicate Welcomed(g: Stage, id: nat) {
    && Answered(g) && g.after.threads[g.tid].status == 200 && g.after.threads[g.tid].token.Some?
    && PayloadOf(g.after.threads[g.tid].token.value) == User(id)
  }

  lemma {:induction false} CheckSucceeds(cfg: Config, seed: map<nat, Row>, email: string, g: Stage)
    requires Reachable(cfg, seed, g.before) && cfg.codeLen == 6 && ChecksCode(cfg, email, g)
    ensures Redeemed(g, email) && Reachable(cfg, seed, g.after)
  {
    var s := Apply(cfg, g.before, Go(g.tid, Plain));
    TrailLeads(cfg, s, g.trail, g.after);
    CodeIsRedeemed(cfg, seed, g.before, email, g.tid, g.trail, g.after);
    ReachableStep(cfg, seed, g.before, Go(g.tid, Plain));
    ReachableLeads(cfg, seed, s, g.trail.steps, g.after);
  }

  lemma {:induction false} RegisterSucceeds(cfg: Config, seed: map<nat, Row>, check: Stage, between: Trail, g: Stage)
      returns (id: nat)
    requires Reachable(cfg, seed, check.after) && ShowsToken(cfg, check, between, g)
    ensures Registered(g, id, EmailOf(PayloadOf(check.after.threads[check.tid].token.value)))
    ensures Reachable(cfg, seed, g.after)
  {
    TrailLeads(cfg, check.after, between, g.before);
    ReachableLeads(cfg, seed, check.after, between.steps, g.before);
    AnswerIsIssued(cfg, seed, check.after, check.tid);
    UsersStayRun(cfg, check.after, between.steps, g.before);
    var s := Apply(cfg, g.before, Go(g.tid, Plain));
    TrailLeads(cfg, s, g.trail, g.after);
    id := RegistrationIsKept(cfg, seed, g.before, g.tid, g.trail.steps, g.after);
    ReachableStep(cfg, seed, g.before, Go(g.tid, Plain));
    ReachableLeads(cfg, seed, s, g.trail.steps, g.after);
  }

  lemma {:induction false} LoginSucceeds(cfg: Config, seed: map<nat, Row>, email: string, password: string,
                                         create: Stage, later: Trail, g: Stage, id: nat)
    requires Reachable(cfg, seed, create.after) && LogsIn(cfg, email, password, create, later, g)
    requires id in create.after.users
    requires var row := create.after.users[id]; row.id == id && row.email == email && Accepts(row.hash, password)
    ensures Welcomed(g, id)
  {
    TrailLeads(cfg, create.after, later, g.before);
    ReachableLeads(cfg, seed, create.after, later.steps, g.before);
    UsersStayRun(cfg, create.after, later.steps, g.before);
    LoginFindsAccount(cfg, seed, g.before, g.before.users[id], password, g.tid, g.trail, g.after);
  }

  lemma {:induction false} ReachableStep(cfg: Config, seed: map<nat, Row>, s: State, st: Step)
    requires Reachable(cfg, seed, s) && Enabled(cfg, s, st)
    ensures Reachable(cfg, seed, Apply(cfg, s, st))
  {
    var t := Apply(cfg, s, st);
    assert Leads(cfg, t, [], t);
    ReachableLeads(cfg, seed, s, [st], t);
  }
}
