/** What is refused: malformed requests, headers without the bearer form, revoked keys and wrong
    passwords. */
module Refusals {
  import opened Prelude
  import KeyRing
  import opened Tokens
  import opened Validate
  import opened Protocol
  import opened Provenance
  import RoundTrip

  predicate BadAddress(cfg: Config, email: string) {
    email == "" || !cfg.rules.isEmail(email)
  }

  /** A request goes on exactly if every field keeps its rule, and is answered 400 otherwise. */
  lemma MalformedIsRefused(cfg: Config, email: string, otp: string, name: string, username: string, password: string,
                           header: string)
    ensures Begin(cfg, Garbled) == Done(400, None) && Begin(cfg, Access(header)) == AccessParse(header)
    ensures Begin(cfg, VerifyEmail(email)) == if BadAddress(cfg, email) then Done(400, None) else EmailLookup(email)
    ensures Begin(cfg, VerifyOtp(email, otp))
      == if BadAddress(cfg, email) || |otp| != 6 || !Numeric(otp) then Done(400, None) else OtpGet(email, otp)
    ensures Begin(cfg, Login(email, password))
      == if BadAddress(cfg, email) || |password| < 8 || 32 < |password| then Done(400, None)
         else LoginLookup(email, password)
    ensures Begin(cfg, Register(name, username, password, header))
      == if name == "" || BadUsername(username) || BadPassword(cfg, password) then Done(400, None)
         else RegParse(name, username, password, header)
  {
  }

  predicate BadUsername(username: string) {
    username == "" || 20 < |username|
    || exists i :: 0 <= i < |username| && !('a' <= username[i] <= 'z') && !('0' <= username[i] <= '9')
  }

  predicate BadPassword(cfg: Config, password: string) {
    || ByteLength(password) < 8
    || (forall i :: 0 <= i < |password| ==> !cfg.rules.isUpper(password[i]))
    || (forall i :: 0 <= i < |password| ==> !cfg.rules.isNumber(password[i]) || cfg.rules.isUpper(password[i]))
  }

  /** register, or a route behind Auth, about to parse the token of a header. */
  predicate Parsing(t: Thread, header: string) {
    (t.RegParse? || t.AccessParse?) && t.header == header
  }

  /** A header without the bearer form is answered 401, and nothing else changes. */
  lemma NoBearerRefused(cfg: Config, s: State, tid: nat, ch: Choice, header: string)
    requires Enabled(cfg, s, Go(tid, ch)) && Parsing(s.threads[tid], header) && !IsBearer(header)
    ensures Apply(cfg, s, Go(tid, ch)) == s.(threads := s.threads[tid := Done(401, None)])
  {
    NoBearerNoToken(header);
  }

  // ---------------------------------------------------------------- revoked keys

  lemma {:induction false} GoneRun(cfg: Config, s: State, steps: seq<Step>, t: State, k: nat)
    requires Leads(cfg, s, steps, t) && KeyRing.Inv(cfg.life, s.ring)
    requires k in s.ring.minted && k !in s.ring.store
    ensures k !in t.ring.store
    decreases |steps|
  {
    if steps != [] {
      GoneStep(cfg, s, steps[0], k);
      GoneRun(cfg, Apply(cfg, s, steps[0]), steps[1..], t, k);
    }
  }

  lemma GoneStep(cfg: Config, s: State, st: Step, k: nat)
    requires Enabled(cfg, s, st) && KeyRing.Inv(cfg.life, s.ring)
    requires k in s.ring.minted && k !in s.ring.store
    ensures var ring := Apply(cfg, s, st).ring;
      KeyRing.Inv(cfg.life, ring) && k in ring.minted && k !in ring.store
  {
    if st.Ring? {
      KeyRing.InvStep(cfg.life, s.ring, st.step);
      KeyRing.MintedStays(cfg.life, s.ring, st.step);
    } else if st.Go? {
      RingSame(cfg, s, s.threads[st.tid], st.choice);
    }
  }

  lemma RingSame(cfg: Config, s: State, t: Thread, ch: Choice)
    requires CanGo(cfg, s, t, ch)
    ensures Act(cfg, s, t, ch).0.ring == s.ring
  {
  }

  /** After a revocation, in every run, register and every route behind Auth answer 401 to each token
      that names the revoked key. */
  lemma RevokedIsRefused(cfg: Config, seed: map<nat, Row>, s: State, k: nat, steps: seq<Step>, t: State,
                         tid: nat, ch: Choice, header: string)
    requires Reachable(cfg, seed, s) && k in s.ring.minted
    requires Leads(cfg, Apply(cfg, s, Ring(KeyRing.Revoke(k))), steps, t)
    requires Enabled(cfg, t, Go(tid, ch)) && Parsing(t.threads[tid], header)
    requires Presented(cfg, header).Jwt? && Presented(cfg, header).kid == Some(k)
    ensures Apply(cfg, t, Go(tid, ch)) == t.(threads := t.threads[tid := Done(401, None)])
  {
    ReachableInv(cfg, seed, s);
    RevokeRemoves(cfg, s, k);
    GoneRun(cfg, Apply(cfg, s, Ring(KeyRing.Revoke(k))), steps, t, k);
    GoneIsRefused(cfg, t, tid, ch, header, k);
  }

  lemma RevokeRemoves(cfg: Config, s: State, k: nat)
    requires KeyRing.Inv(cfg.life, s.ring) && k in s.ring.minted
    ensures var ring := Apply(cfg, s, Ring(KeyRing.Revoke(k))).ring;
      KeyRing.Inv(cfg.life, ring) && k in ring.minted && k !in ring.store
  {
    KeyRing.InvStep(cfg.life, s.ring, KeyRing.Revoke(k));
  }

  lemma GoneIsRefused(cfg: Config, s: State, tid: nat, ch: Choice, header: string, k: nat)
    requires Enabled(cfg, s, Go(tid, ch)) && Parsing(s.threads[tid], header) && k !in s.ring.store
    requires Presented(cfg, header).Jwt? && Presented(cfg, header).kid == Some(k)
    ensures Apply(cfg, s, Go(tid, ch)) == s.(threads := s.threads[tid := Done(401, None)])
  {
  }

  // ---------------------------------------------------------------- wrong passwords

  /** The step that compares: a password other than the account's is answered 401, without effect. */
  lemma WrongPasswordRefused(cfg: Config, s: State, tid: nat, ch: Choice, row: Row, p: string, q: string)
    requires Enabled(cfg, s, Go(tid, ch)) && s.threads[tid] == LoginCompare(row, q)
    requires row.hash == Bcrypt(p) && p != q
    ensures Apply(cfg, s, Go(tid, ch)) == s.(threads := s.threads[tid := Done(401, None)])
  {
  }

  /** Where a login for the address may stand that will not be answered 200. */
  ghost predicate Failing(s: State, tid: nat, email: string, q: string) {
    && tid in s.threads
    && match s.threads[tid]
       case LoginLookup(e, password) => e == email && password == q
       case LoginCompare(row, password) => Stored(s.users, row) && row.email == email && password == q
       case Done(status, token) => status != 200 && token == None
       case _ => false
  }

  lemma FailingGo(cfg: Config, s: State, tid: nat, ch: Choice, row: Row, p: string, q: string)
    requires Enabled(cfg, s, Go(tid, ch)) && Failing(s, tid, row.email, q)
    requires row.hash == Bcrypt(p) && p != q && UsersOk(s.users)
    requires forall r :: Stored(s.users, r) && r.email == row.email ==> r == row
    ensures Failing(Apply(cfg, s, Go(tid, ch)), tid, row.email, q)
  {
    var t := s.threads[tid];
    var r := Act(cfg, s, t, ch);
    assert t.LoginLookup? || t.LoginCompare?;
    if t.LoginCompare? {
      assert t.row == row;
    }
    assert r.0 == s;
  }

  lemma {:induction false} FailingRun(cfg: Config, seed: map<nat, Row>, s: State, steps: seq<Step>, t: State,
                                      tid: nat, row: Row, p: string, q: string)
    requires Inv(cfg, seed, s) && Leads(cfg, s, steps, t) && Failing(s, tid, row.email, q)
    requires Stored(t.users, row) && row.hash == Bcrypt(p) && p != q && UsersOk(t.users)
    ensures Failing(t, tid, row.email, q)
    decreases |steps|
  {
    if steps != [] {
      var u := Apply(cfg, s, steps[0]);
      InvStep(cfg, seed, s, steps[0]);
      RoundTrip.UsersStay(cfg, s, steps[0]);
      RoundTrip.UsersStayRun(cfg, s, steps, t);
      if steps[0].Go? && steps[0].tid == tid {
        OnlyRow(s.users, t.users, row);
        FailingGo(cfg, s, tid, steps[0].choice, row, p, q);
      }
      FailingRun(cfg, seed, u, steps[1..], t, tid, row, p, q);
    }
  }

  /** Who has the address later has it now, if anyone does. */
  lemma OnlyRow(users: map<nat, Row>, later: map<nat, Row>, row: Row)
    requires UsersOk(users) && UsersOk(later) && Stored(later, row)
    requires forall id :: id in users ==> id in later && later[id] == users[id]
    ensures forall r :: Stored(users, r) && r.email == row.email ==> r == row
  {
  }

  lemma TableKept(cfg: Config, seed: map<nat, Row>, s: State, steps: seq<Step>, t: State)
    requires Inv(cfg, seed, s) && Leads(cfg, s, steps, t)
    ensures UsersOk(t.users)
  {
    InvRun(cfg, seed, s, steps, t);
  }

  lemma LoginFails(cfg: Config, s: State, tid: nat, email: string, q: string)
    requires tid in s.threads && s.threads[tid] == Begin(cfg, Login(email, q))
    ensures Failing(s, tid, email, q)
  {
  }

  /** In no run is a login answered 200, or with a token, whose password is not the one that the account
      with its address was made with: whether the account was there when the login came, or was
      registered meanwhile. */
  lemma WrongPasswordNeverServed(cfg: Config, seed: map<nat, Row>, s: State, steps: seq<Step>, t: State,
                                 tid: nat, row: Row, p: string, q: string)
    requires Reachable(cfg, seed, s) && Leads(cfg, s, steps, t)
    requires tid in s.threads && s.threads[tid] == Begin(cfg, Login(row.email, q))
    requires Stored(t.users, row) && row.hash == Bcrypt(p) && p != q
    ensures tid in t.threads
    ensures t.threads[tid].Done? ==> t.threads[tid].status != 200 && t.threads[tid].token == None
  {
    ReachableInv(cfg, seed, s);
    TableKept(cfg, seed, s, steps, t);
    LoginFails(cfg, s, tid, row.email, q);
    FailingRun(cfg, seed, s, steps, t, tid, row, p, q);
  }
}
