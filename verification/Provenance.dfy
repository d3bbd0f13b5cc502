/** Where codes, tokens, accounts and admissions come from, in every run of the protocol. */
module Provenance {
  import opened Prelude
  import KeyRing
  import opened Tokens
  import opened Validate
  import opened Otp
  import opened Protocol

  // ---------------------------------------------------------------- the log

  /** What must already have happened when ev happens. */
  ghost predicate Justified(before: seq<Event>, ev: Event) {
    match ev
    case Saved(email, code) => Mailed(email, code) in before
    case Checked(email, code) => email != "" && Saved(email, code) in before
    case Issued(tk, why) => tk.Jwt? && Grounds(before, tk.claims.payload, why)
    case LoggedIn(row, password) => Accepts(row.hash, password)
    case Created(row, tk, why) => Issued(tk, why) in before && row.email == EmailOf(PayloadOf(tk))
    case Admitted(id, tk, why) => Issued(tk, why) in before && id == IdOf(PayloadOf(tk))
    case _ => true
  }

  /** A token may be issued for `payload` on the ground `why`. */
  ghost predicate Grounds(before: seq<Event>, payload: Payload, why: Why) {
    match why
    case ByCode(email, code) => payload == EmailVerified(email) && Checked(email, code) in before
    case ByPassword(row, password) => payload == User(row.id) && LoggedIn(row, password) in before
  }

  ghost predicate Grounded(log: seq<Event>)
    decreases |log|
  {
    log != [] ==> Grounded(log[..|log| - 1]) && Justified(log[..|log| - 1], log[|log| - 1])
  }

  lemma GroundedAppend(log: seq<Event>, ev: Event)
    requires Grounded(log) && Justified(log, ev)
    ensures Grounded(log + [ev])
  {
    assert (log + [ev])[..|log|] == log;
  }

  lemma {:induction false} GroundedAt(log: seq<Event>, i: nat)
    requires Grounded(log) && i < |log|
    ensures Grounded(log[..i]) && Justified(log[..i], log[i])
    decreases |log|
  {
    if i < |log| - 1 {
      var front := log[..|log| - 1];
      GroundedAt(front, i);
      assert front[..i] == log[..i];
    }
  }

  // ---------------------------------------------------------------- invariant

  ghost predicate Stored(users: map<nat, Row>, row: Row) {
    row.id in users && users[row.id] == row
  }

  ghost predicate ThreadOk(cfg: Config, log: seq<Event>, users: map<nat, Row>, issued: map<Token, Why>, t: Thread) {
    match t
    case EmailLookup(email) => EmailShape(cfg.rules, email)
    case EmailExists(email) => EmailShape(cfg.rules, email)
    case EmailCode(email) => EmailShape(cfg.rules, email)
    case EmailSend(email, code) => EmailShape(cfg.rules, email) && IsCode(code, cfg.codeLen)
    case EmailSave(email, code) =>
      EmailShape(cfg.rules, email) && IsCode(code, cfg.codeLen) && Mailed(email, code) in log
    case OtpGet(email, otp) => email != "" && OtpShape(otp)
    case OtpDel(email, code) => email != "" && Saved(email, code) in log
    case MintExp(payload, _, why) => Grounds(log, payload, why)
    case MintNbf(payload, _, why) => Grounds(log, payload, why)
    case MintActive(claims, why) => Grounds(log, claims.payload, why)
    case MintLoad(claims, why, _) => Grounds(log, claims.payload, why)
    case RegCreate(_, _, _, tk, why) => tk.Jwt? && Issued(tk, why) in log
    case LoginCompare(row, _) => Stored(users, row)
    case Done(_, token) => token.Some? ==> token.value in issued
    case _ => true
  }

  ghost predicate CacheOk(cfg: Config, s: State) {
    forall e :: e in s.cache ==>
      Saved(e, s.cache[e]) in s.log && IsCode(s.cache[e], cfg.codeLen) && EmailShape(cfg.rules, e)
  }

  ghost predicate IssuedOk(s: State) {
    forall tk :: tk in s.issued ==>
      && Issued(tk, s.issued[tk]) in s.log
      && tk.Jwt? && tk.kid.Some? && tk.kid.value in s.ring.minted
      && tk.signedBy == s.ring.minted[tk.kid.value].signer
  }

  /** Every row is an original one or was made by register. */
  ghost predicate RowsKnown(seed: map<nat, Row>, s: State) {
    forall id :: id in s.users ==>
      || (id in seed && seed[id] == s.users[id])
      || (id in s.origin && Created(s.users[id], s.origin[id].0, s.origin[id].1) in s.log)
  }

  predicate Names(ev: Event, row: Row) {
    (ev.Created? || ev.LoggedIn?) && ev.row == row
  }

  /** Rows that the log mentions are in the table as they were. */
  ghost predicate RowsStay(log: seq<Event>, users: map<nat, Row>) {
    forall ev, row :: ev in log && Names(ev, row) ==> Stored(users, row)
  }

  ghost predicate RowsOk(seed: map<nat, Row>, s: State) {
    UsersOk(s.users) && RowsKnown(seed, s) && RowsStay(s.log, s.users)
  }

  ghost predicate ThreadsOk(cfg: Config, s: State) {
    forall tid :: tid in s.threads ==> ThreadOk(cfg, s.log, s.users, s.issued, s.threads[tid])
  }

  ghost predicate Inv(cfg: Config, seed: map<nat, Row>, s: State) {
    && KeyRing.Inv(cfg.life, s.ring)
    && Grounded(s.log)
    && CacheOk(cfg, s)
    && IssuedOk(s)
    && RowsOk(seed, s)
    && ThreadsOk(cfg, s)
  }

  // ---------------------------------------------------------------- steps

  /** What a thread knows stays true as the log, the table and the issued tokens grow. */
  lemma ThreadOkGrows(cfg: Config, log: seq<Event>, users: map<nat, Row>, issued: map<Token, Why>,
                      log': seq<Event>, users': map<nat, Row>, issued': map<Token, Why>, t: Thread)
    requires ThreadOk(cfg, log, users, issued, t)
    requires forall ev :: ev in log ==> ev in log'
    requires forall id :: id in users ==> id in users' && users'[id] == users[id]
    requires issued.Keys <= issued'.Keys
    ensures ThreadOk(cfg, log', users', issued', t)
  {
  }

  ghost predicate Grows(s: State, t: State) {
    && (forall ev :: ev in s.log ==> ev in t.log)
    && (forall id :: id in s.users ==> id in t.users && t.users[id] == s.users[id])
    && s.issued.Keys <= t.issued.Keys
  }

  lemma ThreadsGrow(cfg: Config, s: State, u: State, tid: nat, t: Thread)
    requires ThreadsOk(cfg, s) && Grows(s, u)
    requires ThreadOk(cfg, u.log, u.users, u.issued, t)
    ensures ThreadsOk(cfg, u.(threads := s.threads[tid := t]))
  {
    forall i | i in s.threads && i != tid
      ensures ThreadOk(cfg, u.log, u.users, u.issued, s.threads[i])
    {
      ThreadOkGrows(cfg, s.log, s.users, s.issued, u.log, u.users, u.issued, s.threads[i]);
    }
  }

  /** A thread's step from s to u, with the thread then standing at t, keeps the invariant. */
  ghost predicate ActOk(cfg: Config, seed: map<nat, Row>, s: State, u: State, t: Thread) {
    && u.ring == s.ring && u.threads == s.threads
    && Grounded(u.log) && CacheOk(cfg, u) && IssuedOk(u) && RowsOk(seed, u)
    && Grows(s, u)
    && ThreadOk(cfg, u.log, u.users, u.issued, t)
  }

  lemma SameOk(cfg: Config, seed: map<nat, Row>, s: State, t: Thread)
    requires Inv(cfg, seed, s) && ThreadOk(cfg, s.log, s.users, s.issued, t)
    ensures ActOk(cfg, seed, s, s, t)
  {
  }

  /** A step that only adds an event. */
  lemma LogOnly(cfg: Config, seed: map<nat, Row>, s: State, ev: Event, u: State, t: Thread)
    requires Inv(cfg, seed, s) && Justified(s.log, ev)
    requires forall row :: Names(ev, row) ==> Stored(s.users, row)
    requires u == s.(log := s.log + [ev]) && ThreadOk(cfg, u.log, u.users, u.issued, t)
    ensures ActOk(cfg, seed, s, u, t)
  {
    GroundedAppend(s.log, ev);
    LogGrows(cfg, seed, s, u);
  }

  /** Facts about the rest of the state survive a longer log. */
  lemma LogGrows(cfg: Config, seed: map<nat, Row>, s: State, u: State)
    requires CacheOk(cfg, s) && IssuedOk(s) && RowsOk(seed, s)
    requires u == s.(log := u.log) && forall ev :: ev in s.log ==> ev in u.log
    requires forall ev, row :: ev in u.log && ev !in s.log && Names(ev, row) ==> Stored(s.users, row)
    ensures CacheOk(cfg, u) && IssuedOk(u) && RowsOk(seed, u)
  {
    forall ev, row | ev in u.log && Names(ev, row)
      ensures Stored(u.users, row)
    {
      assert ev in s.log || ev !in s.log;
    }
  }

  /** A step that adds events about codes and changes the cache. */
  lemma CacheActOk(cfg: Config, seed: map<nat, Row>, s: State, news: seq<Event>, u: State, t: Thread)
    requires Inv(cfg, seed, s) && Grounded(s.log + news)
    requires forall ev :: ev in news ==> !ev.Created? && !ev.LoggedIn?
    requires u == s.(cache := u.cache, log := s.log + news)
    requires forall e :: e in u.cache ==>
      || (e in s.cache && u.cache[e] == s.cache[e])
      || (Saved(e, u.cache[e]) in news && IsCode(u.cache[e], cfg.codeLen) && EmailShape(cfg.rules, e))
    requires ThreadOk(cfg, u.log, u.users, u.issued, t)
    ensures ActOk(cfg, seed, s, u, t)
  {
    var v := s.(log := s.log + news);
    assert forall x :: x in v.log ==> x in s.log || x in news;
    LogGrows(cfg, seed, s, v);
  }

  lemma SaveOk(cfg: Config, seed: map<nat, Row>, s: State, email: string, code: string, lost: seq<Event>, u: State)
    requires Inv(cfg, seed, s) && Mailed(email, code) in s.log
    requires IsCode(code, cfg.codeLen) && EmailShape(cfg.rules, email)
    requires lost == [] || lost == [Lost(email)]
    requires u == s.(cache := s.cache[email := code], log := s.log + (lost + [Saved(email, code)]))
    ensures ActOk(cfg, seed, s, u, Done(204, None))
  {
    var news := lost + [Saved(email, code)];
    SaveGrounded(s.log, lost, email, code);
    assert news[|lost|] == Saved(email, code);
    CacheActOk(cfg, seed, s, news, u, Done(204, None));
  }

  lemma SaveGrounded(log: seq<Event>, lost: seq<Event>, email: string, code: string)
    requires Grounded(log) && Mailed(email, code) in log && (lost == [] || lost == [Lost(email)])
    ensures Grounded(log + (lost + [Saved(email, code)]))
  {
    GroundedMore(log, lost);
    assert Mailed(email, code) in log + lost;
    GroundedAppend(log + lost, Saved(email, code));
    assert log + lost + [Saved(email, code)] == log + (lost + [Saved(email, code)]);
  }

  lemma GroundedMore(log: seq<Event>, more: seq<Event>)
    requires Grounded(log) && |more| <= 1 && (more != [] ==> more[0].Lost? || more[0].Cleared?)
    ensures Grounded(log + more)
  {
    if more == [] {
      assert log + more == log;
    } else {
      GroundedAppend(log, more[0]);
      assert more == [more[0]];
    }
  }

  lemma EmailActOk(cfg: Config, seed: map<nat, Row>, s: State, t: Thread, ch: Choice)
    requires Inv(cfg, seed, s) && ThreadOk(cfg, s.log, s.users, s.issued, t)
    requires t.EmailLookup? || t.EmailExists? || t.EmailCode? || t.EmailSend? || t.EmailSave?
    requires CanGo(cfg, s, t, ch)
    ensures var r := EmailAct(cfg, s, t, ch); ActOk(cfg, seed, s, r.0, r.1)
  {
    var r := EmailAct(cfg, s, t, ch);
    if t.EmailSend? && ch.Plain? {
      assert Mailed(t.email, t.code) in s.log + [Mailed(t.email, t.code)];
      LogOnly(cfg, seed, s, Mailed(t.email, t.code), r.0, r.1);
    } else if t.EmailSave? && ch.Plain? {
      var lost := if t.email in s.cache then [Lost(t.email)] else [];
      assert s.log + lost + [Saved(t.email, t.code)] == s.log + (lost + [Saved(t.email, t.code)]);
      SaveOk(cfg, seed, s, t.email, t.code, lost, r.0);
    } else {
      assert r.0 == s;
      SameOk(cfg, seed, s, r.1);
    }
  }

  lemma OtpActOk(cfg: Config, seed: map<nat, Row>, s: State, t: Thread, ch: Choice)
    requires Inv(cfg, seed, s) && ThreadOk(cfg, s.log, s.users, s.issued, t)
    requires t.OtpGet? || t.OtpDel?
    requires CanGo(cfg, s, t, ch)
    ensures var r := OtpAct(cfg, s, t, ch); ActOk(cfg, seed, s, r.0, r.1)
  {
    var r := OtpAct(cfg, s, t, ch);
    if t.OtpDel? {
      DelOk(cfg, seed, s, t.email, t.code, r.0, r.1);
    } else {
      assert r.0 == s;
      SameOk(cfg, seed, s, r.1);
    }
  }

  lemma DelOk(cfg: Config, seed: map<nat, Row>, s: State, email: string, code: string, u: State, t: Thread)
    requires Inv(cfg, seed, s) && email != "" && Saved(email, code) in s.log
    requires t == MintExp(EmailVerified(email), cfg.verifyLife, ByCode(email, code))
    requires var cleared := if email in s.cache then [Cleared(email)] else [];
      u == s.(cache := s.cache - {email}, log := s.log + [Checked(email, code)] + cleared)
    ensures ActOk(cfg, seed, s, u, t)
  {
    var cleared := if email in s.cache then [Cleared(email)] else [];
    var ev := Checked(email, code);
    GroundedAppend(s.log, ev);
    GroundedMore(s.log + [ev], cleared);
    var news := [ev] + cleared;
    assert s.log + [ev] + cleared == s.log + news;
    assert ev in s.log + news by {
      assert (s.log + news)[|s.log|] == ev;
    }
    CacheActOk(cfg, seed, s, news, u, t);
  }

  lemma IssueOk(cfg: Config, seed: map<nat, Row>, s: State, claims: Claims, why: Why, kid: nat,
                u: State, t: Thread)
    requires Inv(cfg, seed, s) && Grounds(s.log, claims.payload, why) && kid in s.ring.store
    requires t == Done(500, None) || t == Done(200, Some(Sign(kid, s.ring.store[kid], claims)))
    requires var tk := Sign(kid, s.ring.store[kid], claims);
      u == s.(issued := s.issued[tk := why], log := s.log + [Issued(tk, why)])
    ensures ActOk(cfg, seed, s, u, t)
  {
    var tk := Sign(kid, s.ring.store[kid], claims);
    var ev := Issued(tk, why);
    GroundedAppend(s.log, ev);
    var v := s.(log := s.log + [ev]);
    LogGrows(cfg, seed, s, v);
    assert kid in s.ring.minted && tk.signedBy == s.ring.minted[kid].signer;
    assert ev in v.log;
  }

  lemma MintActOk(cfg: Config, seed: map<nat, Row>, s: State, t: Thread, ch: Choice)
    requires Inv(cfg, seed, s) && ThreadOk(cfg, s.log, s.users, s.issued, t)
    requires t.MintExp? || t.MintNbf? || t.MintActive? || t.MintLoad?
    ensures var r := MintAct(cfg, s, t, ch); ActOk(cfg, seed, s, r.0, r.1)
  {
    var r := MintAct(cfg, s, t, ch);
    if t.MintLoad? && t.kid in s.ring.store {
      IssueOk(cfg, seed, s, t.claims, t.why, t.kid, r.0, r.1);
    } else {
      assert r.0 == s;
      SameOk(cfg, seed, s, r.1);
    }
  }

  /** A token that parses was issued by the program. */
  lemma ParsedIsIssued(cfg: Config, seed: map<nat, Row>, s: State, tk: Token)
    requires Inv(cfg, seed, s) && Unforged(s, tk) && Parse(s.ring.store, s.ring.now, tk).Ok?
    ensures tk in s.issued && Issued(tk, WhyOf(s, tk)) in s.log
  {
    assert tk.kid.value in s.ring.minted;
  }

  lemma CreateOk(cfg: Config, seed: map<nat, Row>, s: State, row: Row, tk: Token, why: Why, u: State)
    requires Inv(cfg, seed, s) && Issued(tk, why) in s.log && row.email == EmailOf(PayloadOf(tk))
    requires 1 <= row.id && row.id !in s.users && !Conflict(s.users, row.email, row.username)
    requires u == s.(users := s.users[row.id := row], origin := s.origin[row.id := (tk, why)],
                     log := s.log + [Created(row, tk, why)])
    ensures ActOk(cfg, seed, s, u, Done(201, None))
  {
    var ev := Created(row, tk, why);
    GroundedAppend(s.log, ev);
    assert ev in u.log && forall x :: x in u.log ==> x in s.log || x == ev;
    NewRowsStay(s.log, s.users, u.log, row, ev);
    NewRowOk(s.users, row);
    NewRowKnown(seed, s, row, tk, why);
  }

  lemma NewRowKnown(seed: map<nat, Row>, s: State, row: Row, tk: Token, why: Why)
    requires RowsKnown(seed, s) && row.id !in s.users
    ensures RowsKnown(seed, s.(users := s.users[row.id := row], origin := s.origin[row.id := (tk, why)],
                               log := s.log + [Created(row, tk, why)]))
  {
    assert Created(row, tk, why) in s.log + [Created(row, tk, why)];
  }

  lemma NewRowsStay(log: seq<Event>, users: map<nat, Row>, log': seq<Event>, row: Row, ev: Event)
    requires RowsStay(log, users) && row.id !in users
    requires forall x :: x in log' ==> x in log || x == ev
    requires forall r :: Names(ev, r) ==> r == row
    ensures RowsStay(log', users[row.id := row])
  {
    forall x, r | x in log' && Names(x, r)
      ensures Stored(users[row.id := row], r)
    {
      if x in log {
        assert Stored(users, r);
      }
    }
  }

  lemma NewRowOk(users: map<nat, Row>, row: Row)
    requires UsersOk(users) && 1 <= row.id && row.id !in users && !Conflict(users, row.email, row.username)
    ensures UsersOk(users[row.id := row])
  {
  }

  lemma RegActOk(cfg: Config, seed: map<nat, Row>, s: State, t: Thread, ch: Choice)
    requires Inv(cfg, seed, s) && ThreadOk(cfg, s.log, s.users, s.issued, t)
    requires t.RegParse? || t.RegCreate?
    requires CanGo(cfg, s, t, ch)
    ensures var r := RegAct(cfg, s, t, ch); ActOk(cfg, seed, s, r.0, r.1)
  {
    var r := RegAct(cfg, s, t, ch);
    if t.RegCreate? && ch.Id? {
      var row := Row(ch.id, t.username, t.name, EmailOf(PayloadOf(t.tk)), Bcrypt(t.password));
      CreateOk(cfg, seed, s, row, t.tk, t.why, r.0);
    } else {
      assert r.0 == s;
      if r.1.RegCreate? {
        ParsedIsIssued(cfg, seed, s, Presented(cfg, t.header));
      }
      SameOk(cfg, seed, s, r.1);
    }
  }

  lemma LoginActOk(cfg: Config, seed: map<nat, Row>, s: State, t: Thread, ch: Choice)
    requires Inv(cfg, seed, s) && ThreadOk(cfg, s.log, s.users, s.issued, t)
    requires t.LoginLookup? || t.LoginCompare? || t.AccessParse?
    requires CanGo(cfg, s, t, ch)
    ensures var r := LoginAct(cfg, s, t, ch); ActOk(cfg, seed, s, r.0, r.1)
  {
    var r := LoginAct(cfg, s, t, ch);
    if t.LoginCompare? && Accepts(t.row.hash, t.password) {
      var ev := LoggedIn(t.row, t.password);
      assert ev in s.log + [ev];
      LogOnly(cfg, seed, s, ev, r.0, r.1);
    } else if r.1.Inner? {
      var tk := Presented(cfg, t.header);
      ParsedIsIssued(cfg, seed, s, tk);
      LogOnly(cfg, seed, s, Admitted(IdOf(PayloadOf(tk)), tk, WhyOf(s, tk)), r.0, r.1);
    } else {
      assert r.0 == s;
      SameOk(cfg, seed, s, r.1);
    }
  }

  lemma GoOk(cfg: Config, seed: map<nat, Row>, s: State, tid: nat, ch: Choice)
    requires Inv(cfg, seed, s) && Enabled(cfg, s, Go(tid, ch))
    ensures Inv(cfg, seed, Apply(cfg, s, Go(tid, ch)))
  {
    var t := s.threads[tid];
    var r := Act(cfg, s, t, ch);
    assert ActOk(cfg, seed, s, r.0, r.1) by {
      if t.EmailLookup? || t.EmailExists? || t.EmailCode? || t.EmailSend? || t.EmailSave? {
        EmailActOk(cfg, seed, s, t, ch);
      } else if t.OtpGet? || t.OtpDel? {
        OtpActOk(cfg, seed, s, t, ch);
      } else if t.RegParse? || t.RegCreate? {
        RegActOk(cfg, seed, s, t, ch);
      } else if t.LoginLookup? || t.LoginCompare? || t.AccessParse? {
        LoginActOk(cfg, seed, s, t, ch);
      } else {
        MintActOk(cfg, seed, s, t, ch);
      }
    }
    ThreadsGrow(cfg, s, r.0, tid, r.1);
  }

  lemma EvictOk(cfg: Config, seed: map<nat, Row>, s: State, email: string, t: State)
    requires Inv(cfg, seed, s) && t == s.(cache := s.cache - {email}, log := s.log + [Lost(email)])
    ensures Inv(cfg, seed, t)
  {
    var u := s.(log := s.log + [Lost(email)]);
    LogOnly(cfg, seed, s, Lost(email), u, Done(0, None));
    forall tid | tid in s.threads
      ensures ThreadOk(cfg, u.log, u.users, u.issued, s.threads[tid])
    {
      ThreadOkGrows(cfg, s.log, s.users, s.issued, u.log, u.users, u.issued, s.threads[tid]);
    }
  }

  lemma {:induction false} InvStep(cfg: Config, seed: map<nat, Row>, s: State, st: Step)
    requires Inv(cfg, seed, s) && Enabled(cfg, s, st)
    ensures Inv(cfg, seed, Apply(cfg, s, st))
  {
    match st
    case Ring(step) =>
      KeyRing.InvStep(cfg.life, s.ring, step);
      KeyRing.MintedStays(cfg.life, s.ring, step);
    case Evict(email) =>
      EvictOk(cfg, seed, s, email, Apply(cfg, s, st));
    case Spawn(tid, req) =>
      ThreadsGrow(cfg, s, s, tid, Begin(cfg, req));
    case Go(tid, ch) =>
      GoOk(cfg, seed, s, tid, ch);
  }

  lemma {:induction false} InvRun(cfg: Config, seed: map<nat, Row>, s: State, steps: seq<Step>, t: State)
    requires Inv(cfg, seed, s) && Leads(cfg, s, steps, t)
    ensures Inv(cfg, seed, t)
    decreases |steps|
  {
    if steps != [] {
      InvStep(cfg, seed, s, steps[0]);
      InvRun(cfg, seed, Apply(cfg, s, steps[0]), steps[1..], t);
    }
  }

  /** t is a state of a run that begins with the table `seed`. */
  ghost predicate Reachable(cfg: Config, seed: map<nat, Row>, t: State) {
    exists s, steps :: IsStart(cfg, s) && s.users == seed && Leads(cfg, s, steps, t)
  }

  lemma ReachableInv(cfg: Config, seed: map<nat, Row>, t: State)
    requires Reachable(cfg, seed, t)
    ensures Inv(cfg, seed, t)
  {
    var s, steps :| IsStart(cfg, s) && s.users == seed && Leads(cfg, s, steps, t);
    InvRun(cfg, seed, s, steps, t);
  }

  lemma ReachableLeads(cfg: Config, seed: map<nat, Row>, s: State, steps: seq<Step>, t: State)
    requires Reachable(cfg, seed, s) && Leads(cfg, s, steps, t)
    ensures Reachable(cfg, seed, t)
  {
    var init, before :| IsStart(cfg, init) && init.users == seed && Leads(cfg, init, before, s);
    LeadsConcat(cfg, init, before, s, steps, t);
  }

  // ---------------------------------------------------------------- provenance

  /** log[i] is ev. */
  ghost predicate At(log: seq<Event>, i: int, ev: Event) {
    0 <= i < |log| && log[i] == ev
  }

  lemma EarlierAt(log: seq<Event>, i: int, ev: Event) returns (j: int)
    requires 0 <= i <= |log| && ev in log[..i]
    ensures 0 <= j < i && At(log, j, ev)
  {
    j :| 0 <= j < i && log[..i][j] == ev;
  }

  /** A code in the cache was mailed to its address and then saved. */
  lemma CodeProvenance(cfg: Config, seed: map<nat, Row>, s: State, email: string) returns (mailed: int, saved: int)
    requires Reachable(cfg, seed, s) && email in s.cache
    ensures mailed < saved
    ensures At(s.log, mailed, Mailed(email, s.cache[email])) && At(s.log, saved, Saved(email, s.cache[email]))
    ensures EmailShape(cfg.rules, email) && IsCode(s.cache[email], cfg.codeLen)
  {
    ReachableInv(cfg, seed, s);
    assert s.log[..|s.log|] == s.log;
    saved := EarlierAt(s.log, |s.log|, Saved(email, s.cache[email]));
    GroundedAt(s.log, saved);
    mailed := EarlierAt(s.log, saved, Mailed(email, s.cache[email]));
  }

  /** A token for an e-mail address follows a successful check of a code that had been mailed to
      exactly that address. */
  lemma TokenProvenance(cfg: Config, seed: map<nat, Row>, s: State, tk: Token, why: Why, issued: int)
      returns (code: string, mailed: int, saved: int, checked: int)
    requires Reachable(cfg, seed, s) && At(s.log, issued, Issued(tk, why))
    requires EmailOf(PayloadOf(tk)) != ""
    ensures mailed < saved < checked < issued
    ensures var email := EmailOf(PayloadOf(tk));
      && At(s.log, mailed, Mailed(email, code)) && At(s.log, saved, Saved(email, code))
      && At(s.log, checked, Checked(email, code)) && why == ByCode(email, code)
  {
    ReachableInv(cfg, seed, s);
    GroundedAt(s.log, issued);
    var email := EmailOf(PayloadOf(tk));
    code := why.code;
    checked := EarlierAt(s.log, issued, Checked(email, code));
    GroundedAt(s.log, checked);
    saved := EarlierAt(s.log, checked, Saved(email, code));
    GroundedAt(s.log, saved);
    mailed := EarlierAt(s.log, saved, Mailed(email, code));
  }

  /** An account that was not there at the start and has an e-mail address was created with a token
      issued on the check of a code mailed to that address. */
  lemma AccountProvenance(cfg: Config, seed: map<nat, Row>, s: State, id: nat)
      returns (tk: Token, code: string, mailed: int, saved: int, checked: int, issued: int, created: int)
    requires Reachable(cfg, seed, s) && id in s.users && s.users[id].email != ""
    requires id !in seed || seed[id] != s.users[id]
    ensures mailed < saved < checked < issued < created
    ensures var email := s.users[id].email;
      && At(s.log, mailed, Mailed(email, code)) && At(s.log, saved, Saved(email, code))
      && At(s.log, checked, Checked(email, code)) && At(s.log, issued, Issued(tk, ByCode(email, code)))
      && At(s.log, created, Created(s.users[id], tk, ByCode(email, code)))
  {
    ReachableInv(cfg, seed, s);
    var (token, why) := s.origin[id];
    tk := token;
    assert s.log[..|s.log|] == s.log;
    created := EarlierAt(s.log, |s.log|, Created(s.users[id], tk, why));
    GroundedAt(s.log, created);
    issued := EarlierAt(s.log, created, Issued(tk, why));
    code, mailed, saved, checked := TokenProvenance(cfg, seed, s, tk, why, issued);
  }

  /** The restriction to accounts with an e-mail address is exact. The ground on which the account's
      token was issued is a password check if and only if the address is empty: register reads a
      session token, which has no address, as one for the empty address. */
  lemma EmptyAddressIff(cfg: Config, seed: map<nat, Row>, s: State, id: nat)
      returns (tk: Token, why: Why, checked: int, issued: int, created: int)
    requires Reachable(cfg, seed, s) && id in s.users
    requires id !in seed || seed[id] != s.users[id]
    ensures checked < issued < created
    ensures At(s.log, issued, Issued(tk, why)) && At(s.log, created, Created(s.users[id], tk, why))
    ensures s.users[id].email == "" <==> why.ByPassword?
    ensures match why
      case ByCode(email, code) => email == s.users[id].email && At(s.log, checked, Checked(email, code))
      case ByPassword(row, password) =>
        Stored(s.users, row) && row.hash == Bcrypt(password) && At(s.log, checked, LoggedIn(row, password))
  {
    ReachableInv(cfg, seed, s);
    var (token, ground) := s.origin[id];
    tk, why := token, ground;
    assert s.log[..|s.log|] == s.log;
    created := EarlierAt(s.log, |s.log|, Created(s.users[id], tk, why));
    GroundedAt(s.log, created);
    issued := EarlierAt(s.log, created, Issued(tk, why));
    GroundedAt(s.log, issued);
    checked := EarlierAt(s.log, issued,
      if why.ByCode? then Checked(why.email, why.code) else LoggedIn(why.row, why.password));
    GroundedAt(s.log, checked);
    assert why.ByPassword? ==> s.log[checked] in s.log && Names(s.log[checked], why.row);
  }

  /** At the step that creates an account: a code was checked for the account's address if and only if
      the record of the token presented has an address, if and only if it is that of a verified
      address and not that of a session. The handler can test the second before it creates. */
  lemma VerifiedIff(cfg: Config, seed: map<nat, Row>, s: State, tid: nat, ch: Choice)
    requires Reachable(cfg, seed, s) && Enabled(cfg, s, Go(tid, ch)) && s.threads[tid].RegCreate? && ch.Id?
    ensures var t := Apply(cfg, s, Go(tid, ch)); var payload := PayloadOf(s.threads[tid].tk);
      && ch.id in t.users
      && (AddressChecked(s.log, t.users[ch.id].email) <==> EmailOf(payload) != "")
      && (AddressChecked(s.log, t.users[ch.id].email) <==> payload.EmailVerified?)
  {
    ReachableInv(cfg, seed, s);
    var thread := s.threads[tid];
    assert ThreadOk(cfg, s.log, s.users, s.issued, thread);
    TokenGrounds(s.log, thread.tk, thread.why);
    EmptyNeverChecked(s.log);
  }

  /** Some code of the address was accepted. */
  ghost predicate AddressChecked(log: seq<Event>, email: string) {
    exists code :: Checked(email, code) in log
  }

  lemma TokenGrounds(log: seq<Event>, tk: Token, why: Why)
    requires Grounded(log) && Issued(tk, why) in log && tk.Jwt?
    ensures PayloadOf(tk).EmailVerified? <==> EmailOf(PayloadOf(tk)) != ""
    ensures EmailOf(PayloadOf(tk)) != "" ==> AddressChecked(log, EmailOf(PayloadOf(tk)))
  {
    assert log[..|log|] == log;
    var issued := EarlierAt(log, |log|, Issued(tk, why));
    GroundedAt(log, issued);
    if why.ByCode? {
      var checked := EarlierAt(log, issued, Checked(why.email, why.code));
      GroundedAt(log, checked);
      assert Checked(why.email, why.code) in log;
    }
  }

  lemma EmptyNeverChecked(log: seq<Event>)
    requires Grounded(log)
    ensures !AddressChecked(log, "")
  {
    if code :| Checked("", code) in log {
      assert log[..|log|] == log;
      var i := EarlierAt(log, |log|, Checked("", code));
      GroundedAt(log, i);
      assert false;
    }
  }

  /** Whoever passes the Auth middleware with a user id of at least 1 holds a token issued to that
      user after a login with a password that the stored hash accepts. */
  lemma AdmissionProvenance(cfg: Config, seed: map<nat, Row>, s: State, id: int, tk: Token, why: Why, admitted: int)
      returns (row: Row, password: string, loggedIn: int, issued: int)
    requires Reachable(cfg, seed, s) && At(s.log, admitted, Admitted(id, tk, why)) && 1 <= id
    ensures loggedIn < issued < admitted
    ensures row.id == id && Stored(s.users, row) && row.hash == Bcrypt(password)
    ensures At(s.log, loggedIn, LoggedIn(row, password)) && At(s.log, issued, Issued(tk, ByPassword(row, password)))
  {
    ReachableInv(cfg, seed, s);
    GroundedAt(s.log, admitted);
    issued := EarlierAt(s.log, admitted, Issued(tk, why));
    GroundedAt(s.log, issued);
    row, password := why.row, why.password;
    loggedIn := EarlierAt(s.log, issued, LoggedIn(row, password));
    GroundedAt(s.log, loggedIn);
    assert s.log[loggedIn] in s.log && Names(s.log[loggedIn], row);
  }

  /** The id handed on is a user's if and only if the token was issued on a password check. A token for
      a verified address passes Auth too, and is handed on as user 0. */
  lemma AdmittedIff(cfg: Config, seed: map<nat, Row>, s: State, id: int, tk: Token, why: Why, admitted: int)
    requires Reachable(cfg, seed, s) && At(s.log, admitted, Admitted(id, tk, why))
    ensures 1 <= id <==> why.ByPassword?
    ensures id != 0 <==> why.ByPassword?
  {
    ReachableInv(cfg, seed, s);
    GroundedAt(s.log, admitted);
    var issued := EarlierAt(s.log, admitted, Issued(tk, why));
    GroundedAt(s.log, issued);
    if why.ByPassword? {
      var loggedIn := EarlierAt(s.log, issued, LoggedIn(why.row, why.password));
      assert s.log[loggedIn] in s.log && Names(s.log[loggedIn], why.row);
      assert Stored(s.users, why.row);
    }
  }

  /** The step that admits: the token's key is held, its dates are right, and the inner handler
      gets the id of the token and of the log entry. */
  lemma AdmissionStep(cfg: Config, seed: map<nat, Row>, s: State, tid: nat, ch: Choice)
    requires Reachable(cfg, seed, s) && Enabled(cfg, s, Go(tid, ch)) && s.threads[tid].AccessParse?
    ensures var t := Apply(cfg, s, Go(tid, ch));
      var tk := Presented(cfg, s.threads[tid].header);
      if t.threads[tid].Inner? then
        && tk in s.issued && tk.kid.value in s.ring.store
        && tk.claims.nbf <= s.ring.now < tk.claims.exp
        && At(t.log, |s.log|, Admitted(t.threads[tid].id, tk, WhyOf(s, tk)))
      else
        t.threads[tid] == Done(401, None) && t.log == s.log
  {
    ReachableInv(cfg, seed, s);
    var tk := Presented(cfg, s.threads[tid].header);
    if Parse(s.ring.store, s.ring.now, tk).Ok? {
      ParsedIsIssued(cfg, seed, s, tk);
    }
  }
}
