/** What the contracts of the imperative handlers say is what a run of Protocol does in which the
    handler's thread is the only one to move. So one call leads, by a run, from a state that the objects
    stand for to one that they then stand for. */
module HandlerRuns {
  import opened Prelude
  import opened Tokens
  import opened Otp
  import opened Validate
  import opened Protocol
  import opened ThreadSteps
  import opened Handlers

  /** The mails that a log records. */
  function MailsOf(log: seq<Event>): seq<(string, string)>
    decreases |log|
  {
    if log == [] then []
    else
      var last := log[|log| - 1];
      MailsOf(log[..|log| - 1]) + (if last.Mailed? then [(last.email, last.code)] else [])
  }

  lemma MailsAppend(log: seq<Event>, ev: Event)
    ensures MailsOf(log + [ev]) == MailsOf(log) + (if ev.Mailed? then [(ev.email, ev.code)] else [])
  {
    assert (log + [ev])[..|log|] == log;
  }

  /** t is s after one request, answered by thread tid at time `now` with effect e. */
  ghost predicate After(s: State, tid: nat, now: Time, e: Effect, t: State) {
    && t.threads == s.threads[tid := Done(e.status, e.token)]
    && t.cache == e.cache && t.users == e.users && t.ring == s.ring.(now := now)
    && MailsOf(t.log) == MailsOf(s.log) + e.mails
  }

  /** verifyEmail from the moment no code was found for the address. */
  lemma SendIsRun(cfg: Config, s0: State, tr: Trail, s: State, tid: nat, email: string, code: Option<string>,
                  messageFails: bool, sendFails: bool, saveFails: bool) returns (more: Trail, t: State)
    requires IsTrail(cfg, s0, tr, s) && s == At(s0, s0, tid, EmailCode(email)) && email !in s.cache
    requires code.Some? ==> IsCode(code.value, cfg.codeLen)
    ensures IsTrail(cfg, s0, more, t)
    ensures After(s0, tid, s0.ring.now,
      MailEffect(s0.cache, s0.users, email, code, messageFails, sendFails, saveFails), t)
  {
    var message := if messageFails then None else code;
    more, t := Drew(cfg, s0, tr, s, tid, email, message);
    if message.Some? {
      more, t := Sent(cfg, s0, more, t, tid, email, code.value, sendFails);
      if !sendFails {
        MailsAppend(s0.log, Mailed(email, code.value));
        MailsAppend(t.log, Saved(email, code.value));
        more, t := WasSaved(cfg, s0, more, t, tid, email, code.value, saveFails);
      }
    }
  }

  lemma VerifyEmailIsRun(cfg: Config, s: State, tid: nat, x: EmailInput) returns (tr: Trail, t: State)
    requires tid !in s.threads && (x.code.Some? ==> IsCode(x.code.value, cfg.codeLen))
    ensures IsTrail(cfg, s, tr, t) && After(s, tid, s.ring.now, EmailEffect(cfg, s.cache, s.users, x), t)
  {
    var req := if x.body.None? then Garbled else VerifyEmail(x.body.value);
    tr, t := Spawned(cfg, s, tid, req, Begin(cfg, req));
    if x.body.Some? && EmailShape(cfg.rules, x.body.value) {
      var email := x.body.value;
      tr, t := LookedUp(cfg, s, tr, t, tid, email, x.lookup);
      if t.threads[tid].EmailExists? {
        tr, t := AskedExists(cfg, s, tr, t, tid, email, x.existsFails);
        if !x.existsFails && email !in s.cache {
          tr, t := SendIsRun(cfg, s, tr, t, tid, email, x.code, x.messageFails, x.sendFails, x.saveFails);
        }
      }
    }
  }

  /** The part that verifyOTP and authenticate share. */
  lemma IssueIsRun(cfg: Config, s0: State, tr: Trail, s: State, tid: nat, payload: Payload, lifetime: int, why: Why,
                   fault: bool, at: Readings, now: Time) returns (more: Trail, t: State)
    requires IsTrail(cfg, s0, tr, s) && s.threads == s0.threads[tid := MintExp(payload, lifetime, why)]
    requires s.ring.now <= at.exp <= at.nbf <= now
    ensures IsTrail(cfg, s0, more, t)
    ensures var e := MintEffect(cfg, s.cache, s.users, s.ring.store, s.ring.active, payload, lifetime, fault, at);
      && t.threads == s0.threads[tid := Done(e.status, e.token)]
      && t.cache == s.cache && t.users == s.users && t.ring == s.ring.(now := now)
      && MailsOf(t.log) == MailsOf(s.log)
  {
    var claims := NewClaims(payload, lifetime, cfg.precision, at.exp, at.nbf);
    more, t := ClaimsAreRun(cfg, s0, tr, s, tid, payload, lifetime, why, at, now);
    if s.ring.active in s.ring.store {
      MailsAppend(s.log, Issued(Sign(s.ring.active, s.ring.store[s.ring.active], claims), why));
    }
    more, t := Signed(cfg, s0, more, t, tid, claims, why, fault);
  }

  lemma ClaimsAreRun(cfg: Config, s0: State, tr: Trail, s: State, tid: nat, payload: Payload, lifetime: int, why: Why,
                     at: Readings, now: Time) returns (more: Trail, t: State)
    requires IsTrail(cfg, s0, tr, s) && s.threads == s0.threads[tid := MintExp(payload, lifetime, why)]
    requires s.ring.now <= at.exp <= at.nbf <= now
    ensures IsTrail(cfg, s0, more, t)
    ensures t == s.(ring := s.ring.(now := now),
      threads := s0.threads[tid := MintActive(NewClaims(payload, lifetime, cfg.precision, at.exp, at.nbf), why)])
  {
    more, t := Ticked(cfg, s0, tr, s, at.exp);
    more, t := ReadExp(cfg, s0, more, t, tid, payload, lifetime, why);
    more, t := Ticked(cfg, s0, more, t, at.nbf);
    more, t := ReadNbf(cfg, s0, more, t, tid, payload, NumericDate(at.exp + lifetime, cfg.precision), why);
    more, t := Ticked(cfg, s0, more, t, now);
  }

  lemma CheckIsRun(cfg: Config, s0: State, tr: Trail, s: State, tid: nat, email: string, otp: string, fails: bool,
                   fault: bool, at: Readings, now: Time) returns (more: Trail, t: State)
    requires IsTrail(cfg, s0, tr, s) && s == s0.(threads := s0.threads[tid := OtpGet(email, otp)])
    requires s.ring.now <= at.exp <= at.nbf <= now
    ensures IsTrail(cfg, s0, more, t)
    ensures After(s0, tid, now,
      if fails || email !in s.cache || s.cache[email] != otp then Effect(401, None, s.cache, [], s.users)
      else MintEffect(cfg, s.cache - {email}, s.users, s.ring.store, s.ring.active, EmailVerified(email),
                      cfg.verifyLife, fault, at), t)
  {
    if fails || email !in s.cache || s.cache[email] != otp {
      more, t := Refused(cfg, s0, tr, s, tid, email, otp, fails);
      more, t := Ticked(cfg, s0, more, t, now);
    } else {
      MailsAppend(s.log, Checked(email, otp));
      MailsAppend(s.log + [Checked(email, otp)], Cleared(email));
      more, t := Accepted(cfg, s0, tr, s, tid, email, otp);
      more, t := IssueIsRun(cfg, s0, more, t, tid, EmailVerified(email), cfg.verifyLife, ByCode(email, otp),
                            fault, at, now);
    }
  }

  lemma VerifyOtpIsRun(cfg: Config, s: State, tid: nat, x: OtpInput, at: Readings, now: Time)
      returns (tr: Trail, t: State)
    requires tid !in s.threads && s.ring.now <= at.exp <= at.nbf <= now
    ensures IsTrail(cfg, s, tr, t)
    ensures After(s, tid, now, OtpEffect(cfg, s.cache, s.users, s.ring.store, s.ring.active, x, at), t)
  {
    var req := if x.body.None? then Garbled else VerifyOtp(x.body.value.0, x.body.value.1);
    var first := Begin(cfg, req);
    tr, t := Spawned(cfg, s, tid, req, first);
    if first.OtpGet? {
      tr, t := CheckIsRun(cfg, s, tr, t, tid, first.email, first.otp, x.checkFails, x.respondFails, at, now);
    } else {
      tr, t := Ticked(cfg, s, tr, t, now);
    }
  }

  lemma CreateIsRun(cfg: Config, s0: State, tr: Trail, s: State, tid: nat, t: Thread, id: nat, fails: bool)
      returns (more: Trail, u: State)
    requires IsTrail(cfg, s0, tr, s) && s.threads == s0.threads[tid := t] && t.RegCreate?
    requires 1 <= id && id !in s.users
    ensures IsTrail(cfg, s0, more, u)
    ensures var email := EmailOf(PayloadOf(t.tk));
      var ok := !fails && !Conflict(s.users, email, t.username);
      && u.threads == s0.threads[tid := Done(if ok then 201 else 500, None)]
      && u.users == (if ok then s.users[id := Row(id, t.username, t.name, email, Bcrypt(t.password))] else s.users)
      && u.cache == s.cache && u.ring == s.ring && MailsOf(u.log) == MailsOf(s.log)
  {
    var email := EmailOf(PayloadOf(t.tk));
    var newId := if fails || Conflict(s.users, email, t.username) then None else Some(id);
    if newId.Some? {
      MailsAppend(s.log, Created(Row(id, t.username, t.name, email, Bcrypt(t.password)), t.tk, t.why));
    }
    more, u := WasCreated(cfg, s0, tr, s, tid, t, newId);
  }

  lemma ParseIsRun(cfg: Config, s0: State, tr: Trail, s: State, tid: nat, first: Thread, id: nat, fails: bool)
      returns (more: Trail, t: State)
    requires IsTrail(cfg, s0, tr, s) && s.threads == s0.threads[tid := first] && first.RegParse?
    requires 1 <= id && id !in s.users && Unforged(s, Presented(cfg, first.header))
    ensures IsTrail(cfg, s0, more, t)
    ensures var tk := Presented(cfg, first.header); var email := EmailOf(PayloadOf(tk));
      var parsed := Parse(s.ring.store, s.ring.now, tk).Ok?;
      var ok := parsed && !fails && !Conflict(s.users, email, first.username);
      && t.threads == s0.threads[tid := Done(if !parsed then 401 else if ok then 201 else 500, None)]
      && t.users == (if !ok then s.users else
                       s.users[id := Row(id, first.username, first.name, email, Bcrypt(first.password))])
      && t.cache == s.cache && t.ring == s.ring && MailsOf(t.log) == MailsOf(s.log)
  {
    var tk := Presented(cfg, first.header);
    more, t := Parsed(cfg, s0, tr, s, tid, first);
    if Parse(s.ring.store, s.ring.now, tk).Ok? {
      var next := RegCreate(first.name, first.username, first.password, tk, WhyOf(s, tk));
      more, t := CreateIsRun(cfg, s0, more, t, tid, next, id, fails);
    }
  }

  lemma RegisterIsRun(cfg: Config, s: State, tid: nat, x: RegisterInput, now: Time) returns (tr: Trail, t: State)
    requires tid !in s.threads && s.ring.now <= now && 1 <= x.id && x.id !in s.users
    requires Unforged(s, Presented(cfg, x.header))
    ensures IsTrail(cfg, s, tr, t)
    ensures After(s, tid, now, RegisterEffect(cfg, s.cache, s.users, s.ring.store, now, x), t)
  {
    var req := if x.body.None? then Garbled
               else Register(x.body.value.name, x.body.value.username, x.body.value.password, x.header);
    var first := Begin(cfg, req);
    tr, t := Spawned(cfg, s, tid, req, first);
    tr, t := Ticked(cfg, s, tr, t, now);
    var parsed := Parse(s.ring.store, now, Presented(cfg, x.header));
    assert parsed.Ok? ==> parsed.value == PayloadOf(Presented(cfg, x.header));
    if first.RegParse? {
      tr, t := ParseIsRun(cfg, s, tr, t, tid, first, x.id, x.createFails);
    }
  }

  /** authenticate from the moment it has the row. */
  lemma CompareIsRun(cfg: Config, s0: State, tr: Trail, s: State, tid: nat, row: Row, password: string,
                     fault: bool, at: Readings, now: Time) returns (more: Trail, t: State)
    requires IsTrail(cfg, s0, tr, s) && s == At(s0, s0, tid, LoginCompare(row, password))
    requires s.ring.now <= at.exp <= at.nbf <= now
    ensures IsTrail(cfg, s0, more, t)
    ensures After(s0, tid, now,
      if !Accepts(row.hash, password) then Effect(401, None, s.cache, [], s.users)
      else MintEffect(cfg, s.cache, s.users, s.ring.store, s.ring.active, User(row.id), cfg.sessionLife, fault, at), t)
  {
    more, t := Compared(cfg, s0, tr, s, tid, row, password);
    if Accepts(row.hash, password) {
      MailsAppend(s.log, LoggedIn(row, password));
      more, t := IssueIsRun(cfg, s0, more, t, tid, User(row.id), cfg.sessionLife, ByPassword(row, password),
                            fault, at, now);
    } else {
      more, t := Ticked(cfg, s0, more, t, now);
    }
  }

  lemma LoginIsRun(cfg: Config, s0: State, tr: Trail, s: State, tid: nat, email: string, password: string, q: Query,
                   fault: bool, at: Readings, now: Time) returns (more: Trail, t: State)
    requires IsTrail(cfg, s0, tr, s) && s == s0.(threads := s0.threads[tid := LoginLookup(email, password)])
    requires s.ring.now <= at.exp <= at.nbf <= now
    ensures IsTrail(cfg, s0, more, t)
    ensures var found := if q.Misses? then None else FindUser(s.users, email);
      After(s0, tid, now,
        if q.Fails? then Effect(500, None, s.cache, [], s.users)
        else if found.None? then Effect(400, None, s.cache, [], s.users)
        else if !Accepts(found.value.hash, password) then Effect(401, None, s.cache, [], s.users)
        else MintEffect(cfg, s.cache, s.users, s.ring.store, s.ring.active, User(found.value.id), cfg.sessionLife,
                        fault, at), t)
  {
    var found := FindUser(s.users, email);
    more, t := Found(cfg, s0, tr, s, tid, email, password, q);
    if q.Works? && found.Some? {
      more, t := CompareIsRun(cfg, s0, more, t, tid, found.value, password, fault, at, now);
    } else {
      more, t := Ticked(cfg, s0, more, t, now);
    }
  }

  lemma AuthenticateIsRun(cfg: Config, s: State, tid: nat, x: LoginInput, at: Readings, now: Time)
      returns (tr: Trail, t: State)
    requires tid !in s.threads && s.ring.now <= at.exp <= at.nbf <= now
    ensures IsTrail(cfg, s, tr, t)
    ensures After(s, tid, now, LoginEffect(cfg, s.cache, s.users, s.ring.store, s.ring.active, x, at), t)
  {
    var req := if x.body.None? then Garbled else Login(x.body.value.0, x.body.value.1);
    var first := Begin(cfg, req);
    tr, t := Spawned(cfg, s, tid, req, first);
    if first.LoginLookup? {
      tr, t := LoginIsRun(cfg, s, tr, t, tid, first.email, first.password, x.lookup, x.respondFails, at, now);
    } else {
      tr, t := Ticked(cfg, s, tr, t, now);
    }
  }

  // ---------------------------------------------------------------- objects and states

  /** Code store, mailbox, user table and keystore stand for s. */
  ghost predicate Stands(ug: UserGroup, s: State)
    reads ug.otp, ug.users, ug.mail, ug.a.ks, ug.a.ks.clock
  {
    && ug.Valid() && ug.a.ks.life == ug.cfg.life
    && s.cache == ug.otp.s && s.users == ug.users.rows && MailsOf(s.log) == ug.mail.sent
    && s.ring.store == ug.a.ks.keys && s.ring.active == ug.a.ks.active && s.ring.now == ug.a.ks.clock.now
  }

  /** Thread tid of t gives the answer r, and nothing is different for the other threads of s. */
  ghost predicate Answers(s: State, tid: nat, r: Answer, t: State) {
    t.threads == s.threads[tid := Done(StatusOf(r), TokenOf(r))]
  }

  method ServeVerifyEmail(ug: UserGroup, body: Option<string>, lookup: Query, existsFails: bool,
                          random: Option<seq<Byte>>, messageFails: bool, sendFails: bool, saveFails: bool,
                          ghost s: State, ghost tid: nat)
      returns (r: Answer, ghost tr: Trail, ghost t: State)
    requires Stands(ug, s) && tid !in s.threads
    requires random.Some? ==> |random.value| == ug.cfg.codeLen
    modifies ug.otp, ug.mail
    ensures IsTrail(ug.cfg, s, tr, t) && Stands(ug, t) && Answers(s, tid, r, t)
  {
    r := ug.VerifyEmail(body, lookup, existsFails, random, messageFails, sendFails, saveFails);
    ghost var code := if random.None? then None else Some(Encode(random.value));
    if random.Some? {
      EncodeIsCode(random.value);
    }
    tr, t := VerifyEmailIsRun(ug.cfg, s, tid,
      EmailInput(body, lookup, existsFails, code, messageFails, sendFails, saveFails));
  }

  method ServeVerifyOtp(ug: UserGroup, body: Option<(string, string)>, checkFails: bool, respondFails: bool,
                        ghost s: State, ghost tid: nat) returns (r: Answer, ghost tr: Trail, ghost t: State)
    requires Stands(ug, s) && tid !in s.threads
    modifies ug.otp, ug.a.ks.clock
    ensures IsTrail(ug.cfg, s, tr, t) && Stands(ug, t) && Answers(s, tid, r, t)
  {
    ghost var at;
    r, at := ug.VerifyOtp(body, checkFails, respondFails);
    tr, t := VerifyOtpIsRun(ug.cfg, s, tid, OtpInput(body, checkFails, respondFails), at, ug.a.ks.clock.now);
  }

  /** The token presented is not forged: that is an assumption on who signs. */
  method ServeRegister(ug: UserGroup, body: Option<NewUser>, header: string, id: nat, createFails: bool,
                       ghost s: State, ghost tid: nat) returns (r: Answer, ghost tr: Trail, ghost t: State)
    requires Stands(ug, s) && tid !in s.threads && 1 <= id && id !in s.users
    requires Unforged(s, Presented(ug.cfg, header))
    modifies ug.users, ug.a.ks.clock
    ensures IsTrail(ug.cfg, s, tr, t) && Stands(ug, t) && Answers(s, tid, r, t)
  {
    r := ug.Register(body, header, id, createFails);
    tr, t := RegisterIsRun(ug.cfg, s, tid, RegisterInput(body, header, id, createFails), ug.a.ks.clock.now);
  }

  method ServeAuthenticate(ug: UserGroup, body: Option<(string, string)>, lookup: Query, respondFails: bool,
                           ghost s: State, ghost tid: nat) returns (r: Answer, ghost tr: Trail, ghost t: State)
    requires Stands(ug, s) && tid !in s.threads
    modifies ug.a.ks.clock
    ensures IsTrail(ug.cfg, s, tr, t) && Stands(ug, t) && Answers(s, tid, r, t)
  {
    ghost var at;
    r, at := ug.Authenticate(body, lookup, respondFails);
    tr, t := AuthenticateIsRun(ug.cfg, s, tid, LoginInput(body, lookup, respondFails), at, ug.a.ks.clock.now);
  }
}
