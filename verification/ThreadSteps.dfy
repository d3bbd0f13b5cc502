/** The steps of a thread, one lemma for each call a handler makes, for extending a run by it. */
module ThreadSteps {
  import opened Prelude
  import KeyRing
  import opened Tokens
  import opened Otp
  import opened Protocol

  /** A run with all the states it passes through. */
  datatype Trail = Trail(states: seq<State>, steps: seq<Step>)

  ghost predicate IsTrail(cfg: Config, s0: State, tr: Trail, s: State) {
    && |tr.states| == |tr.steps| + 1
    && tr.states[0] == s0 && tr.states[|tr.steps|] == s
    && forall i :: 0 <= i < |tr.steps| ==>
      Enabled(cfg, tr.states[i], tr.steps[i]) && tr.states[i + 1] == Apply(cfg, tr.states[i], tr.steps[i])
  }

  lemma Extended(cfg: Config, s0: State, tr: Trail, s: State, st: Step) returns (more: Trail, u: State)
    requires IsTrail(cfg, s0, tr, s) && Enabled(cfg, s, st)
    ensures u == Apply(cfg, s, st) && IsTrail(cfg, s0, more, u)
  {
    u := Apply(cfg, s, st);
    more := Trail(tr.states + [u], tr.steps + [st]);
  }

  lemma {:induction false} TrailLeads(cfg: Config, s0: State, tr: Trail, s: State)
    requires IsTrail(cfg, s0, tr, s)
    ensures Leads(cfg, s0, tr.steps, s)
    decreases |tr.steps|
  {
    if tr.steps != [] {
      TrailLeads(cfg, tr.states[1], Trail(tr.states[1..], tr.steps[1..]), s);
    }
  }

  /** s with the threads of s0, where the run began, and thread tid standing at t. */
  function At(s0: State, s: State, tid: nat, t: Thread): State {
    s.(threads := s0.threads[tid := t])
  }

  lemma Spawned(cfg: Config, s: State, tid: nat, req: Request, next: Thread) returns (tr: Trail, u: State)
    requires tid !in s.threads && next == Begin(cfg, req)
    ensures u == At(s, s, tid, next) && IsTrail(cfg, s, tr, u)
  {
    tr, u := Extended(cfg, s, Trail([s], []), s, Spawn(tid, req));
  }

  lemma Ticked(cfg: Config, s0: State, tr: Trail, s: State, now: Time) returns (more: Trail, u: State)
    requires IsTrail(cfg, s0, tr, s) && s.ring.now <= now
    ensures u == s.(ring := s.ring.(now := now)) && IsTrail(cfg, s0, more, u)
  {
    more, u := Extended(cfg, s0, tr, s, Ring(KeyRing.Tick(now - s.ring.now)));
  }

  lemma LookedUp(cfg: Config, s0: State, tr: Trail, s: State, tid: nat, email: string, q: Query)
      returns (more: Trail, u: State)
    requires IsTrail(cfg, s0, tr, s) && s.threads == s0.threads[tid := EmailLookup(email)]
    ensures IsTrail(cfg, s0, more, u)
    ensures u == At(s0, s, tid, if q.Fails? then Done(500, None)
                                else if q.Works? && FindUser(s.users, email).Some? then Done(400, None)
                                else EmailExists(email))
  {
    more, u := Extended(cfg, s0, tr, s, Go(tid, ChoiceOf(q)));
    assert u.threads == s0.threads[tid := u.threads[tid]];
  }

  lemma AskedExists(cfg: Config, s0: State, tr: Trail, s: State, tid: nat, email: string, fault: bool)
      returns (more: Trail, u: State)
    requires IsTrail(cfg, s0, tr, s) && s.threads == s0.threads[tid := EmailExists(email)]
    ensures IsTrail(cfg, s0, more, u)
    ensures u == At(s0, s, tid, if fault then Done(500, None)
                            else if email in s.cache then Done(425, None) else EmailCode(email))
  {
    more, u := Extended(cfg, s0, tr, s, Go(tid, if fault then Fault else Plain));
    assert u.threads == s0.threads[tid := u.threads[tid]];
  }

  lemma Drew(cfg: Config, s0: State, tr: Trail, s: State, tid: nat, email: string, code: Option<string>)
      returns (more: Trail, u: State)
    requires IsTrail(cfg, s0, tr, s) && s.threads == s0.threads[tid := EmailCode(email)]
    requires code.Some? ==> IsCode(code.value, cfg.codeLen)
    ensures IsTrail(cfg, s0, more, u)
    ensures u == At(s0, s, tid, if code.None? then Done(500, None) else EmailSend(email, code.value))
  {
    more, u := Extended(cfg, s0, tr, s, Go(tid, if code.None? then Fault else Drawn(code.value)));
    assert u.threads == s0.threads[tid := u.threads[tid]];
  }

  lemma Sent(cfg: Config, s0: State, tr: Trail, s: State, tid: nat, email: string, code: string, fault: bool)
      returns (more: Trail, u: State)
    requires IsTrail(cfg, s0, tr, s) && s.threads == s0.threads[tid := EmailSend(email, code)]
    ensures IsTrail(cfg, s0, more, u)
    ensures u == if fault then At(s0, s, tid, Done(503, None))
                 else At(s0, s, tid, EmailSave(email, code)).(log := s.log + [Mailed(email, code)])
  {
    more, u := Extended(cfg, s0, tr, s, Go(tid, if fault then Fault else Plain));
    assert u.threads == s0.threads[tid := u.threads[tid]];
  }

  lemma WasSaved(cfg: Config, s0: State, tr: Trail, s: State, tid: nat, email: string, code: string, fault: bool)
      returns (more: Trail, u: State)
    requires IsTrail(cfg, s0, tr, s) && s.threads == s0.threads[tid := EmailSave(email, code)]
    requires email !in s.cache
    ensures IsTrail(cfg, s0, more, u)
    ensures u == if fault then At(s0, s, tid, Done(500, None))
                 else At(s0, s, tid, Done(204, None))
                        .(cache := s.cache[email := code], log := s.log + [Saved(email, code)])
  {
    more, u := Extended(cfg, s0, tr, s, Go(tid, if fault then Fault else Plain));
    assert u.threads == s0.threads[tid := u.threads[tid]];
    assert s.log + [] == s.log;
  }

  /** A refused check is one step. */
  lemma Refused(cfg: Config, s0: State, tr: Trail, s: State, tid: nat, email: string, otp: string, fault: bool)
      returns (more: Trail, u: State)
    requires IsTrail(cfg, s0, tr, s) && s.threads == s0.threads[tid := OtpGet(email, otp)]
    requires fault || email !in s.cache || s.cache[email] != otp
    ensures IsTrail(cfg, s0, more, u) && u == At(s0, s, tid, Done(401, None))
  {
    more, u := Extended(cfg, s0, tr, s, Go(tid, if fault then Fault else Plain));
    assert u.threads == s0.threads[tid := u.threads[tid]];
  }

  /** An accepted one is two: the Get and the Del. */
  lemma Accepted(cfg: Config, s0: State, tr: Trail, s: State, tid: nat, email: string, otp: string)
      returns (more: Trail, u: State)
    requires IsTrail(cfg, s0, tr, s) && s.threads == s0.threads[tid := OtpGet(email, otp)]
    requires email in s.cache && s.cache[email] == otp
    ensures IsTrail(cfg, s0, more, u)
    ensures u == At(s0, s, tid, MintExp(EmailVerified(email), cfg.verifyLife, ByCode(email, otp)))
      .(cache := s.cache - {email}, log := s.log + [Checked(email, otp)] + [Cleared(email)])
  {
    var mid;
    more, mid := Extended(cfg, s0, tr, s, Go(tid, Plain));
    more, u := Extended(cfg, s0, more, mid, Go(tid, Plain));
    assert u.threads == s0.threads[tid := MintExp(EmailVerified(email), cfg.verifyLife, ByCode(email, otp))];
  }

  lemma ReadExp(cfg: Config, s0: State, tr: Trail, s: State, tid: nat, payload: Payload, lifetime: int, why: Why)
      returns (more: Trail, u: State)
    requires IsTrail(cfg, s0, tr, s) && s.threads == s0.threads[tid := MintExp(payload, lifetime, why)]
    ensures IsTrail(cfg, s0, more, u)
    ensures u == At(s0, s, tid, MintNbf(payload, NumericDate(s.ring.now + lifetime, cfg.precision), why))
  {
    more, u := Extended(cfg, s0, tr, s, Go(tid, Plain));
    assert u.threads == s0.threads[tid := u.threads[tid]];
  }

  lemma ReadNbf(cfg: Config, s0: State, tr: Trail, s: State, tid: nat, payload: Payload, exp: Time, why: Why)
      returns (more: Trail, u: State)
    requires IsTrail(cfg, s0, tr, s) && s.threads == s0.threads[tid := MintNbf(payload, exp, why)]
    ensures IsTrail(cfg, s0, more, u)
    ensures u == At(s0, s, tid, MintActive(Claims(payload, exp, NumericDate(s.ring.now, cfg.precision)), why))
  {
    more, u := Extended(cfg, s0, tr, s, Go(tid, Plain));
    assert u.threads == s0.threads[tid := u.threads[tid]];
  }

  /** Active reads the id and then loads the key; the answer may fail after that. */
  lemma Signed(cfg: Config, s0: State, tr: Trail, s: State, tid: nat, claims: Claims, why: Why, fault: bool)
      returns (more: Trail, u: State)
    requires IsTrail(cfg, s0, tr, s) && s.threads == s0.threads[tid := MintActive(claims, why)]
    ensures IsTrail(cfg, s0, more, u)
    ensures u == if s.ring.active !in s.ring.store then At(s0, s, tid, Done(500, None))
                 else
                   var tk := Sign(s.ring.active, s.ring.store[s.ring.active], claims);
                   At(s0, s, tid, if fault then Done(500, None) else Done(200, Some(tk)))
                     .(issued := s.issued[tk := why], log := s.log + [Issued(tk, why)])
  {
    var mid;
    more, mid := Extended(cfg, s0, tr, s, Go(tid, Plain));
    assert mid == At(s0, s, tid, MintLoad(claims, why, s.ring.active));
    more, u := Extended(cfg, s0, more, mid, Go(tid, if fault then Fault else Plain));
    assert u.threads == s0.threads[tid := u.threads[tid]];
  }

  lemma Parsed(cfg: Config, s0: State, tr: Trail, s: State, tid: nat, t: Thread) returns (more: Trail, u: State)
    requires IsTrail(cfg, s0, tr, s) && s.threads == s0.threads[tid := t] && t.RegParse?
    requires Unforged(s, Presented(cfg, t.header))
    ensures IsTrail(cfg, s0, more, u)
    ensures var tk := Presented(cfg, t.header);
      u == At(s0, s, tid, if Parse(s.ring.store, s.ring.now, tk).Err? then Done(401, None)
                      else RegCreate(t.name, t.username, t.password, tk, WhyOf(s, tk)))
  {
    more, u := Extended(cfg, s0, tr, s, Go(tid, Plain));
    assert u.threads == s0.threads[tid := u.threads[tid]];
  }

  lemma WasCreated(cfg: Config, s0: State, tr: Trail, s: State, tid: nat, t: Thread, id: Option<nat>)
      returns (more: Trail, u: State)
    requires IsTrail(cfg, s0, tr, s) && s.threads == s0.threads[tid := t] && t.RegCreate?
    requires id.Some? ==>
      1 <= id.value && id.value !in s.users && !Conflict(s.users, EmailOf(PayloadOf(t.tk)), t.username)
    ensures IsTrail(cfg, s0, more, u)
    ensures u == if id.None? then At(s0, s, tid, Done(500, None))
                 else
                   var row := Row(id.value, t.username, t.name, EmailOf(PayloadOf(t.tk)), Bcrypt(t.password));
                   At(s0, s, tid, Done(201, None))
                     .(users := s.users[id.value := row], origin := s.origin[id.value := (t.tk, t.why)],
                       log := s.log + [Created(row, t.tk, t.why)])
  {
    more, u := Extended(cfg, s0, tr, s, Go(tid, if id.None? then Fault else Id(id.value)));
    assert u.threads == s0.threads[tid := u.threads[tid]];
  }

  lemma Found(cfg: Config, s0: State, tr: Trail, s: State, tid: nat, email: string, password: string, q: Query)
      returns (more: Trail, u: State)
    requires IsTrail(cfg, s0, tr, s) && s.threads == s0.threads[tid := LoginLookup(email, password)]
    ensures IsTrail(cfg, s0, more, u)
    ensures u == At(s0, s, tid, if q.Fails? then Done(500, None)
                                else if q.Misses? || FindUser(s.users, email).None? then Done(400, None)
                                else LoginCompare(FindUser(s.users, email).value, password))
  {
    more, u := Extended(cfg, s0, tr, s, Go(tid, ChoiceOf(q)));
    assert u.threads == s0.threads[tid := u.threads[tid]];
  }

  lemma Compared(cfg: Config, s0: State, tr: Trail, s: State, tid: nat, row: Row, password: string)
      returns (more: Trail, u: State)
    requires IsTrail(cfg, s0, tr, s) && s.threads == s0.threads[tid := LoginCompare(row, password)]
    ensures IsTrail(cfg, s0, more, u)
    ensures u == if !Accepts(row.hash, password) then At(s0, s, tid, Done(401, None))
                 else At(s0, s, tid, MintExp(User(row.id), cfg.sessionLife, ByPassword(row, password)))
                        .(log := s.log + [LoggedIn(row, password)])
  {
    more, u := Extended(cfg, s0, tr, s, Go(tid, Plain));
    assert u.threads == s0.threads[tid := u.threads[tid]];
  }
}
