/** How long the tokens of the protocol can be relied on while requests, rotations and revocations
    interleave. */
module Sessions {
  import opened Prelude
  import KeyRing
  import Schedule
  import opened Tokens
  import opened Protocol
  import opened ThreadSteps
  import opened RoundTrip
  import Provenance

  /** Every state of the run is on schedule. */
  ghost predicate Scheduled(cfg: Config, gap: nat, lag: Option<nat>, tr: Trail) {
    forall i :: 0 <= i < |tr.states| ==> Schedule.OnSchedule(cfg.life, gap, lag, tr.states[i].ring)
  }

  /** Both lifetimes fit, together with the greatest age of the active key, into the expiration
      period of keys. */
  predicate Fits(cfg: Config, age: nat) {
    cfg.verifyLife + age <= cfg.life + 1 && cfg.sessionLife + age <= cfg.life + 1
  }

  function Longest(cfg: Config): int {
    if cfg.verifyLife < cfg.sessionLife then cfg.sessionLife else cfg.verifyLife
  }

  /** The claims do not outlive the key by more than the last instant. */
  ghost predicate Covered(ring: KeyRing.State, kid: nat, claims: Claims) {
    kid in ring.minted && claims.exp <= ring.minted[kid].expire + 1 && claims.nbf <= ring.now
  }

  ghost predicate ThreadTimely(cfg: Config, ring: KeyRing.State, t: Thread) {
    match t
    case MintExp(_, lifetime, _) => lifetime <= Longest(cfg)
    case MintNbf(_, exp, _) => exp <= ring.now + Longest(cfg)
    case MintActive(claims, _) => claims.exp <= ring.now + Longest(cfg) && claims.nbf <= ring.now
    case MintLoad(claims, _, kid) => Covered(ring, kid, claims)
    case _ => true
  }

  ghost predicate TokenTimely(ring: KeyRing.State, tk: Token) {
    && tk.Jwt? && tk.kid.Some? && Covered(ring, tk.kid.value, tk.claims)
    && tk.signedBy == ring.minted[tk.kid.value].signer
  }

  ghost predicate Timely(cfg: Config, s: State) {
    && KeyRing.Inv(cfg.life, s.ring)
    && (forall tid :: tid in s.threads ==> ThreadTimely(cfg, s.ring, s.threads[tid]))
    && (forall tk :: tk in s.issued ==> TokenTimely(s.ring, tk))
  }

  lemma ActTimely(cfg: Config, age: nat, s: State, t: Thread, ch: Choice)
    requires CanGo(cfg, s, t, ch) && ThreadTimely(cfg, s.ring, t)
    requires KeyRing.Inv(cfg.life, s.ring) && KeyRing.Fresh(cfg.life, age, s.ring) && Fits(cfg, age)
    ensures var r := Act(cfg, s, t, ch);
      && r.0.ring == s.ring && ThreadTimely(cfg, s.ring, r.1)
      && forall tk :: tk in r.0.issued ==> tk in s.issued || TokenTimely(s.ring, tk)
  {
  }

  /** Time and rotation do no harm. */
  lemma RingTimely(cfg: Config, s: State, step: KeyRing.Step)
    requires Timely(cfg, s) && KeyRing.Enabled(s.ring, step)
    ensures Timely(cfg, s.(ring := KeyRing.Apply(cfg.life, s.ring, step)))
  {
    KeyRing.InvStep(cfg.life, s.ring, step);
    KeyRing.MintedStays(cfg.life, s.ring, step);
    var ring := KeyRing.Apply(cfg.life, s.ring, step);
    assert s.ring.now <= ring.now;
    forall tid | tid in s.threads
      ensures ThreadTimely(cfg, ring, s.threads[tid])
    {
      assert ThreadTimely(cfg, s.ring, s.threads[tid]);
    }
  }

  lemma TimelyStep(cfg: Config, age: nat, s: State, st: Step)
    requires Timely(cfg, s) && Enabled(cfg, s, st)
    requires KeyRing.Fresh(cfg.life, age, s.ring) && Fits(cfg, age)
    ensures Timely(cfg, Apply(cfg, s, st)) && (!st.Ring? ==> Apply(cfg, s, st).ring == s.ring)
  {
    match st
    case Ring(step) => RingTimely(cfg, s, step);
    case Evict(_) =>
    case Spawn(_, _) =>
    case Go(tid, ch) => ActTimely(cfg, age, s, s.threads[tid], ch);
  }

  /** Every state of a run on schedule is timely. */
  lemma {:induction false} TimelyAt(cfg: Config, gap: nat, lag: Option<nat>, s: State, tr: Trail, t: State, i: nat)
    requires Timely(cfg, s) && Schedule.InTurn(cfg.life, gap, s.ring)
    requires IsTrail(cfg, s, tr, t) && Scheduled(cfg, gap, lag, tr) && Fits(cfg, Schedule.Age(gap, lag))
    requires i < |tr.states|
    ensures Timely(cfg, tr.states[i]) && Schedule.InTurn(cfg.life, gap, tr.states[i].ring)
  {
    if i > 0 {
      TimelyAt(cfg, gap, lag, s, tr, t, i - 1);
      var u, st := tr.states[i - 1], tr.steps[i - 1];
      if st.Ring? {
        Schedule.InTurnStep(cfg.life, gap, u.ring, st.step);
      }
      assert Schedule.OnSchedule(cfg.life, gap, lag, u.ring);
      TimelyStep(cfg, Schedule.Age(gap, lag), u, st);
    }
  }

  lemma TimelyRun(cfg: Config, gap: nat, lag: Option<nat>, s: State, tr: Trail, t: State)
    requires IsStart(cfg, s) && Schedule.StartsInTime(cfg.life, gap, s.ring)
    requires IsTrail(cfg, s, tr, t) && Scheduled(cfg, gap, lag, tr) && Fits(cfg, Schedule.Age(gap, lag))
    ensures Timely(cfg, t) && Schedule.InTurn(cfg.life, gap, t.ring)
  {
    KeyRing.InvInitial(cfg.life, s.ring);
    TimelyAt(cfg, gap, lag, s, tr, t, |tr.steps|);
  }

  /** In a run on schedule whose lifetimes fit, every token handed out by any handler parses to its
      own record from the moment it is issued until it expires, unless its key is revoked by hand. */
  lemma EveryTokenServes(cfg: Config, gap: nat, lag: Option<nat>, s: State, tr: Trail, t: State, tk: Token)
    requires IsStart(cfg, s) && Schedule.StartsInTime(cfg.life, gap, s.ring)
    requires IsTrail(cfg, s, tr, t) && Scheduled(cfg, gap, lag, tr) && Fits(cfg, Schedule.Age(gap, lag))
    requires tk in t.issued && tk.Jwt? && tk.kid.Some? && tk.kid.value !in t.ring.revoked
    requires t.ring.now < tk.claims.exp
    ensures Parse(t.ring.store, t.ring.now, tk) == Ok(tk.claims.payload)
  {
    TimelyRun(cfg, gap, lag, s, tr, t);
    assert TokenTimely(t.ring, tk);
    assert tk.kid.value in t.ring.store;
  }

  // ---------------------------------------------------------------- the round trip on schedule

  ghost predicate OnSchedule(cfg: Config, gap: nat, lag: Option<nat>, s: State) {
    Schedule.OnSchedule(cfg.life, gap, lag, s.ring) && s.ring.revoked == {}
  }

  /** The run is on schedule, and nobody revokes a key by hand. */
  ghost predicate Undisturbed(cfg: Config, gap: nat, lag: Option<nat>, tr: Trail) {
    forall i :: 0 <= i < |tr.states| ==> OnSchedule(cfg, gap, lag, tr.states[i])
  }

  /** No call of the thread fails, and it loads its key before the token it is about to sign expires. */
  ghost predicate Calm(tr: Trail, tid: nat) {
    |tr.states| == |tr.steps| + 1 && forall i :: 0 <= i < |tr.steps| ==> CalmStep(tr.states[i], tr.steps[i], tid)
  }

  predicate CalmStep(s: State, st: Step, tid: nat) {
    FaultFree(st, tid) && (Loads(s, st, tid) ==> s.ring.now < s.threads[tid].claims.exp)
  }

  /** Timely, with the next change of the active key in turn. */
  ghost predicate InTime(cfg: Config, gap: nat, s: State) {
    Timely(cfg, s) && Schedule.InTurn(cfg.life, gap, s.ring)
  }

  /** In time, a calm step finds the key it needs. */
  lemma CalmIsSmooth(cfg: Config, s: State, st: Step, tid: nat)
    requires Timely(cfg, s) && s.ring.revoked == {} && CalmStep(s, st, tid)
    ensures SmoothStep(s, st, tid)
  {
    if Loads(s, st, tid) {
      assert ThreadTimely(cfg, s.ring, s.threads[tid]);
      assert s.threads[tid].kid in s.ring.minted;
    }
  }

  lemma StaysInTime(cfg: Config, gap: nat, lag: Option<nat>, s: State, tr: Trail, t: State)
    requires InTime(cfg, gap, s) && IsTrail(cfg, s, tr, t)
    requires Undisturbed(cfg, gap, lag, tr) && Fits(cfg, Schedule.Age(gap, lag))
    ensures InTime(cfg, gap, t)
    ensures forall tid :: Calm(tr, tid) ==> Smooth(tr, tid)
  {
    forall i | 0 <= i < |tr.states|
      ensures Timely(cfg, tr.states[i]) && Schedule.InTurn(cfg.life, gap, tr.states[i].ring)
    {
      assert forall j :: 0 <= j < |tr.states| ==> OnSchedule(cfg, gap, lag, tr.states[j]);
      TimelyAt(cfg, gap, lag, s, tr, t, i);
    }
    forall tid, i | Calm(tr, tid) && 0 <= i < |tr.steps|
      ensures SmoothStep(tr.states[i], tr.steps[i], tid)
    {
      assert OnSchedule(cfg, gap, lag, tr.states[i]) && CalmStep(tr.states[i], tr.steps[i], tid);
      CalmIsSmooth(cfg, tr.states[i], tr.steps[i], tid);
    }
  }

  lemma StepsInTime(cfg: Config, gap: nat, lag: Option<nat>, s: State, st: Step)
    requires InTime(cfg, gap, s) && Enabled(cfg, s, st) && !st.Ring?
    requires OnSchedule(cfg, gap, lag, s) && Fits(cfg, Schedule.Age(gap, lag))
    ensures InTime(cfg, gap, Apply(cfg, s, st))
  {
    TimelyStep(cfg, Schedule.Age(gap, lag), s, st);
  }

  /** A visitor's requests, all on schedule and calm; nothing is said about keys. */
  ghost predicate IsCalmVisit(cfg: Config, gap: nat, lag: Option<nat>, v: Visit) {
    && PresentsCode(cfg, v.email, v.check)
    && PresentsToken(cfg, v.check, v.between, v.create)
    && PresentsPassword(cfg, v.email, v.create.before.threads[v.create.tid].password, v.create, v.later, v.login)
    && Calm(v.check.trail, v.check.tid) && Calm(v.login.trail, v.login.tid)
    && Undisturbed(cfg, gap, lag, v.check.trail) && Undisturbed(cfg, gap, lag, v.between)
    && Undisturbed(cfg, gap, lag, v.create.trail) && Undisturbed(cfg, gap, lag, v.later)
    && Undisturbed(cfg, gap, lag, v.login.trail)
  }

  /** VisitSucceeds for runs on schedule, without a premise about keys: where both lifetimes fit, every
      key that the visitor's requests need is there when they need it. */
  lemma VisitOnSchedule(cfg: Config, gap: nat, lag: Option<nat>, s: State, front: Trail, v: Visit) returns (id: nat)
    requires IsStart(cfg, s) && Schedule.StartsInTime(cfg.life, gap, s.ring) && cfg.codeLen == 6
    requires IsTrail(cfg, s, front, v.check.before) && Undisturbed(cfg, gap, lag, front)
    requires IsCalmVisit(cfg, gap, lag, v) && Fits(cfg, Schedule.Age(gap, lag))
    ensures Redeemed(v.check, v.email) && Registered(v.create, id, v.email) && Welcomed(v.login, id)
  {
    KeyRing.InvInitial(cfg.life, s.ring);
    TrailLeads(cfg, s, front, v.check.before);
    assert Provenance.Reachable(cfg, s.users, v.check.before);
    StaysInTime(cfg, gap, lag, s, front, v.check.before);
    CheckInTime(cfg, gap, lag, v.email, v.check, front);
    CheckSucceeds(cfg, s.users, v.email, v.check);
    RegisterInTime(cfg, gap, lag, s.users, v.check, v.between, v.create);
    id := RegisterSucceeds(cfg, s.users, v.check, v.between, v.create);
    var password := v.create.before.threads[v.create.tid].password;
    LoginInTime(cfg, gap, lag, v.email, password, v.create, v.later, v.login);
    LoginSucceeds(cfg, s.users, v.email, password, v.create, v.later, v.login, id);
  }

  lemma CheckInTime(cfg: Config, gap: nat, lag: Option<nat>, email: string, g: Stage, front: Trail)
    requires InTime(cfg, gap, g.before) && Fits(cfg, Schedule.Age(gap, lag))
    requires Undisturbed(cfg, gap, lag, front) && front.states != [] && front.states[|front.states| - 1] == g.before
    requires PresentsCode(cfg, email, g) && Calm(g.trail, g.tid) && Undisturbed(cfg, gap, lag, g.trail)
    ensures ChecksCode(cfg, email, g) && InTime(cfg, gap, g.after)
  {
    assert OnSchedule(cfg, gap, lag, front.states[|front.states| - 1]);
    StepsInTime(cfg, gap, lag, g.before, Go(g.tid, Plain));
    StaysInTime(cfg, gap, lag, Apply(cfg, g.before, Go(g.tid, Plain)), g.trail, g.after);
  }

  lemma RegisterInTime(cfg: Config, gap: nat, lag: Option<nat>, seed: map<nat, Row>,
                       check: Stage, between: Trail, g: Stage)
    requires InTime(cfg, gap, check.after) && Fits(cfg, Schedule.Age(gap, lag))
    requires Provenance.Reachable(cfg, seed, check.after)
    requires PresentsToken(cfg, check, between, g)
    requires Undisturbed(cfg, gap, lag, between) && Undisturbed(cfg, gap, lag, g.trail)
    ensures ShowsToken(cfg, check, between, g) && InTime(cfg, gap, g.after)
  {
    StaysInTime(cfg, gap, lag, check.after, between, g.before);
    assert OnSchedule(cfg, gap, lag, between.states[|between.steps|]);
    AnswerIsIssued(cfg, seed, check.after, check.tid);
    TrailLeads(cfg, check.after, between, g.before);
    UsersStayRun(cfg, check.after, between.steps, g.before);
    var tk := Presented(cfg, g.before.threads[g.tid].header);
    assert tk in g.before.issued && TokenTimely(g.before.ring, tk);
    assert tk.kid.value in g.before.ring.store;
    StepsInTime(cfg, gap, lag, g.before, Go(g.tid, Plain));
    StaysInTime(cfg, gap, lag, Apply(cfg, g.before, Go(g.tid, Plain)), g.trail, g.after);
  }

  lemma LoginInTime(cfg: Config, gap: nat, lag: Option<nat>, email: string, password: string,
                    create: Stage, later: Trail, g: Stage)
    requires InTime(cfg, gap, create.after) && Fits(cfg, Schedule.Age(gap, lag))
    requires PresentsPassword(cfg, email, password, create, later, g) && Calm(g.trail, g.tid)
    requires Undisturbed(cfg, gap, lag, later) && Undisturbed(cfg, gap, lag, g.trail)
    ensures LogsIn(cfg, email, password, create, later, g)
  {
    StaysInTime(cfg, gap, lag, create.after, later, g.before);
    StaysInTime(cfg, gap, lag, g.before, g.trail, g.after);
  }
}
