/** How often codes are accepted, mailed and saved: bookkeeping over every run. */
module OneTime {
  import opened Prelude
  import opened Tokens
  import opened Otp
  import opened Validate
  import opened Protocol
  import opened ThreadSteps
  import Provenance

  datatype Probe = Saves | Checks | Clears | Losses | ChecksOf(code: string)

  predicate Hit(probe: Probe, email: string, ev: Event) {
    match probe
    case Saves => ev.Saved? && ev.email == email
    case Checks => ev.Checked? && ev.email == email
    case Clears => ev.Cleared? && ev.email == email
    case Losses => ev.Lost? && ev.email == email
    case ChecksOf(code) => ev == Checked(email, code)
  }

  /** How many events of a kind the log has for an address. */
  function Count(probe: Probe, email: string, log: seq<Event>): nat
    decreases |log|
  {
    if log == [] then 0
    else Count(probe, email, log[..|log| - 1]) + (if Hit(probe, email, log[|log| - 1]) then 1 else 0)
  }

  lemma CountAppend(probe: Probe, email: string, log: seq<Event>, ev: Event)
    ensures Count(probe, email, log + [ev]) == Count(probe, email, log) + (if Hit(probe, email, ev) then 1 else 0)
  {
    assert (log + [ev])[..|log|] == log;
  }

  function Live(s: State, email: string): nat {
    if email in s.cache then 1 else 0
  }

  /** What a step adds to the log: at most two events. */
  ghost function News(cfg: Config, s: State, st: Step): seq<Event> {
    match st
    case Ring(_) => []
    case Evict(email) => [Lost(email)]
    case Spawn(_, _) => []
    case Go(tid, ch) => if tid in s.threads then ThreadNews(cfg, s, s.threads[tid], ch) else []
  }

  ghost function ThreadNews(cfg: Config, s: State, t: Thread, ch: Choice): seq<Event> {
    match t
    case EmailSend(email, code) => if ch.Fault? then [] else [Mailed(email, code)]
    case EmailSave(email, code) =>
      if ch.Fault? then []
      else if email in s.cache then [Lost(email), Saved(email, code)]
      else [Saved(email, code)]
    case OtpDel(email, code) =>
      if email in s.cache then [Checked(email, code), Cleared(email)] else [Checked(email, code)]
    case MintLoad(claims, why, kid) =>
      if kid in s.ring.store then [Issued(Sign(kid, s.ring.store[kid], claims), why)] else []
    case RegCreate(name, username, password, tk, why) =>
      if ch.Id? then [Created(Row(ch.id, username, name, EmailOf(PayloadOf(tk)), Bcrypt(password)), tk, why)] else []
    case LoginCompare(row, password) => if Accepts(row.hash, password) then [LoggedIn(row, password)] else []
    case AccessParse(header) =>
      var tk := Presented(cfg, header);
      if Parse(s.ring.store, s.ring.now, tk).Ok? then [Admitted(IdOf(PayloadOf(tk)), tk, WhyOf(s, tk))] else []
    case _ => []
  }

  lemma {:induction false} NewsIsRight(cfg: Config, s: State, st: Step)
    requires Enabled(cfg, s, st)
    ensures var news := News(cfg, s, st); Apply(cfg, s, st).log == s.log + news && |news| <= 2
  {
    match st
    case Ring(_) =>
    case Evict(_) =>
    case Spawn(_, _) =>
    case Go(tid, ch) => ThreadNewsIsRight(cfg, s, s.threads[tid], ch);
  }

  lemma ThreadNewsIsRight(cfg: Config, s: State, t: Thread, ch: Choice)
    requires CanGo(cfg, s, t, ch)
    ensures var news := ThreadNews(cfg, s, t, ch); Act(cfg, s, t, ch).0.log == s.log + news && |news| <= 2
  {
    if t.EmailSave? && ch.Plain? {
      var lost := if t.email in s.cache then [Lost(t.email)] else [];
      assert s.log + lost + [Saved(t.email, t.code)] == s.log + ThreadNews(cfg, s, t, ch);
    } else if t.OtpDel? {
      var cleared := if t.email in s.cache then [Cleared(t.email)] else [];
      assert s.log + [Checked(t.email, t.code)] + cleared == s.log + ThreadNews(cfg, s, t, ch);
    } else {
      assert s.log + [] == s.log;
    }
  }

  lemma CountNews(probe: Probe, email: string, log: seq<Event>, news: seq<Event>)
    requires |news| <= 2
    ensures Count(probe, email, log + news) == Count(probe, email, log) + Count(probe, email, news)
  {
    if news == [] {
      assert log + news == log;
    } else {
      CountAppend(probe, email, log, news[0]);
      CountAppend(probe, email, [], news[0]);
      if |news| == 1 {
        assert news == [] + [news[0]];
        assert log + news == log + [news[0]];
      } else {
        CountAppend(probe, email, log + [news[0]], news[1]);
        CountAppend(probe, email, [] + [news[0]], news[1]);
        assert news == [] + [news[0]] + [news[1]];
        assert log + news == log + [news[0]] + [news[1]];
      }
    }
  }

  /** Counts of the news of one step, spelled out. */
  lemma NewsCounts(cfg: Config, s: State, st: Step, email: string)
    requires Enabled(cfg, s, st)
    ensures var log, news := Apply(cfg, s, st).log, News(cfg, s, st);
      forall probe :: Count(probe, email, log) == Count(probe, email, s.log) + Count(probe, email, news)
  {
    NewsIsRight(cfg, s, st);
    var news := News(cfg, s, st);
    forall probe {
      CountNews(probe, email, s.log, news);
    }
  }

  lemma Small(probe: Probe, email: string, a: Event, b: Event)
    ensures Count(probe, email, [a]) == if Hit(probe, email, a) then 1 else 0
    ensures Count(probe, email, [a, b])
      == (if Hit(probe, email, a) then 1 else 0) + (if Hit(probe, email, b) then 1 else 0)
  {
    assert [a][..0] == [];
    assert [a, b][..1] == [a];
  }

  /** What the news of a thread's step say about an address. */
  lemma ThreadBooks(cfg: Config, s: State, t: Thread, ch: Choice, email: string)
    requires CanGo(cfg, s, t, ch)
    ensures var u := Act(cfg, s, t, ch).0; var news := ThreadNews(cfg, s, t, ch);
      Live(u, email) + Count(Clears, email, news) + Count(Losses, email, news)
      == Live(s, email) + Count(Saves, email, news)
  {
    var news := ThreadNews(cfg, s, t, ch);
    if news != [] {
      var b := if |news| == 2 then news[1] else news[0];
      assert news == [news[0]] || news == [news[0], b];
      Small(Clears, email, news[0], b);
      Small(Losses, email, news[0], b);
      Small(Saves, email, news[0], b);
    }
  }

  /** One step keeps the books: what is saved is cleared, lost or still live. */
  lemma BooksStep(cfg: Config, s: State, st: Step, email: string)
    requires Enabled(cfg, s, st)
    ensures var t := Apply(cfg, s, st); var news := News(cfg, s, st);
      Live(t, email) + Count(Clears, email, news) + Count(Losses, email, news)
      == Live(s, email) + Count(Saves, email, news)
  {
    match st
    case Ring(_) =>
    case Spawn(_, _) =>
    case Evict(e) =>
      Small(Clears, email, Lost(e), Lost(e));
      Small(Losses, email, Lost(e), Lost(e));
      Small(Saves, email, Lost(e), Lost(e));
    case Go(tid, ch) => ThreadBooks(cfg, s, s.threads[tid], ch, email);
  }

  lemma {:induction false} BooksRun(cfg: Config, s: State, steps: seq<Step>, t: State, email: string)
    requires Leads(cfg, s, steps, t)
    requires Count(Saves, email, s.log) == Count(Clears, email, s.log) + Count(Losses, email, s.log) + Live(s, email)
    ensures Count(Saves, email, t.log) == Count(Clears, email, t.log) + Count(Losses, email, t.log) + Live(t, email)
    decreases |steps|
  {
    if steps != [] {
      NewsCounts(cfg, s, steps[0], email);
      BooksStep(cfg, s, steps[0], email);
      BooksRun(cfg, Apply(cfg, s, steps[0]), steps[1..], t, email);
    }
  }

  /** Conservation, under every interleaving: each saved code is cleared by a check, lost, or still
      live. */
  lemma CodesAreConserved(cfg: Config, seed: map<nat, Row>, t: State, email: string)
    requires Provenance.Reachable(cfg, seed, t)
    ensures Count(Saves, email, t.log) == Count(Clears, email, t.log) + Count(Losses, email, t.log) + Live(t, email)
  {
    var s, steps :| IsStart(cfg, s) && s.users == seed && Leads(cfg, s, steps, t);
    BooksRun(cfg, s, steps, t, email);
  }

  // ---------------------------------------------------------------- one check at a time

  /** The thread has matched a code of `email` and not deleted it yet. */
  predicate Pending(s: State, email: string, tid: nat) {
    tid in s.threads && s.threads[tid].OtpDel? && s.threads[tid].email == email
  }

  predicate Idle(s: State, email: string) {
    forall tid :: tid in s.threads ==> !Pending(s, email, tid)
  }

  /** No two checks for the address are between their Get and their Del. */
  ghost predicate Alone(s: State, email: string) {
    forall i, j :: Pending(s, email, i) && Pending(s, email, j) ==> i == j
  }

  ghost predicate AlwaysAlone(cfg: Config, s: State, steps: seq<Step>, email: string)
    decreases |steps|
  {
    && Alone(s, email)
    && (steps != [] ==> Enabled(cfg, s, steps[0]) && AlwaysAlone(cfg, Apply(cfg, s, steps[0]), steps[1..], email))
  }

  /** The codes still good for a check: the one a check is about to use up, or the live one. */
  function Claim(s: State, email: string): nat {
    if Idle(s, email) then Live(s, email) else 1
  }

  lemma ClaimStep(cfg: Config, s: State, st: Step, email: string)
    requires Enabled(cfg, s, st) && Alone(s, email) && Alone(Apply(cfg, s, st), email)
    ensures var t := Apply(cfg, s, st); var news := News(cfg, s, st);
      Claim(t, email) + Count(Checks, email, news) <= Claim(s, email) + Count(Saves, email, news)
  {
    var t := Apply(cfg, s, st);
    match st
    case Ring(_) => assert forall i :: Pending(s, email, i) <==> Pending(t, email, i);
    case Evict(e) =>
      Small(Checks, email, Lost(e), Lost(e));
      assert forall i :: Pending(s, email, i) <==> Pending(t, email, i);
    case Spawn(tid, req) => assert forall i :: Pending(s, email, i) <==> Pending(t, email, i);
    case Go(tid, ch) => ClaimGo(cfg, s, tid, ch, email);
  }

  lemma ClaimGo(cfg: Config, s: State, tid: nat, ch: Choice, email: string)
    requires Enabled(cfg, s, Go(tid, ch)) && Alone(s, email)
    ensures var t := Apply(cfg, s, Go(tid, ch)); var news := ThreadNews(cfg, s, s.threads[tid], ch);
      Claim(t, email) + Count(Checks, email, news) <= Claim(s, email) + Count(Saves, email, news)
  {
    var r := Act(cfg, s, s.threads[tid], ch);
    var t := Apply(cfg, s, Go(tid, ch));
    assert t.cache == r.0.cache;
    GoPending(cfg, s, tid, ch, email);
    ThreadBooks(cfg, s, s.threads[tid], ch, email);
    ThreadChecks(cfg, s, s.threads[tid], ch, email);
  }

  /** Only a Del reports a successful check. */
  lemma ThreadChecks(cfg: Config, s: State, t: Thread, ch: Choice, email: string)
    requires CanGo(cfg, s, t, ch)
    ensures Count(Checks, email, ThreadNews(cfg, s, t, ch)) == if t.OtpDel? && t.email == email then 1 else 0
  {
    var news := ThreadNews(cfg, s, t, ch);
    if news != [] {
      var b := if |news| == 2 then news[1] else news[0];
      assert news == [news[0]] || news == [news[0], b];
      Small(Checks, email, news[0], b);
    }
  }

  /** Which checks are pending after one step of a thread. */
  lemma GoPending(cfg: Config, s: State, tid: nat, ch: Choice, email: string)
    requires Enabled(cfg, s, Go(tid, ch)) && Alone(s, email)
    ensures var t := Apply(cfg, s, Go(tid, ch)); var thread := s.threads[tid];
      if thread.OtpDel? && thread.email == email then Idle(t, email) && !Idle(s, email)
      else if thread.OtpGet? && thread.email == email && t.threads[tid].OtpDel? then Live(s, email) == 1
      else (Idle(s, email) <==> Idle(t, email))
  {
    var t := Apply(cfg, s, Go(tid, ch));
    assert forall i :: i != tid ==> (Pending(s, email, i) <==> Pending(t, email, i));
    assert t.threads[tid] == Act(cfg, s, s.threads[tid], ch).1;
    if s.threads[tid].OtpDel? && s.threads[tid].email == email {
      assert Pending(s, email, tid) && !Pending(t, email, tid);
    } else if !(s.threads[tid].OtpGet? && s.threads[tid].email == email && t.threads[tid].OtpDel?) {
      assert !Pending(s, email, tid) && !Pending(t, email, tid);
      assert forall i :: Pending(s, email, i) <==> Pending(t, email, i);
    }
  }

  lemma {:induction false} ClaimRun(cfg: Config, s: State, steps: seq<Step>, t: State, email: string)
    requires Leads(cfg, s, steps, t) && AlwaysAlone(cfg, s, steps, email)
    requires Count(Checks, email, s.log) + Claim(s, email) <= Count(Saves, email, s.log)
    ensures Count(Checks, email, t.log) + Claim(t, email) <= Count(Saves, email, t.log)
    decreases |steps|
  {
    if steps != [] {
      NewsCounts(cfg, s, steps[0], email);
      ClaimStep(cfg, s, steps[0], email);
      ClaimRun(cfg, Apply(cfg, s, steps[0]), steps[1..], t, email);
    }
  }

  /** Where checks for one address do not overlap, as when handlers run one after the other, no more
      checks succeed than codes were saved, and fewer while a code is live. */
  lemma NoMoreChecksThanCodes(cfg: Config, s: State, steps: seq<Step>, t: State, email: string)
    requires IsStart(cfg, s) && Leads(cfg, s, steps, t) && AlwaysAlone(cfg, s, steps, email)
    ensures Count(Checks, email, t.log) + Live(t, email) <= Count(Saves, email, t.log)
  {
    ClaimRun(cfg, s, steps, t, email);
  }

  // ---------------------------------------------------------------- one mail at a time

  /** The thread found no code for the address and has not saved its own yet. */
  predicate Sending(s: State, email: string, tid: nat) {
    && tid in s.threads
    && (s.threads[tid].EmailCode? || s.threads[tid].EmailSend? || s.threads[tid].EmailSave?)
    && s.threads[tid].email == email
  }

  ghost predicate SoleSender(s: State, email: string) {
    forall i, j :: Sending(s, email, i) && Sending(s, email, j) ==> i == j
  }

  ghost predicate AlwaysSoleSender(cfg: Config, s: State, steps: seq<Step>, email: string)
    decreases |steps|
  {
    && SoleSender(s, email)
    && (steps != [] ==> Enabled(cfg, s, steps[0]) && AlwaysSoleSender(cfg, Apply(cfg, s, steps[0]), steps[1..], email))
  }

  ghost predicate NothingLive(s: State, email: string) {
    forall tid :: Sending(s, email, tid) ==> email !in s.cache
  }

  predicate SendingThread(t: Thread, email: string) {
    (t.EmailCode? || t.EmailSend? || t.EmailSave?) && t.email == email
  }

  /** Only a thread that found no code starts sending. */
  lemma StartsSending(cfg: Config, s: State, t: Thread, ch: Choice, email: string)
    requires CanGo(cfg, s, t, ch) && SendingThread(Act(cfg, s, t, ch).1, email)
    ensures SendingThread(t, email) || email !in s.cache
    ensures Act(cfg, s, t, ch).0.cache == s.cache
  {
  }

  /** Only a sending thread puts a code into the cache. */
  lemma CacheGrows(cfg: Config, s: State, t: Thread, ch: Choice, email: string)
    requires CanGo(cfg, s, t, ch) && email in Act(cfg, s, t, ch).0.cache
    ensures email in s.cache || (t.EmailSave? && t.email == email)
  {
  }

  lemma SendingStep(cfg: Config, s: State, st: Step, email: string)
    requires Enabled(cfg, s, st) && SoleSender(s, email) && NothingLive(s, email)
    ensures NothingLive(Apply(cfg, s, st), email)
  {
    if st.Go? {
      SendingGo(cfg, s, st.tid, st.choice, email);
    } else {
      var t := Apply(cfg, s, st);
      assert forall i :: Sending(t, email, i) ==> Sending(s, email, i);
    }
  }

  lemma SendingGo(cfg: Config, s: State, tid: nat, ch: Choice, email: string)
    requires Enabled(cfg, s, Go(tid, ch)) && SoleSender(s, email) && NothingLive(s, email)
    ensures NothingLive(Apply(cfg, s, Go(tid, ch)), email)
  {
    var r := Act(cfg, s, s.threads[tid], ch);
    var t := Apply(cfg, s, Go(tid, ch));
    assert t.threads == s.threads[tid := r.1] && t.cache == r.0.cache;
    forall i | Sending(t, email, i)
      ensures email !in t.cache
    {
      if i == tid {
        StartsSending(cfg, s, s.threads[tid], ch, email);
        assert SendingThread(s.threads[tid], email) ==> Sending(s, email, tid);
      } else {
        assert Sending(s, email, i);
        if email in r.0.cache {
          CacheGrows(cfg, s, s.threads[tid], ch, email);
          assert Sending(s, email, tid);
        }
      }
    }
  }

  lemma {:induction false} SendingRun(cfg: Config, s: State, steps: seq<Step>, t: State, email: string)
    requires Leads(cfg, s, steps, t) && AlwaysSoleSender(cfg, s, steps, email) && NothingLive(s, email)
    ensures NothingLive(t, email)
    decreases |steps|
  {
    if steps != [] {
      SendingStep(cfg, s, steps[0], email);
      SendingRun(cfg, Apply(cfg, s, steps[0]), steps[1..], t, email);
    }
  }

  /** Where verifications of one address do not overlap, a code is mailed, and later saved, only
      when no code for that address is live. */
  lemma MailedOnlyWhenNoneLive(cfg: Config, s: State, steps: seq<Step>, t: State, tid: nat)
    requires IsStart(cfg, s) && Leads(cfg, s, steps, t)
    requires tid in t.threads && (t.threads[tid].EmailSend? || t.threads[tid].EmailSave?)
    requires AlwaysSoleSender(cfg, s, steps, t.threads[tid].email)
    ensures t.threads[tid].email !in t.cache
  {
    SendingRun(cfg, s, steps, t, t.threads[tid].email);
    assert Sending(t, t.threads[tid].email, tid);
  }

  // ---------------------------------------------------------------- overlapping checks

  /** From any state with a live code, two requests that present it can both be accepted. */
  lemma OverlappingChecks(cfg: Config, s: State, email: string, a: nat, b: nat) returns (tr: Trail, t: State)
    requires email in s.cache && EmailShape(cfg.rules, email) && OtpShape(s.cache[email])
    requires a !in s.threads && b !in s.threads && a != b
    ensures IsTrail(cfg, s, tr, t)
    ensures t.log == s.log
      + [Checked(email, s.cache[email])] + [Cleared(email)] + [Checked(email, s.cache[email])]
  {
    var code := s.cache[email];
    tr, t := Matched(cfg, s, Trail([s], []), s, email, a);
    tr, t := Matched(cfg, s, tr, t, email, b);
    tr, t := BothDelete(cfg, s, tr, t, email, code, a, b);
  }

  /** A request that presents the live code, up to the point where its check has read it. */
  lemma Matched(cfg: Config, s0: State, tr: Trail, s: State, email: string, tid: nat) returns (more: Trail, t: State)
    requires IsTrail(cfg, s0, tr, s) && tid !in s.threads
    requires email in s.cache && EmailShape(cfg.rules, email) && OtpShape(s.cache[email])
    ensures IsTrail(cfg, s0, more, t) && t == At(s, s, tid, OtpDel(email, s.cache[email]))
  {
    more, t := Extended(cfg, s0, tr, s, Spawn(tid, VerifyOtp(email, s.cache[email])));
    more, t := Extended(cfg, s0, more, t, Go(tid, Plain));
    assert t.threads == s.threads[tid := OtpDel(email, s.cache[email])];
  }

  lemma BothDelete(cfg: Config, s0: State, tr: Trail, s: State, email: string, code: string, a: nat, b: nat)
      returns (more: Trail, t: State)
    requires IsTrail(cfg, s0, tr, s) && a != b && email in s.cache
    requires a in s.threads && b in s.threads && s.threads[a] == s.threads[b] == OtpDel(email, code)
    ensures IsTrail(cfg, s0, more, t)
    ensures t.log == s.log + [Checked(email, code)] + [Cleared(email)] + [Checked(email, code)]
  {
    more, t := Extended(cfg, s0, tr, s, Go(a, Plain));
    more, t := Extended(cfg, s0, more, t, Go(b, Plain));
    assert t.log == s.log + [Checked(email, code)] + [Cleared(email)] + [Checked(email, code)] + [];
  }

  /** verifyEmail served from the start: one code mailed, saved and live. */
  lemma FirstCode(cfg: Config, s: State, email: string, code: string, tid: nat) returns (tr: Trail, t: State)
    requires IsStart(cfg, s) && EmailShape(cfg.rules, email) && IsCode(code, cfg.codeLen)
    requires FindUser(s.users, email).None?
    ensures IsTrail(cfg, s, tr, t)
    ensures t == s.(log := [Mailed(email, code)] + [Saved(email, code)], cache := map[email := code],
                    threads := map[tid := Done(204, None)])
  {
    tr, t := Spawned(cfg, s, tid, VerifyEmail(email), EmailLookup(email));
    tr, t := LookedUp(cfg, s, tr, t, tid, email, Works);
    tr, t := AskedExists(cfg, s, tr, t, tid, email, false);
    tr, t := Drew(cfg, s, tr, t, tid, email, Some(code));
    tr, t := Sent(cfg, s, tr, t, tid, email, code, false);
    assert t.log == [Mailed(email, code)];
    tr, t := WasSaved(cfg, s, tr, t, tid, email, code, false);
  }

  lemma CountTwice(probe: Probe, email: string, code: string)
    ensures Count(probe, email, [Mailed(email, code)] + [Saved(email, code)]
                                + [Checked(email, code)] + [Cleared(email)] + [Checked(email, code)])
      == match probe case Saves => 1 case Checks => 2 case Clears => 1 case Losses => 0
        case ChecksOf(c) => if c == code then 2 else 0
  {
    var l1 := [Mailed(email, code)];
    var l2 := l1 + [Saved(email, code)];
    var l3 := l2 + [Checked(email, code)];
    var l4 := l3 + [Cleared(email)];
    CountAppend(probe, email, [], Mailed(email, code));
    assert [] + [Mailed(email, code)] == l1;
    CountAppend(probe, email, l1, Saved(email, code));
    CountAppend(probe, email, l2, Checked(email, code));
    CountAppend(probe, email, l3, Cleared(email));
    CountAppend(probe, email, l4, Checked(email, code));
  }

  /** Without the restriction of NoMoreChecksThanCodes a one-time code can be accepted twice: a run
      with one saved code and two successful checks. */
  lemma CodeAcceptedTwice(cfg: Config, s: State, email: string, code: string) returns (steps: seq<Step>, t: State)
    requires IsStart(cfg, s) && EmailShape(cfg.rules, email) && IsCode(code, cfg.codeLen) && cfg.codeLen == 6
    requires FindUser(s.users, email).None?
    ensures Leads(cfg, s, steps, t)
    ensures Count(Saves, email, t.log) == 1 && Count(Checks, email, t.log) == 2
    ensures !AlwaysAlone(cfg, s, steps, email)
  {
    CodePassesIff(code, 6);
    var front, mid := FirstCode(cfg, s, email, code, 0);
    var back;
    back, t := OverlappingChecks(cfg, mid, email, 1, 2);
    TrailLeads(cfg, s, front, mid);
    TrailLeads(cfg, mid, back, t);
    LeadsConcat(cfg, s, front.steps, mid, back.steps, t);
    steps := front.steps + back.steps;
    CountTwice(Saves, email, code);
    CountTwice(Checks, email, code);
    NotAlwaysAlone(cfg, s, steps, t, email);
  }

  /** More checks than codes betray an overlap. */
  lemma NotAlwaysAlone(cfg: Config, s: State, steps: seq<Step>, t: State, email: string)
    requires IsStart(cfg, s) && Leads(cfg, s, steps, t)
    requires Count(Saves, email, t.log) < Count(Checks, email, t.log)
    ensures !AlwaysAlone(cfg, s, steps, email)
  {
    if AlwaysAlone(cfg, s, steps, email) {
      NoMoreChecksThanCodes(cfg, s, steps, t, email);
      assert false;
    }
  }

  // ---------------------------------------------------------------- one code accepted twice

  /** A check of the address has read this code and is about to delete. */
  predicate Standing(s: State, email: string, code: string, tid: nat) {
    tid in s.threads && s.threads[tid] == OtpDel(email, code)
  }

  predicate LiveCode(s: State, email: string, code: string) {
    email in s.cache && s.cache[email] == code
  }

  /** This code was not saved for the address since the log was `before`. */
  ghost predicate NotSaved(before: seq<Event>, log: seq<Event>, email: string, code: string) {
    forall k :: |before| <= k < |log| ==> log[k] != Saved(email, code)
  }

  lemma NotSavedSplits(before: seq<Event>, log: seq<Event>, news: seq<Event>, email: string, code: string)
    requires before <= log && NotSaved(before, log + news, email, code)
    ensures NotSaved(before, log, email, code) && Saved(email, code) !in news
  {
    assert forall k :: 0 <= k < |log| ==> (log + news)[k] == log[k];
    assert forall k :: 0 <= k < |news| ==> (log + news)[|log| + k] == news[k];
  }

  /** No request can read the code: it is not live, or it does not pass validation. */
  ghost predicate Barred(s: State, email: string, code: string) {
    || !LiveCode(s, email, code)
    || (!OtpShape(code) && forall tid :: tid in s.threads ==> s.threads[tid] != OtpGet(email, code))
  }

  /** A barred code stays barred while it is not saved, and no check comes to stand with it. */
  lemma BarredStep(cfg: Config, s: State, st: Step, email: string, code: string)
    requires Enabled(cfg, s, st) && Barred(s, email, code) && Saved(email, code) !in News(cfg, s, st)
    ensures var t := Apply(cfg, s, st);
      && Barred(t, email, code)
      && (!LiveCode(s, email, code) ==> !LiveCode(t, email, code))
      && forall tid :: Standing(t, email, code, tid) ==> Standing(s, email, code, tid)
  {
    if st.Go? {
      BarredGo(cfg, s, s.threads[st.tid], st.choice, email, code);
      var t := Apply(cfg, s, st);
      assert t.threads == s.threads[st.tid := Act(cfg, s, s.threads[st.tid], st.choice).1];
    }
  }

  lemma BarredGo(cfg: Config, s: State, t: Thread, ch: Choice, email: string, code: string)
    requires CanGo(cfg, s, t, ch) && Saved(email, code) !in ThreadNews(cfg, s, t, ch)
    ensures var r := Act(cfg, s, t, ch);
      && (LiveCode(r.0, email, code) ==> LiveCode(s, email, code))
      && (r.1 == OtpDel(email, code) ==> t == OtpGet(email, code) && LiveCode(s, email, code))
      && r.1 != OtpGet(email, code)
  {
    if t == EmailSave(email, code) && ch.Plain? {
      SaveShows(cfg, s, t, email, code);
      assert false;
    }
  }

  lemma SaveShows(cfg: Config, s: State, t: Thread, email: string, code: string)
    requires t == EmailSave(email, code)
    ensures Saved(email, code) in ThreadNews(cfg, s, t, Plain)
  {
    var news := ThreadNews(cfg, s, t, Plain);
    assert news[|news| - 1] == Saved(email, code);
  }

  /** The Del of a check reports its code first, saves none, and leaves none live. */
  lemma DelChecks(cfg: Config, s: State, st: Step, email: string, code: string)
    requires Enabled(cfg, s, st) && st.Go? && Standing(s, email, code, st.tid)
    ensures var news := News(cfg, s, st);
      news != [] && news[0] == Checked(email, code) && Saved(email, code) !in news
    ensures var t := Apply(cfg, s, st);
      && !LiveCode(t, email, code)
      && forall tid :: Standing(t, email, code, tid) ==> Standing(s, email, code, tid) && tid != st.tid
  {
    assert s.threads[st.tid].OtpDel?;
  }

  /** How often a step reports the code: once if it is the Del of a check standing with it. */
  lemma ChecksOfStep(cfg: Config, s: State, st: Step, email: string, code: string)
    requires Enabled(cfg, s, st)
    ensures Count(ChecksOf(code), email, News(cfg, s, st))
      == if st.Go? && Standing(s, email, code, st.tid) then 1 else 0
  {
    var news := News(cfg, s, st);
    if news != [] {
      var b := if |news| == 2 then news[1] else news[0];
      NewsIsRight(cfg, s, st);
      assert news == [news[0]] || news == [news[0], b];
      Small(ChecksOf(code), email, news[0], b);
      OnlyDelChecks(cfg, s, st, email, code);
    }
  }

  lemma OnlyDelChecks(cfg: Config, s: State, st: Step, email: string, code: string)
    requires Enabled(cfg, s, st)
    ensures var news := News(cfg, s, st); forall p :: 0 <= p < |news| ==>
      (news[p] == Checked(email, code) <==> st.Go? && Standing(s, email, code, st.tid) && p == 0)
  {
    if st.Go? {
      assert News(cfg, s, st) == ThreadNews(cfg, s, s.threads[st.tid], st.choice);
    }
  }

  /** From s on the code can be accepted twice without being saved again. */
  ghost predicate CanBeAcceptedTwice(cfg: Config, s: State, email: string, code: string) {
    exists steps, t :: Leads(cfg, s, steps, t) && NotSaved(s.log, t.log, email, code)
      && Count(ChecksOf(code), email, s.log) + 2 <= Count(ChecksOf(code), email, t.log)
  }

  ghost predicate TwoStanding(s: State, email: string, code: string) {
    exists i, j :: i != j && Standing(s, email, code, i) && Standing(s, email, code, j)
  }

  ghost function Due(s: State, email: string, code: string): nat {
    if exists tid :: Standing(s, email, code, tid) then 1 else 0
  }

  lemma {:induction false} LogOfRun(cfg: Config, s: State, steps: seq<Step>, t: State)
    requires Leads(cfg, s, steps, t)
    ensures s.log <= t.log
    decreases |steps|
  {
    if steps != [] {
      var u := Apply(cfg, s, steps[0]);
      NewsIsRight(cfg, s, steps[0]);
      LogOfRun(cfg, u, steps[1..], t);
    }
  }

  /** A barred code that is not saved is accepted at most once more, by the check standing with it. */
  lemma {:induction false} BarredRun(cfg: Config, s: State, steps: seq<Step>, t: State, email: string, code: string)
    requires Leads(cfg, s, steps, t) && NotSaved(s.log, t.log, email, code)
    requires Barred(s, email, code) && !TwoStanding(s, email, code)
    ensures Count(ChecksOf(code), email, t.log) <= Count(ChecksOf(code), email, s.log) + Due(s, email, code)
    decreases |steps|
  {
    if steps != [] {
      var st := steps[0];
      var u := Apply(cfg, s, st);
      BarredNext(cfg, s, steps, t, email, code);
      NewsCounts(cfg, s, st, email);
      ChecksOfStep(cfg, s, st, email, code);
      if st.Go? && Standing(s, email, code, st.tid) {
        DelChecks(cfg, s, st, email, code);
      }
      BarredRun(cfg, u, steps[1..], t, email, code);
    }
  }

  lemma BarredNext(cfg: Config, s: State, steps: seq<Step>, t: State, email: string, code: string)
    requires steps != [] && Leads(cfg, s, steps, t) && NotSaved(s.log, t.log, email, code)
    requires Barred(s, email, code)
    ensures var u := Apply(cfg, s, steps[0]);
      && Barred(u, email, code) && NotSaved(u.log, t.log, email, code)
      && forall tid :: Standing(u, email, code, tid) ==> Standing(s, email, code, tid)
  {
    var u := Apply(cfg, s, steps[0]);
    var news := News(cfg, s, steps[0]);
    NewsIsRight(cfg, s, steps[0]);
    LogOfRun(cfg, u, steps[1..], t);
    assert t.log == s.log + news + t.log[|u.log|..];
    assert forall k :: 0 <= k < |news| ==> t.log[|s.log| + k] == news[k];
    BarredStep(cfg, s, steps[0], email, code);
  }

  /** Two checks standing with the code both accept it. */
  lemma TwoStandingAccept(cfg: Config, s: State, email: string, code: string, a: nat, b: nat)
    requires Standing(s, email, code, a) && Standing(s, email, code, b) && a != b
    ensures CanBeAcceptedTwice(cfg, s, email, code)
  {
    var u := Apply(cfg, s, Go(a, Plain));
    assert u.threads[b] == s.threads[b];
    var t := Apply(cfg, u, Go(b, Plain));
    var steps := [Go(a, Plain), Go(b, Plain)];
    assert steps[1..] == [Go(b, Plain)] && steps[1..][1..] == [];
    assert Leads(cfg, t, [], t) && Leads(cfg, u, steps[1..], t) && Leads(cfg, s, steps, t);
    AcceptsOne(cfg, s, email, code, a);
    AcceptsOne(cfg, u, email, code, b);
    assert forall k :: |s.log| <= k < |u.log| ==> t.log[k] == u.log[k];
  }

  lemma AcceptsOne(cfg: Config, s: State, email: string, code: string, a: nat)
    requires Standing(s, email, code, a)
    ensures var t := Apply(cfg, s, Go(a, Plain));
      && s.log <= t.log && NotSaved(s.log, t.log, email, code)
      && Count(ChecksOf(code), email, t.log) == Count(ChecksOf(code), email, s.log) + 1
  {
    NewsIsRight(cfg, s, Go(a, Plain));
    NewsCounts(cfg, s, Go(a, Plain), email);
    ChecksOfStep(cfg, s, Go(a, Plain), email, code);
    DelChecks(cfg, s, Go(a, Plain), email, code);
  }

  /** A live code that passes validation can be presented by two requests. */
  lemma LiveAccepts(cfg: Config, s: State, email: string, code: string)
    requires LiveCode(s, email, code) && EmailShape(cfg.rules, email) && OtpShape(code)
    ensures CanBeAcceptedTwice(cfg, s, email, code)
  {
    var a := Unused(s.threads.Keys);
    var tr, t := OverlappingChecks(cfg, s, email, a, a + 1);
    TrailLeads(cfg, s, tr, t);
    TwoMore(s.log, email, code);
  }

  lemma TwoMore(log: seq<Event>, email: string, code: string)
    ensures var more := log + [Checked(email, code)] + [Cleared(email)] + [Checked(email, code)];
      && NotSaved(log, more, email, code)
      && Count(ChecksOf(code), email, more) == Count(ChecksOf(code), email, log) + 2
  {
    var l1 := log + [Checked(email, code)];
    var l2 := l1 + [Cleared(email)];
    CountAppend(ChecksOf(code), email, log, Checked(email, code));
    CountAppend(ChecksOf(code), email, l1, Cleared(email));
    CountAppend(ChecksOf(code), email, l2, Checked(email, code));
  }

  /** When a code can still be accepted twice, by whatever requests are under way or to come, without
      being saved again: exactly when it is live and passes validation, or two checks already stand
      with it. */
  lemma CanBeAcceptedTwiceIff(cfg: Config, seed: map<nat, Row>, s: State, email: string, code: string)
    requires Provenance.Reachable(cfg, seed, s)
    ensures CanBeAcceptedTwice(cfg, s, email, code)
      <==> (LiveCode(s, email, code) && OtpShape(code)) || TwoStanding(s, email, code)
  {
    Provenance.ReachableInv(cfg, seed, s);
    if TwoStanding(s, email, code) {
      var i, j :| i != j && Standing(s, email, code, i) && Standing(s, email, code, j);
      TwoStandingAccept(cfg, s, email, code, i, j);
    } else if LiveCode(s, email, code) && OtpShape(code) {
      LiveAccepts(cfg, s, email, code);
    } else {
      BarredFrom(cfg, s, email, code);
      forall steps, t | Leads(cfg, s, steps, t) && NotSaved(s.log, t.log, email, code)
        ensures Count(ChecksOf(code), email, t.log) < Count(ChecksOf(code), email, s.log) + 2
      {
        BarredRun(cfg, s, steps, t, email, code);
      }
    }
  }

  lemma BarredFrom(cfg: Config, s: State, email: string, code: string)
    requires Provenance.ThreadsOk(cfg, s) && !(LiveCode(s, email, code) && OtpShape(code))
    ensures Barred(s, email, code)
  {
    forall tid | tid in s.threads && !OtpShape(code)
      ensures s.threads[tid] != OtpGet(email, code)
    {
      assert Provenance.ThreadOk(cfg, s.log, s.users, s.issued, s.threads[tid]);
    }
  }

  // ---------------------------------------------------------------- codes accepted twice in a run

  /** Two checks of the address accept this code, which is not saved between them. */
  ghost predicate AcceptedTwice(log: seq<Event>, email: string, code: string) {
    exists i, j :: 0 <= i < j < |log| && TwiceAt(log, email, code, i, j)
  }

  ghost predicate TwiceAt(log: seq<Event>, email: string, code: string, i: int, j: int)
    requires 0 <= i < j < |log|
  {
    && log[i] == log[j] == Checked(email, code)
    && forall k :: i < k < j ==> log[k] != Saved(email, code)
  }

  /** Step m of the run is the Del of a check standing with the code. */
  ghost predicate Dels(tr: Trail, m: int, email: string, code: string)
    requires |tr.states| == |tr.steps| + 1 && 0 <= m < |tr.steps|
  {
    tr.steps[m].Go? && Standing(tr.states[m], email, code, tr.steps[m].tid)
  }

  /** The check that deletes in step n already stood with the code when another deleted in step m,
      and the code was not saved from then on. */
  ghost predicate OverlapAt(tr: Trail, email: string, code: string, m: int, n: int)
    requires |tr.states| == |tr.steps| + 1 && 0 <= m < n < |tr.steps|
  {
    && Dels(tr, m, email, code) && Dels(tr, n, email, code)
    && tr.steps[m].tid != tr.steps[n].tid && Standing(tr.states[m], email, code, tr.steps[n].tid)
    && NotSaved(tr.states[m].log, tr.states[n].log, email, code)
  }

  ghost predicate Overlap(tr: Trail, email: string, code: string)
    requires |tr.states| == |tr.steps| + 1
  {
    exists m, n :: 0 <= m < n < |tr.steps| && OverlapAt(tr, email, code, m, n)
  }

  /** What was logged stays logged. */
  lemma LogsGrow(cfg: Config, s: State, tr: Trail, t: State, m: nat, n: nat)
    requires IsTrail(cfg, s, tr, t) && m <= n < |tr.states|
    ensures tr.states[m].log <= tr.states[n].log
  {
    forall i | 0 <= i < |tr.states| - 1
      ensures GrowsAt(tr.states, i)
    {
      StepLogs(cfg, s, tr, t, i);
    }
    GrowsFrom(tr.states, m, n);
  }

  ghost predicate GrowsAt(states: seq<State>, i: int)
    requires 0 <= i < |states| - 1
  {
    states[i].log <= states[i + 1].log
  }

  lemma {:induction false} GrowsFrom(states: seq<State>, m: nat, n: nat)
    requires m <= n < |states| && forall i :: 0 <= i < |states| - 1 ==> GrowsAt(states, i)
    ensures states[m].log <= states[n].log
    decreases n - m
  {
    if m < n {
      GrowsFrom(states, m, n - 1);
      assert GrowsAt(states, n - 1);
    }
  }

  lemma StepLogs(cfg: Config, s: State, tr: Trail, t: State, n: nat)
    requires IsTrail(cfg, s, tr, t) && n < |tr.steps|
    ensures tr.states[n].log <= tr.states[n + 1].log
  {
    NewsIsRight(cfg, tr.states[n], tr.steps[n]);
  }

  /** The step that logged event i, and the place of the event in its news. */
  lemma {:induction false} StepOf(cfg: Config, s: State, tr: Trail, t: State, n: nat, i: nat) returns (m: nat)
    requires IsTrail(cfg, s, tr, t) && n < |tr.states| && |s.log| <= i < |tr.states[n].log|
    ensures m < n && |tr.states[m].log| <= i < |tr.states[m + 1].log|
    decreases n
  {
    if |tr.states[n - 1].log| <= i {
      m := n - 1;
    } else {
      m := StepOf(cfg, s, tr, t, n - 1, i);
    }
  }

  lemma NewsAt(cfg: Config, s: State, tr: Trail, t: State, i: nat) returns (m: nat, p: nat)
    requires IsTrail(cfg, s, tr, t) && s.log == [] && i < |t.log|
    ensures m < |tr.steps| && i == |tr.states[m].log| + p
    ensures var news := News(cfg, tr.states[m], tr.steps[m]); p < |news| && news[p] == t.log[i]
  {
    m := StepOf(cfg, s, tr, t, |tr.steps|, i);
    p := i - |tr.states[m].log|;
    NewsIsRight(cfg, tr.states[m], tr.steps[m]);
    LogsGrow(cfg, s, tr, t, m + 1, |tr.steps|);
  }

  /** From a Del on, while the code is not saved, the checks standing with it are among those that
      stood then. */
  lemma {:induction false} StandingSince(cfg: Config, s: State, tr: Trail, t: State,
                                         email: string, code: string, m: nat, n: nat)
    requires IsTrail(cfg, s, tr, t) && m < n < |tr.states| && Dels(tr, m, email, code)
    requires NotSaved(tr.states[m].log, tr.states[n].log, email, code)
    ensures !LiveCode(tr.states[n], email, code)
    ensures forall tid :: Standing(tr.states[n], email, code, tid) ==>
      Standing(tr.states[m], email, code, tid) && tid != tr.steps[m].tid
    decreases n - m
  {
    if n == m + 1 {
      DelChecks(cfg, tr.states[m], tr.steps[m], email, code);
    } else {
      var u, st := tr.states[n - 1], tr.steps[n - 1];
      NewsIsRight(cfg, u, st);
      LogsGrow(cfg, s, tr, t, m, n - 1);
      NotSavedSplits(tr.states[m].log, u.log, News(cfg, u, st), email, code);
      StandingSince(cfg, s, tr, t, email, code, m, n - 1);
      BarredStep(cfg, u, st, email, code);
    }
  }

  /** The Del that logged acceptance i. */
  lemma DelOf(cfg: Config, s: State, tr: Trail, t: State, email: string, code: string, i: nat) returns (m: nat)
    requires IsTrail(cfg, s, tr, t) && s.log == [] && i < |t.log| && t.log[i] == Checked(email, code)
    ensures m < |tr.steps| && Dels(tr, m, email, code) && |tr.states[m].log| == i
  {
    var p;
    m, p := NewsAt(cfg, s, tr, t, i);
    OnlyDelChecks(cfg, tr.states[m], tr.steps[m], email, code);
  }

  lemma LogOfDel(cfg: Config, s: State, tr: Trail, t: State, email: string, code: string, m: nat)
    requires IsTrail(cfg, s, tr, t) && m < |tr.steps| && Dels(tr, m, email, code)
    ensures |tr.states[m].log| < |tr.states[m + 1].log| <= |t.log|
    ensures t.log[|tr.states[m].log|] == Checked(email, code)
  {
    NewsIsRight(cfg, tr.states[m], tr.steps[m]);
    DelChecks(cfg, tr.states[m], tr.steps[m], email, code);
    LogsGrow(cfg, s, tr, t, m + 1, |tr.steps|);
  }

  /** In every run of the program: a code is accepted twice without being saved in between if and only
      if the later check already stood with the code when the earlier one deleted, and the code was
      not saved in between. */
  lemma AcceptedTwiceIff(cfg: Config, s: State, tr: Trail, t: State, email: string, code: string)
    requires IsStart(cfg, s) && IsTrail(cfg, s, tr, t)
    ensures AcceptedTwice(t.log, email, code) <==> Overlap(tr, email, code)
  {
    if AcceptedTwice(t.log, email, code) {
      var i, j :| 0 <= i < j < |t.log| && TwiceAt(t.log, email, code, i, j);
      TwiceIsOverlap(cfg, s, tr, t, email, code, i, j);
    }
    if Overlap(tr, email, code) {
      var m, n :| 0 <= m < n < |tr.steps| && OverlapAt(tr, email, code, m, n);
      OverlapIsTwice(cfg, s, tr, t, email, code, m, n);
    }
  }

  lemma TwiceIsOverlap(cfg: Config, s: State, tr: Trail, t: State, email: string, code: string, i: nat, j: nat)
    requires IsTrail(cfg, s, tr, t) && s.log == [] && i < j < |t.log| && TwiceAt(t.log, email, code, i, j)
    ensures Overlap(tr, email, code)
  {
    var m := DelOf(cfg, s, tr, t, email, code, i);
    var n := DelOf(cfg, s, tr, t, email, code, j);
    if n <= m {
      LogsGrow(cfg, s, tr, t, n, m);
      assert false;
    }
    LogsGrow(cfg, s, tr, t, n, |tr.steps|);
    assert forall k :: 0 <= k < j ==> tr.states[n].log[k] == t.log[k];
    StandingSince(cfg, s, tr, t, email, code, m, n);
    assert OverlapAt(tr, email, code, m, n);
  }

  lemma OverlapIsTwice(cfg: Config, s: State, tr: Trail, t: State, email: string, code: string, m: nat, n: nat)
    requires IsTrail(cfg, s, tr, t) && m < n < |tr.steps| && OverlapAt(tr, email, code, m, n)
    ensures AcceptedTwice(t.log, email, code)
  {
    LogOfDel(cfg, s, tr, t, email, code, m);
    LogOfDel(cfg, s, tr, t, email, code, n);
    LogsGrow(cfg, s, tr, t, m + 1, n);
    LogsGrow(cfg, s, tr, t, n, |tr.steps|);
    var i, j := |tr.states[m].log|, |tr.states[n].log|;
    assert forall k :: 0 <= k < j ==> tr.states[n].log[k] == t.log[k];
    assert TwiceAt(t.log, email, code, i, j);
  }
}
