/** When a code is mailed that should not be: while another is live, or to an address that has an
    account. */
module Mailing {
  import opened Prelude
  import opened Tokens
  import opened Otp
  import opened Validate
  import opened Protocol
  import opened ThreadSteps
  import opened OneTime
  import RoundTrip

  // ---------------------------------------------------------------- from a state

  /** The thread found no code for the address and is going to mail one. */
  predicate AboutToMail(s: State, email: string, tid: nat) {
    tid in s.threads && ToMail(s.threads[tid], email)
  }

  predicate ToMail(t: Thread, email: string) {
    (t.EmailCode? || t.EmailSend?) && t.email == email
  }

  /** The step mails a code to the address while one is live. */
  predicate MailsOver(s: State, st: Step, email: string) {
    && st.Go? && st.choice.Plain? && st.tid in s.threads
    && s.threads[st.tid].EmailSend? && s.threads[st.tid].email == email && email in s.cache
  }

  /** All steps are taken by the verifications of the address that are sending in s. */
  ghost predicate OwnSends(s: State, steps: seq<Step>, email: string) {
    forall st :: st in steps ==> st.Go? && Sending(s, email, st.tid)
  }

  /** The sending verifications, left to themselves, can come to mail a code while one is live. */
  ghost predicate CanMailOver(cfg: Config, s: State, email: string) {
    exists steps, t, st :: Leads(cfg, s, steps, t) && OwnSends(s, steps + [st], email) && MailsOver(t, st, email)
  }

  /** Whoever is going to mail a code is the only one sending, and none is live. */
  ghost predicate SoleMailer(s: State, email: string) {
    forall i :: AboutToMail(s, email, i) ==> email !in s.cache && forall j :: Sending(s, email, j) ==> j == i
  }

  /** The handler is past looking for a code. */
  predicate Past(t: Thread) {
    !t.EmailLookup? && !t.EmailExists?
  }

  lemma PastGo(cfg: Config, s: State, t: Thread, ch: Choice, email: string)
    requires CanGo(cfg, s, t, ch) && Past(t)
    ensures var r := Act(cfg, s, t, ch);
      && Past(r.1)
      && (ToMail(r.1, email) ==> ToMail(t, email) && r.0.cache == s.cache)
      && (SendingThread(r.1, email) ==> SendingThread(t, email))
      && (email in r.0.cache ==> email in s.cache || (SendingThread(t, email) && !SendingThread(r.1, email)))
  {
  }

  lemma SoleStep(cfg: Config, s: State, tid: nat, ch: Choice, email: string)
    requires Enabled(cfg, s, Go(tid, ch)) && Past(s.threads[tid]) && SoleMailer(s, email)
    ensures var t := Apply(cfg, s, Go(tid, ch));
      && SoleMailer(t, email) && t.threads == s.threads[tid := t.threads[tid]] && Past(t.threads[tid])
  {
    PastGo(cfg, s, s.threads[tid], ch, email);
    var r := Act(cfg, s, s.threads[tid], ch);
    var t := Apply(cfg, s, Go(tid, ch));
    assert t.threads == s.threads[tid := r.1] && t.cache == r.0.cache;
    assert forall j :: Sending(t, email, j) ==> Sending(s, email, j);
    forall i | AboutToMail(t, email, i)
      ensures email !in t.cache && forall j :: Sending(t, email, j) ==> j == i
    {
      assert AboutToMail(s, email, i);
      assert SendingThread(s.threads[tid], email) ==> Sending(s, email, tid);
    }
  }

  lemma {:induction false} SoleRun(cfg: Config, s: State, steps: seq<Step>, t: State, email: string)
    requires Leads(cfg, s, steps, t) && SoleMailer(s, email)
    requires forall st :: st in steps ==> st.Go? && st.tid in s.threads && Past(s.threads[st.tid])
    ensures SoleMailer(t, email)
    decreases |steps|
  {
    if steps != [] {
      var st := steps[0];
      assert st in steps;
      SoleStep(cfg, s, st.tid, st.choice, email);
      SoleRun(cfg, Apply(cfg, s, st), steps[1..], t, email);
    }
  }

  /** A thread that found no code gets one out, mailed but not saved. */
  lemma Mails(cfg: Config, s0: State, tr: Trail, s: State, tid: nat, email: string, code: string)
      returns (more: Trail, t: State)
    requires IsTrail(cfg, s0, tr, s) && IsCode(code, cfg.codeLen)
    requires tid in s.threads && s.threads[tid] == EmailCode(email)
    ensures IsTrail(cfg, s0, more, t)
    ensures t == At(s, s, tid, EmailSave(email, code)).(log := s.log + [Mailed(email, code)])
    ensures more.steps == tr.steps + [Go(tid, Drawn(code))] + [Go(tid, Plain)]
  {
    var u := Apply(cfg, s, Go(tid, Drawn(code)));
    assert u == At(s, s, tid, EmailSend(email, code));
    t := Apply(cfg, u, Go(tid, Plain));
    assert t.threads == s.threads[tid := EmailSave(email, code)];
    more := Trail(tr.states + [u] + [t], tr.steps + [Go(tid, Drawn(code))] + [Go(tid, Plain)]);
  }

  /** A sending thread can always get its code mailed, if it is not yet, and saved. */
  lemma SaveComes(cfg: Config, s: State, email: string, tid: nat) returns (tr: Trail, t: State)
    requires Sending(s, email, tid)
    ensures IsTrail(cfg, s, tr, t) && email in t.cache && t.threads.Keys == s.threads.Keys
    ensures forall i :: i != tid && i in s.threads ==> t.threads[i] == s.threads[i]
    ensures forall st :: st in tr.steps ==> st.Go? && st.tid == tid
  {
    var front, u := MailComes(cfg, s, email, tid);
    t := Apply(cfg, u, Go(tid, Plain));
    tr := Trail(front.states + [t], front.steps + [Go(tid, Plain)]);
  }

  lemma MailComes(cfg: Config, s: State, email: string, tid: nat) returns (tr: Trail, t: State)
    requires Sending(s, email, tid)
    ensures IsTrail(cfg, s, tr, t) && tid in t.threads && t.threads[tid].EmailSave? && t.threads[tid].email == email
    ensures t.threads == s.threads[tid := t.threads[tid]]
    ensures forall st :: st in tr.steps ==> st.Go? && st.tid == tid
  {
    tr, t := Trail([s], []), s;
    if s.threads[tid].EmailCode? {
      var code: string := seq(cfg.codeLen, _ => '1');
      tr, t := Mails(cfg, s, tr, t, tid, email, code);
    } else if s.threads[tid].EmailSend? {
      t := Apply(cfg, s, Go(tid, Plain));
      tr := Trail([s] + [t], [Go(tid, Plain)]);
    }
  }

  /** A thread about to mail while a code is live can do so. */
  lemma MailsNext(cfg: Config, s: State, email: string, tid: nat) returns (tr: Trail, t: State)
    requires AboutToMail(s, email, tid) && email in s.cache
    ensures IsTrail(cfg, s, tr, t) && MailsOver(t, Go(tid, Plain), email)
    ensures forall st :: st in tr.steps ==> st.Go? && st.tid == tid
  {
    tr, t := Trail([s], []), s;
    if s.threads[tid].EmailCode? {
      var code: string := seq(cfg.codeLen, _ => '1');
      tr, t := Extended(cfg, s, tr, s, Go(tid, Drawn(code)));
      tr := Trail([s] + [t], [Go(tid, Drawn(code))]);
    }
  }

  /** Two are sending, one of them not mailed yet: the other saves, and the one mails over it. */
  lemma TwoMailOver(cfg: Config, s: State, email: string, i: nat, j: nat)
    requires AboutToMail(s, email, i) && Sending(s, email, j) && i != j
    ensures CanMailOver(cfg, s, email)
  {
    var front, u := SaveComes(cfg, s, email, j);
    assert AboutToMail(u, email, i);
    var back, t := MailsNext(cfg, u, email, i);
    TrailLeads(cfg, s, front, u);
    TrailLeads(cfg, u, back, t);
    LeadsConcat(cfg, s, front.steps, u, back.steps, t);
    assert OwnSends(s, front.steps + back.steps + [Go(i, Plain)], email);
  }

  lemma OneMailsOver(cfg: Config, s: State, email: string, i: nat)
    requires AboutToMail(s, email, i) && email in s.cache
    ensures CanMailOver(cfg, s, email)
  {
    var tr, t := MailsNext(cfg, s, email, i);
    TrailLeads(cfg, s, tr, t);
    assert OwnSends(s, tr.steps + [Go(i, Plain)], email);
  }

  /** The verifications under way cannot come to mail a code while one is live if and only if whoever
      is going to mail one is the only one sending, and none is live. */
  lemma SoleMailerIff(cfg: Config, s: State, email: string)
    ensures !CanMailOver(cfg, s, email) <==> SoleMailer(s, email)
  {
    if SoleMailer(s, email) {
      forall steps: seq<Step>, t, st | Leads(cfg, s, steps, t) && OwnSends(s, steps + [st], email)
        ensures !MailsOver(t, st, email)
      {
        assert forall x :: x in steps ==> x in steps + [st];
        SoleRun(cfg, s, steps, t, email);
        assert MailsOver(t, st, email) ==> AboutToMail(t, email, st.tid);
      }
    } else {
      var i :| AboutToMail(s, email, i) && !(email !in s.cache && forall j :: Sending(s, email, j) ==> j == i);
      if email in s.cache {
        OneMailsOver(cfg, s, email, i);
      } else {
        var j :| Sending(s, email, j) && j != i;
        TwoMailOver(cfg, s, email, i, j);
      }
    }
  }

  // ---------------------------------------------------------------- in a run

  /** Step m of the run mails this code. */
  ghost predicate Sends(tr: Trail, m: int, email: string, code: string)
    requires |tr.states| == |tr.steps| + 1 && 0 <= m < |tr.steps|
  {
    && tr.steps[m].Go? && tr.steps[m].choice.Plain? && tr.steps[m].tid in tr.states[m].threads
    && tr.states[m].threads[tr.steps[m].tid] == EmailSend(email, code)
  }

  lemma MailedBySend(cfg: Config, s: State, st: Step, email: string, code: string, p: nat)
    requires Enabled(cfg, s, st)
    requires var news := News(cfg, s, st); p < |news| && news[p] == Mailed(email, code)
    ensures p == 0 && st.Go? && st.choice.Plain? && st.tid in s.threads && s.threads[st.tid] == EmailSend(email, code)
  {
    assert News(cfg, s, st) == ThreadNews(cfg, s, s.threads[st.tid], st.choice);
  }

  /** The step that logged mail i. */
  lemma SendOf(cfg: Config, s: State, tr: Trail, t: State, email: string, code: string, i: nat) returns (m: nat)
    requires IsTrail(cfg, s, tr, t) && s.log == [] && i < |t.log| && t.log[i] == Mailed(email, code)
    ensures m < |tr.steps| && Sends(tr, m, email, code) && |tr.states[m].log| == i
  {
    var p;
    m, p := NewsAt(cfg, s, tr, t, i);
    MailedBySend(cfg, tr.states[m], tr.steps[m], email, code, p);
  }

  /** What one step back a thread about to mail was doing. */
  lemma OneBack(cfg: Config, s: State, st: Step, email: string, tid: nat)
    requires Enabled(cfg, s, st) && AboutToMail(Apply(cfg, s, st), email, tid)
    ensures AboutToMail(s, email, tid)
      || (st == Go(tid, Plain) && s.threads[tid] == EmailExists(email) && email !in s.cache
          && Apply(cfg, s, st).cache == s.cache)
  {
    if st.Go? && st.tid == tid {
      BackGo(cfg, s, s.threads[tid], st.choice, email);
      assert Apply(cfg, s, st).threads[tid] == Act(cfg, s, s.threads[tid], st.choice).1;
    }
  }

  lemma BackGo(cfg: Config, s: State, t: Thread, ch: Choice, email: string)
    requires CanGo(cfg, s, t, ch)
    ensures var r := Act(cfg, s, t, ch);
      && (ToMail(r.1, email) ==>
            && r.0.cache == s.cache
            && (ToMail(t, email) || (t == EmailExists(email) && ch == Plain && email !in s.cache)))
      && (r.1 == EmailExists(email) ==>
            && t == EmailLookup(email) && r.0.users == s.users
            && (ch == Miss || (ch == Plain && FindUser(s.users, email).None?)))
  {
  }

  /** Where the thread found no code. */
  lemma {:induction false} ExistsBefore(cfg: Config, s: State, tr: Trail, t: State, email: string, tid: nat, m: nat)
      returns (p: nat)
    requires IsStart(cfg, s) && IsTrail(cfg, s, tr, t) && m < |tr.states| && AboutToMail(tr.states[m], email, tid)
    ensures p < m && FoundNone(tr, p, email, tid) && email !in tr.states[p + 1].cache
    ensures forall k :: p < k <= m ==> AboutToMail(tr.states[k], email, tid)
  {
    var u, st := tr.states[m - 1], tr.steps[m - 1];
    assert tr.states[m] == Apply(cfg, u, st);
    OneBack(cfg, u, st, email, tid);
    if AboutToMail(u, email, tid) {
      p := ExistsBefore(cfg, s, tr, t, email, tid, m - 1);
    } else {
      p := m - 1;
    }
  }

  ghost predicate FoundNone(tr: Trail, p: int, email: string, tid: nat)
    requires |tr.states| == |tr.steps| + 1 && 0 <= p < |tr.steps|
  {
    && tr.steps[p] == Go(tid, Plain) && tid in tr.states[p].threads
    && tr.states[p].threads[tid] == EmailExists(email) && email !in tr.states[p].cache
  }

  ghost predicate SavesAt(tr: Trail, n: int, email: string)
    requires |tr.states| == |tr.steps| + 1 && 0 <= n < |tr.steps|
  {
    && tr.steps[n].Go? && tr.steps[n].choice.Plain? && tr.steps[n].tid in tr.states[n].threads
    && tr.states[n].threads[tr.steps[n].tid].EmailSave? && tr.states[n].threads[tr.steps[n].tid].email == email
  }

  /** Where a code that has become live was last saved. */
  lemma {:induction false} LastSave(cfg: Config, s: State, tr: Trail, t: State, email: string, p: nat, m: nat)
      returns (n: nat)
    requires IsTrail(cfg, s, tr, t) && p < m < |tr.states|
    requires email !in tr.states[p].cache && email in tr.states[m].cache
    ensures p <= n < m && SavesAt(tr, n, email) && forall k :: n < k <= m ==> email in tr.states[k].cache
    decreases m
  {
    var u, st := tr.states[m - 1], tr.steps[m - 1];
    assert tr.states[m] == Apply(cfg, u, st);
    if email in u.cache {
      n := LastSave(cfg, s, tr, t, email, p, m - 1);
    } else {
      n := m - 1;
      CacheGrows(cfg, u, u.threads[st.tid], st.choice, email);
    }
  }

  /** Another thread saved a code for the address after the one that mails in step m found none, and
      that code, or one saved later, has been live since. */
  ghost predicate SavedSinceLook(tr: Trail, m: int, email: string)
    requires |tr.states| == |tr.steps| + 1 && 0 <= m < |tr.steps| && tr.steps[m].Go?
  {
    exists p, n :: 0 <= p < n < m && SavedBetween(tr, p, n, m, email)
  }

  ghost predicate SavedBetween(tr: Trail, p: int, n: int, m: int, email: string)
    requires |tr.states| == |tr.steps| + 1 && 0 <= p < n < m < |tr.steps| && tr.steps[m].Go?
  {
    && FoundNone(tr, p, email, tr.steps[m].tid)
    && SavesAt(tr, n, email) && tr.steps[n].tid != tr.steps[m].tid
    && forall k :: n < k <= m ==> email in tr.states[k].cache
  }

  /** Each mail of every run was sent while a code for the address was live if and only if another
      thread saved that code after the sender had found none. */
  lemma MailedWhileLiveIff(cfg: Config, s: State, tr: Trail, t: State, email: string, code: string, i: nat)
      returns (m: nat)
    requires IsStart(cfg, s) && IsTrail(cfg, s, tr, t) && i < |t.log| && t.log[i] == Mailed(email, code)
    ensures m < |tr.steps| && Sends(tr, m, email, code) && |tr.states[m].log| == i
    ensures email in tr.states[m].cache <==> SavedSinceLook(tr, m, email)
  {
    m := SendOf(cfg, s, tr, t, email, code, i);
    if email in tr.states[m].cache {
      var tid := tr.steps[m].tid;
      var p := ExistsBefore(cfg, s, tr, t, email, tid, m);
      var n := LastSave(cfg, s, tr, t, email, p + 1, m);
      assert AboutToMail(tr.states[n], email, tid);
      assert SavedBetween(tr, p, n, m, email);
    }
  }

  // ---------------------------------------------------------------- mail to a registered address

  ghost predicate Known(s: State, email: string) {
    FindUser(s.users, email).Some?
  }

  /** Where the thread looked for a user. */
  lemma {:induction false} LookupBefore(cfg: Config, s: State, tr: Trail, t: State, email: string, tid: nat, p: nat)
      returns (q: nat)
    requires IsStart(cfg, s) && IsTrail(cfg, s, tr, t) && p < |tr.states|
    requires tid in tr.states[p].threads && tr.states[p].threads[tid] == EmailExists(email)
    ensures q < p && LookedAt(tr, q, email, tid)
    ensures tr.states[q + 1].users == tr.states[q].users && (Known(tr.states[q], email) ==> tr.steps[q].choice == Miss)
  {
    var u, st := tr.states[p - 1], tr.steps[p - 1];
    assert tr.states[p] == Apply(cfg, u, st);
    if st.Go? && st.tid == tid {
      BackGo(cfg, u, u.threads[tid], st.choice, email);
      q := p - 1;
    } else {
      q := LookupBefore(cfg, s, tr, t, email, tid, p - 1);
    }
  }

  ghost predicate LookedAt(tr: Trail, q: int, email: string, tid: nat)
    requires |tr.states| == |tr.steps| + 1 && 0 <= q < |tr.steps|
  {
    && tr.steps[q].Go? && tr.steps[q].tid == tid && tid in tr.states[q].threads
    && tr.states[q].threads[tid] == EmailLookup(email)
  }

  ghost predicate CreatesAt(tr: Trail, n: int, email: string)
    requires |tr.states| == |tr.steps| + 1 && 0 <= n < |tr.steps|
  {
    && tr.steps[n].Go? && tr.steps[n].choice.Id? && tr.steps[n].tid in tr.states[n].threads
    && var t := tr.states[n].threads[tr.steps[n].tid]; t.RegCreate? && EmailOf(PayloadOf(t.tk)) == email
  }

  /** An address becomes known by the creation of its account, and by nothing else. */
  lemma KnownStep(cfg: Config, s: State, st: Step, email: string)
    requires Enabled(cfg, s, st)
    ensures Known(Apply(cfg, s, st), email) <==>
      || Known(s, email)
      || (st.Go? && st.choice.Id? && s.threads[st.tid].RegCreate? && EmailOf(PayloadOf(s.threads[st.tid].tk)) == email)
  {
    var t := Apply(cfg, s, st);
    RoundTrip.UsersStay(cfg, s, st);
    assert Known(s, email) ==> exists id :: id in t.users && t.users[id].email == email;
    if st.Go? && st.choice.Id? {
      assert t.users[st.choice.id].email == EmailOf(PayloadOf(s.threads[st.tid].tk));
    } else if st.Go? {
      UsersSame(cfg, s, s.threads[st.tid], st.choice);
    }
  }

  lemma UsersSame(cfg: Config, s: State, t: Thread, ch: Choice)
    requires CanGo(cfg, s, t, ch) && !ch.Id?
    ensures Act(cfg, s, t, ch).0.users == s.users
  {
  }

  /** Between two points of a run an address becomes known exactly if its account is created there. */
  lemma {:induction false} KnownBetween(cfg: Config, s: State, tr: Trail, t: State, email: string, q: nat, m: nat)
    requires IsTrail(cfg, s, tr, t) && q <= m < |tr.states|
    ensures Known(tr.states[m], email) <==>
      Known(tr.states[q], email) || exists n :: q <= n < m && CreatesAt(tr, n, email)
    decreases m
  {
    if q < m {
      var u, st := tr.states[m - 1], tr.steps[m - 1];
      assert tr.states[m] == Apply(cfg, u, st);
      KnownBetween(cfg, s, tr, t, email, q, m - 1);
      KnownStep(cfg, u, st, email);
      assert CreatesAt(tr, m - 1, email) <==>
        st.Go? && st.choice.Id? && u.threads[st.tid].RegCreate? && EmailOf(PayloadOf(u.threads[st.tid].tk)) == email;
    }
  }

  /** The lookup of the thread that mails in step m missed a user who was there, or the account was
      created after that lookup. */
  ghost predicate LookedPast(tr: Trail, m: int, email: string)
    requires |tr.states| == |tr.steps| + 1 && 0 <= m < |tr.steps| && tr.steps[m].Go?
  {
    exists q :: 0 <= q < m && LookedAt(tr, q, email, tr.steps[m].tid) && PastUser(tr, q, m, email)
  }

  ghost predicate PastUser(tr: Trail, q: int, m: int, email: string)
    requires |tr.states| == |tr.steps| + 1 && 0 <= q < m < |tr.steps|
  {
    if Known(tr.states[q], email) then tr.steps[q].Go? && tr.steps[q].choice == Miss
    else exists n :: q < n < m && CreatesAt(tr, n, email)
  }

  /** Each mail of every run went to an address with an account if and only if the lookup of its sender
      missed a user who was there, or the account was created after that lookup. */
  lemma MailedToUserIff(cfg: Config, s: State, tr: Trail, t: State, email: string, code: string, i: nat)
      returns (m: nat)
    requires IsStart(cfg, s) && IsTrail(cfg, s, tr, t) && i < |t.log| && t.log[i] == Mailed(email, code)
    ensures m < |tr.steps| && Sends(tr, m, email, code) && |tr.states[m].log| == i
    ensures Known(tr.states[m], email) <==> LookedPast(tr, m, email)
  {
    m := SendOf(cfg, s, tr, t, email, code, i);
    var tid := tr.steps[m].tid;
    if Known(tr.states[m], email) {
      var p := ExistsBefore(cfg, s, tr, t, email, tid, m);
      var q := LookupBefore(cfg, s, tr, t, email, tid, p);
      KnownBetween(cfg, s, tr, t, email, q + 1, m);
      assert PastUser(tr, q, m, email);
    }
    if LookedPast(tr, m, email) {
      var q :| 0 <= q < m && LookedAt(tr, q, email, tid) && PastUser(tr, q, m, email);
      KnownBetween(cfg, s, tr, t, email, q, m);
    }
  }

  /** A run in which a lookup misses a user, and a code is mailed to that user's address. */
  lemma UserIsMailed(cfg: Config, s: State, email: string, code: string) returns (tr: Trail, t: State)
    requires IsStart(cfg, s) && EmailShape(cfg.rules, email) && Known(s, email) && IsCode(code, cfg.codeLen)
    ensures IsTrail(cfg, s, tr, t) && t.log == [Mailed(email, code)] && Known(t, email)
  {
    tr, t := Spawned(cfg, s, 0, VerifyEmail(email), EmailLookup(email));
    tr, t := LookedUp(cfg, s, tr, t, 0, email, Misses);
    tr, t := AskedExists(cfg, s, tr, t, 0, email, false);
    tr, t := Drew(cfg, s, tr, t, 0, email, Some(code));
    tr, t := Sent(cfg, s, tr, t, 0, email, code, false);
    assert t.log == [] + [Mailed(email, code)];
  }

  // ---------------------------------------------------------------- runs

  /** A request to verify an address that finds no code, up to drawing its own. */
  lemma FindsNone(cfg: Config, s0: State, tr: Trail, s: State, tid: nat, email: string) returns (more: Trail, t: State)
    requires IsTrail(cfg, s0, tr, s) && tid !in s.threads
    requires EmailShape(cfg.rules, email) && FindUser(s.users, email).None? && email !in s.cache
    ensures IsTrail(cfg, s0, more, t) && t == At(s, s, tid, EmailCode(email))
  {
    more, t := Asks(cfg, s0, tr, s, tid, email);
    more, t := Extended(cfg, s0, more, t, Go(tid, Plain));
    assert t.threads == s.threads[tid := EmailCode(email)];
  }

  lemma Asks(cfg: Config, s0: State, tr: Trail, s: State, tid: nat, email: string) returns (more: Trail, t: State)
    requires IsTrail(cfg, s0, tr, s) && tid !in s.threads
    requires EmailShape(cfg.rules, email) && FindUser(s.users, email).None?
    ensures IsTrail(cfg, s0, more, t) && t == At(s, s, tid, EmailExists(email))
  {
    more, t := Extended(cfg, s0, tr, s, Spawn(tid, VerifyEmail(email)));
    assert t == At(s, s, tid, EmailLookup(email));
    more, t := Extended(cfg, s0, more, t, Go(tid, Plain));
    assert t.threads == s.threads[tid := EmailExists(email)];
  }

  /** Two requests to verify one address both find no code: one code is mailed and live, and then
      the other is mailed. */
  lemma MailedWhileLive(cfg: Config, s: State, email: string, first: string, second: string)
      returns (tr: Trail, t: State)
    requires IsStart(cfg, s) && EmailShape(cfg.rules, email) && FindUser(s.users, email).None?
    requires IsCode(first, cfg.codeLen) && IsCode(second, cfg.codeLen)
    ensures IsTrail(cfg, s, tr, t)
    ensures t.log == [Mailed(email, first)] + [Saved(email, first)] + [Mailed(email, second)]
    ensures t.cache == map[email := first]
  {
    tr, t := FindsNone(cfg, s, Trail([s], []), s, 0, email);
    tr, t := FindsNone(cfg, s, tr, t, 1, email);
    tr, t := Mails(cfg, s, tr, t, 0, email, first);
    tr, t := Extended(cfg, s, tr, t, Go(0, Plain));
    assert t.log == [] + [Mailed(email, first)] + [] + [Saved(email, first)];
    tr, t := Mails(cfg, s, tr, t, 1, email, second);
  }
}
