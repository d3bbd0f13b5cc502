/**
  How often the active key changes, and what follows for readers.

  A schedule bounds the time between consecutive changes of the active key by `gap`. It may also
  bound, by `lag`, the time a rotation takes from computing an expiry to setting `active`.
*/
module Schedule {
  import opened Prelude
  import opened KeyRing

  /** `active` was last set at most `gap` ago and, if a lag is given, at most that long after the
      expiry of its key was computed. */
  ghost predicate OnSchedule(life: nat, gap: nat, lag: Option<nat>, s: State) {
    && s.now <= s.changed + gap
    && (lag.Some? ==> s.active in s.minted && s.changed <= MintedAt(life, s, s.active) + lag.value)
  }

  /** Every state on the way is on schedule, so consecutive changes are at most `gap` apart. */
  ghost predicate Scheduled(life: nat, gap: nat, lag: Option<nat>, s: State, steps: seq<Step>)
    decreases |steps|
  {
    && OnSchedule(life, gap, lag, s)
    && (steps != [] ==>
      Enabled(s, steps[0]) && Scheduled(life, gap, lag, Apply(life, s, steps[0]), steps[1..]))
  }

  /** How late `active` may be set: a rotation begins after the change before it, so never more
      than `gap` after its expiry was computed. */
  function Late(gap: nat, lag: Option<nat>): nat {
    if lag.Some? && lag.value < gap then lag.value else gap
  }

  /** How old the active key may get. */
  function Age(gap: nat, lag: Option<nat>): nat {
    gap + Late(gap, lag)
  }

  /** The key about to become active had its expiry computed after the last change. */
  ghost predicate InTurn(life: nat, gap: nat, s: State) {
    && s.active in s.minted && s.changed <= MintedAt(life, s, s.active) + gap
    && (s.phase.Stamped? ==> s.changed <= s.phase.key.expire - life)
    && (s.phase.Stored? ==> s.phase.id in s.minted && s.changed <= MintedAt(life, s, s.phase.id))
    && s.changed <= s.now
  }

  lemma InTurnStep(life: nat, gap: nat, s: State, st: Step)
    requires Inv(life, s) && Enabled(s, st) && InTurn(life, gap, s) && s.now <= s.changed + gap
    ensures InTurn(life, gap, Apply(life, s, st))
  {
  }

  /** On schedule the active key never gets older than Age: `gap + lag`, and `2 * gap` with nothing
      assumed about the lag. */
  lemma {:induction false} ScheduledIsFresh(life: nat, gap: nat, lag: Option<nat>, s: State, steps: seq<Step>, t: State)
    requires Inv(life, s) && InTurn(life, gap, s)
    requires Leads(life, s, steps, t) && Scheduled(life, gap, lag, s, steps)
    ensures InTurn(life, gap, t) && Fresh(life, Age(gap, lag), t)
    decreases |steps|
  {
    if steps != [] {
      InvStep(life, s, steps[0]);
      InTurnStep(life, gap, s, steps[0]);
      ScheduledIsFresh(life, gap, lag, Apply(life, s, steps[0]), steps[1..], t);
    }
  }

  /** The first key became active within `gap` of computing its expiry: no change precedes it. */
  ghost predicate StartsInTime(life: nat, gap: nat, s: State) {
    s.active in s.minted && s.changed <= MintedAt(life, s, s.active) + gap
  }

  /** A run from the start, on schedule up to state t. */
  ghost predicate OnTime(life: nat, gap: nat, lag: Option<nat>, init: State, steps: seq<Step>, t: State) {
    && IsInitial(life, init) && StartsInTime(life, gap, init)
    && Leads(life, init, steps, t) && Scheduled(life, gap, lag, init, steps)
  }

  lemma OnTimeIsFresh(life: nat, gap: nat, lag: Option<nat>, init: State, steps: seq<Step>, t: State)
    requires OnTime(life, gap, lag, init, steps, t)
    ensures Reachable(life, t) && Fresh(life, Age(gap, lag), t)
  {
    InvInitial(life, init);
    ScheduledIsFresh(life, gap, lag, init, steps, t);
  }

  /** After a run on schedule a handler reads `active` and loads that key later, whatever ran in
      between: it finds the key if the age and the reader's delay fit in the expiration period and
      the key it read was not revoked by hand. */
  lemma ReaderFindsKey(life: nat, gap: nat, lag: Option<nat>, delay: nat,
                       init: State, before: seq<Step>, s: State, steps: seq<Step>, t: State)
    requires OnTime(life, gap, lag, init, before, s)
    requires Leads(life, s, steps, t) && t.now <= s.now + delay
    requires Age(gap, lag) + delay <= life
    requires s.active !in t.revoked
    ensures s.active in s.minted && s.active in t.store && t.store[s.active] == s.minted[s.active]
  {
    OnTimeIsFresh(life, gap, lag, init, before, s);
    FreshReaderFindsKey(life, Age(gap, lag), delay, s, steps, t);
  }

  // ---------------------------------------------------------------- after a revocation

  /** The rotation under way, if any, makes no key of `old_` active. */
  ghost predicate Clean(old_: set<Kid>, s: State) {
    && old_ <= s.minted.Keys
    && (s.phase.Stamped? ==> s.phase.id !in s.minted)
    && (Newcomer(s).Some? ==> Newcomer(s).value !in old_)
  }

  lemma {:induction false} CleanRun(life: nat, s: State, steps: seq<Step>, t: State, old_: set<Kid>)
    requires Clean(old_, s) && Leads(life, s, steps, t)
    ensures Clean(old_, t) && (Finish in steps || s.active !in old_ ==> t.active !in old_)
    decreases |steps|
  {
    if steps != [] {
      CleanRun(life, Apply(life, s, steps[0]), steps[1..], t, old_);
    }
  }

  /** From s on, no completed rotation leaves a key active that was revoked by hand, unless it was
      revoked on the way. */
  ghost predicate Restores(life: nat, s: State) {
    forall steps, t :: Leads(life, s, steps, t) && Finish in steps && Step.Revoke(t.active) !in steps
      ==> t.active !in t.revoked
  }

  /** The pass under way can always be completed, whatever it has still to visit. */
  lemma {:induction false} FinishSweep(life: nat, s: State) returns (steps: seq<Step>, t: State)
    requires Inv(life, s) && s.phase.Sweeping?
    ensures Leads(life, s, steps, t) && t.phase.Idle? && Finish in steps
    ensures forall st :: st in steps ==> st.Visit? || st.Delete? || st.Finish?
    ensures t.now == s.now && t.swept == s.phase.begun && t.active == s.active
    ensures t.minted == s.minted && t.revoked == s.revoked && t.changed == s.changed
    decreases s.phase.todo, s.phase.doomed.Some?
  {
    if s.phase.doomed.None? && s.phase.todo == {} {
      t := Apply(life, s, Finish);
      assert Leads(life, t, [], t);
      steps := [Finish];
    } else {
      var st := Delete;
      if s.phase.doomed.None? {
        var id :| id in s.phase.todo;
        st := Visit(id);
      }
      InvStep(life, s, st);
      var rest;
      rest, t := FinishSweep(life, Apply(life, s, st));
      steps := [st] + rest;
    }
  }

  /** The rotation under way, once its key is stored, can be completed without a tick. */
  lemma FinishRotation(life: nat, s: State) returns (steps: seq<Step>, t: State)
    requires Inv(life, s) && Newcomer(s).Some?
    ensures Leads(life, s, steps, t) && Finish in steps && t.active == Newcomer(s).value && t.revoked == s.revoked
    ensures forall st :: st in steps ==> !st.Revoke?
  {
    var front, u := [], s;
    if u.phase.Stored? {
      InvStep(life, u, Adopt);
      front, u := front + [Adopt], Apply(life, u, Adopt);
    }
    if u.phase.Adopted? {
      InvStep(life, u, Range);
      front, u := front + [Range], Apply(life, u, Range);
    }
    var rest;
    rest, t := FinishSweep(life, u);
    steps := front + rest;
    assert s.phase.Adopted? ==> steps[1..] == rest;
    assert s.phase.Stored? ==> steps[1..] == [Range] + rest && ([Range] + rest)[1..] == rest;
    assert s.phase.Sweeping? ==> steps == rest;
  }

  /** After a revocation the next completed rotation restores service if and only if the rotation
      under way at the time is not the one adding the revoked key. */
  lemma RestoresIff(life: nat, s: State)
    requires Inv(life, s)
    ensures Restores(life, s) <==> Newcomer(s).None? || Newcomer(s).value !in s.revoked
  {
    if Newcomer(s).None? || Newcomer(s).value !in s.revoked {
      forall steps, t | Leads(life, s, steps, t) && Finish in steps && Step.Revoke(t.active) !in steps
        ensures t.active !in t.revoked
      {
        CleanRun(life, s, steps, t, s.revoked);
        OnlyRevokeRevokes(life, s, steps, t, t.active);
      }
    } else {
      var steps, t := FinishRotation(life, s);
      assert t.active in t.revoked;
      assert !Restores(life, s);
    }
  }

  /** In that case every reader of the key active after the rotation is served on schedule, whatever
      was revoked before. */
  lemma RotationRestoresReaders(life: nat, gap: nat, lag: Option<nat>, delay: nat, init: State, before: seq<Step>,
                                s: State, steps: seq<Step>, t: State, more: seq<Step>, u: State)
    requires OnTime(life, gap, lag, init, before, s) && OnTime(life, gap, lag, init, before + steps, t)
    requires Newcomer(s).None? || Newcomer(s).value !in s.revoked
    requires Leads(life, s, steps, t) && Finish in steps
    requires Leads(life, t, more, u) && u.now <= t.now + delay
    requires Step.Revoke(t.active) !in steps + more
    requires Age(gap, lag) + delay <= life
    ensures t.active in t.minted && t.active in u.store && u.store[t.active] == t.minted[t.active]
  {
    OnTimeIsFresh(life, gap, lag, init, before, s);
    ReachableInv(life, s);
    RestoresIff(life, s);
    assert t.active !in t.revoked;
    OnlyRevokeRevokes(life, t, more, u, t.active);
    ReaderFindsKey(life, gap, lag, delay, init, before + steps, t, more, u);
  }
}
