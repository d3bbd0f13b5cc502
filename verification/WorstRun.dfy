/** Runs of the keystore that use up every tolerance: they show that the bounds of the lifetime
    theorems and of the store's size cannot be relaxed. */
module WorstRun {
  import opened Prelude
  import opened KeyRing
  import opened Schedule

  /** A run segment on schedule. */
  ghost predicate Path(life: nat, gap: nat, lag: Option<nat>, s: State, steps: seq<Step>, t: State) {
    Leads(life, s, steps, t) && Scheduled(life, gap, lag, s, steps)
  }

  lemma {:induction false} PathConcat(life: nat, gap: nat, lag: Option<nat>,
                                      s: State, a: seq<Step>, t: State, b: seq<Step>, u: State)
    requires Path(life, gap, lag, s, a, t) && Path(life, gap, lag, t, b, u)
    ensures Path(life, gap, lag, s, a + b, u)
    decreases |a|
  {
    if a == [] {
      assert a + b == b;
    } else {
      PathConcat(life, gap, lag, Apply(life, s, a[0]), a[1..], t, b, u);
      assert (a + b)[1..] == a[1..] + b;
    }
  }

  lemma PathStep(life: nat, gap: nat, lag: Option<nat>, s: State, st: Step) returns (t: State)
    requires Enabled(s, st) && OnSchedule(life, gap, lag, s) && OnSchedule(life, gap, lag, Apply(life, s, st))
    ensures t == Apply(life, s, st) && Path(life, gap, lag, s, [st], t)
  {
    t := Apply(life, s, st);
    assert Leads(life, t, [], t) && Scheduled(life, gap, lag, t, []);
  }

  /** Where no time passes and `active` is not set, the schedule is kept. */
  lemma {:induction false} QuietPath(life: nat, gap: nat, lag: Option<nat>, s: State, steps: seq<Step>, t: State)
    requires Leads(life, s, steps, t) && OnSchedule(life, gap, lag, s)
    requires forall st :: st in steps ==> st.Visit? || st.Delete? || st.Finish?
    ensures Path(life, gap, lag, s, steps, t)
    decreases |steps|
  {
    if steps != [] {
      assert steps[0] in steps;
      QuietPath(life, gap, lag, Apply(life, s, steps[0]), steps[1..], t);
    }
  }

  /** A rotation whose key has been stored, completed in no time. */
  lemma FinishNow(life: nat, gap: nat, lag: Option<nat>, s: State) returns (steps: seq<Step>, t: State)
    requires Inv(life, s) && s.phase.Stored? && OnSchedule(life, gap, lag, s)
    requires lag.Some? ==> s.now <= MintedAt(life, s, s.phase.id) + lag.value
    ensures Path(life, gap, lag, s, steps, t) && t.phase.Idle?
    ensures t.now == t.swept == t.changed == s.now && t.revoked == s.revoked
    ensures t.active == s.phase.id && t.minted == s.minted
    ensures forall st :: st in steps ==> !st.Stamp?
  {
    var s1 := PathStep(life, gap, lag, s, Adopt);
    InvStep(life, s, Adopt);
    var s2 := PathStep(life, gap, lag, s1, Range);
    InvStep(life, s1, Range);
    var rest;
    rest, t := FinishSweep(life, s2);
    QuietPath(life, gap, lag, s2, rest, t);
    PathConcat(life, gap, lag, s, [Adopt], s1, [Range], s2);
    PathConcat(life, gap, lag, s, [Adopt] + [Range], s2, rest, t);
    steps := [Adopt] + [Range] + rest;
  }

  /** A new key computed and stored. */
  lemma StoreNow(life: nat, gap: nat, lag: Option<nat>, s: State) returns (id: Kid, t: State)
    requires Inv(life, s) && s.phase.Idle? && OnSchedule(life, gap, lag, s)
    ensures id !in s.minted && Path(life, gap, lag, s, [Stamp(id, id)] + [Store], t)
    ensures Inv(life, t) && t.phase == Stored(id) && t.minted == s.minted[id := Key(s.now + life, id)]
    ensures t.store == s.store[id := Key(s.now + life, id)]
    ensures t.now == s.now && t.changed == s.changed && t.revoked == s.revoked && t.active == s.active
  {
    id := Unused(s.minted.Keys);
    InvStep(life, s, Stamp(id, id));
    var s1 := PathStep(life, gap, lag, s, Stamp(id, id));
    InvStep(life, s1, Store);
    t := PathStep(life, gap, lag, s1, Store);
    PathConcat(life, gap, lag, s, [Stamp(id, id)], s1, [Store], t);
  }

  /** One whole rotation in no time. */
  lemma RotateNow(life: nat, gap: nat, lag: Option<nat>, s: State) returns (steps: seq<Step>, t: State, id: Kid)
    requires Inv(life, s) && s.phase.Idle? && OnSchedule(life, gap, lag, s)
    ensures Path(life, gap, lag, s, steps, t) && t.phase.Idle?
    ensures t.now == t.swept == t.changed == s.now && t.revoked == s.revoked
    ensures id !in s.minted && t.active == id && t.minted == s.minted[id := Key(s.now + life, id)]
    ensures |steps| > 0 && steps[0].Stamp? && forall st :: st in steps[1..] ==> !st.Stamp?
  {
    var u, rest;
    id, u := StoreNow(life, gap, lag, s);
    rest, t := FinishNow(life, gap, lag, u);
    PathConcat(life, gap, lag, s, [Stamp(id, id)] + [Store], u, rest, t);
    steps := [Stamp(id, id)] + [Store] + rest;
  }

  /** Rotating every `gap` keeps the schedule until any later instant. */
  lemma {:induction false} RotateUntil(life: nat, gap: nat, lag: Option<nat>, s: State, target: Time)
      returns (steps: seq<Step>, t: State)
    requires Inv(life, s) && s.phase.Idle? && 1 <= gap && s.now <= target
    requires s.swept == s.changed == s.now && s.active in s.minted && MintedAt(life, s, s.active) == s.now
    ensures Path(life, gap, lag, s, steps, t) && t.phase.Idle?
    ensures t.now == t.swept == target && t.revoked == s.revoked
    decreases target - s.now
  {
    if s.now == target {
      steps, t := [], s;
    } else {
      var d: nat := if target - s.now < gap then target - s.now else gap;
      var u := PathStep(life, gap, lag, s, Tick(d));
      InvStep(life, s, Tick(d));
      var turn, v, _ := RotateNow(life, gap, lag, u);
      InvRun(life, u, turn, v);
      var rest;
      rest, t := RotateUntil(life, gap, lag, v, target);
      PathConcat(life, gap, lag, s, [Tick(d)], u, turn, v);
      PathConcat(life, gap, lag, s, [Tick(d)] + turn, v, rest, t);
      steps := [Tick(d)] + turn + rest;
    }
  }

  /** How late the worst run sets `active`: later than the expiration period would be too late for
      the key to survive its own pass. */
  function WorstLate(life: nat, gap: nat, lag: Option<nat>): nat {
    if Late(gap, lag) < life then Late(gap, lag) else life
  }

  /** A run from the start in which the new key is stored `late` after its expiry was computed, at
      the last moment for it to become active. */
  lemma LateKey(life: nat, gap: nat, lag: Option<nat>, start: Time, late: nat)
      returns (init: State, steps: seq<Step>, t: State)
    requires 1 <= gap && late <= Late(gap, lag)
    ensures OnTime(life, gap, lag, init, steps, t) && OnSchedule(life, gap, lag, t) && Inv(life, t)
    ensures t.phase.Stored? && t.phase.id in t.minted && MintedAt(life, t, t.phase.id) == start
    ensures t.now == start + late && t.revoked == {}
  {
    init := Initial(life, 0, 0, start - (gap - late));
    InvInitial(life, init);
    var s1 := PathStep(life, gap, lag, init, Tick(gap - late));
    InvStep(life, init, Tick(gap - late));
    var id, s2 := StoreNow(life, gap, lag, s1);
    t := PathStep(life, gap, lag, s2, Tick(late));
    InvStep(life, s2, Tick(late));
    var add := [Stamp(id, id)] + [Store];
    PathConcat(life, gap, lag, init, [Tick(gap - late)], s1, add, s2);
    PathConcat(life, gap, lag, init, [Tick(gap - late)] + add, s2, [Tick(late)], t);
    steps := [Tick(gap - late)] + add + [Tick(late)];
  }

  /** A run on schedule in which a key becomes active as late as possible after its expiry was
      computed, and stays so for as long as possible. */
  lemma OldKey(life: nat, gap: nat, lag: Option<nat>, start: Time) returns (init: State, steps: seq<Step>, a: State)
    requires 1 <= gap
    ensures OnTime(life, gap, lag, init, steps, a) && a.phase.Idle? && a.revoked == {}
    ensures a.now == start + gap + WorstLate(life, gap, lag) && a.changed == a.now - gap
    ensures a.active in a.minted && a.active in a.store && a.store[a.active] == a.minted[a.active]
    ensures MintedAt(life, a, a.active) == start
  {
    var front, s, rest, t;
    init, front, s := LateKey(life, gap, lag, start, WorstLate(life, gap, lag));
    rest, t := FinishNow(life, gap, lag, s);
    InvRun(life, s, rest, t);
    assert t.active in t.store;
    a := PathStep(life, gap, lag, t, Tick(gap));
    PathConcat(life, gap, lag, init, front, s, rest, t);
    PathConcat(life, gap, lag, init, front + rest, t, [Tick(gap)], a);
    steps := front + rest + [Tick(gap)];
  }

  /** For every schedule there is a run, with no revocation at all, in which a key is still active at
      the greatest age at which it can be in the store (state a) and is gone as soon as it may go
      (state b). */
  lemma KeyGoesAtOnce(life: nat, gap: nat, lag: Option<nat>, start: Time)
    returns (init: State, before: seq<Step>, a: State, after: seq<Step>, b: State)
    requires 1 <= gap
    ensures OnTime(life, gap, lag, init, before, a) && Path(life, gap, lag, a, after, b)
    ensures a.now == start + gap + WorstLate(life, gap, lag)
    ensures b.now == if a.now < start + life + 1 then start + life + 1 else a.now
    ensures a.active in a.minted && a.active in a.store && a.store[a.active] == a.minted[a.active]
    ensures MintedAt(life, a, a.active) == start
    ensures a.active !in b.store && b.revoked == {}
  {
    init, before, a := OldKey(life, gap, lag, start);
    OnTimeIsFresh(life, gap, lag, init, before, a);
    ReachableInv(life, a);
    EndsOnSchedule(life, gap, lag, init, before, a);
    var turn, c, _ := RotateNow(life, gap, lag, a);
    InvRun(life, a, turn, c);
    var rest;
    rest, b := RotateUntil(life, gap, lag, c, if a.now < start + life + 1 then start + life + 1 else a.now);
    PathConcat(life, gap, lag, a, turn, c, rest, b);
    after := turn + rest;
    InvRun(life, c, rest, b);
    HistoryGrows(life, a, after, b);
    assert PassedLastSweep(life, b);
  }

  lemma {:induction false} EndsOnSchedule(life: nat, gap: nat, lag: Option<nat>, s: State, steps: seq<Step>, t: State)
    requires Path(life, gap, lag, s, steps, t)
    ensures OnSchedule(life, gap, lag, t)
    decreases |steps|
  {
    if steps != [] {
      EndsOnSchedule(life, gap, lag, Apply(life, s, steps[0]), steps[1..], t);
    }
  }

  /** In every run on schedule without revocations, a reader that loads the key within `delay` of
      reading `active` finds it. */
  ghost predicate ReadersServed(life: nat, gap: nat, lag: Option<nat>, delay: nat) {
    forall init, before, s, steps, t ::
      OnTime(life, gap, lag, init, before, s) && Path(life, gap, lag, s, steps, t)
      && t.revoked == {} && t.now <= s.now + delay
      ==> s.active in t.store
  }

  /** The expiration period must cover the greatest age of the active key and the slowest reader,
      and that is enough: `2 * gap + delay` where only the gap between changes is bounded, and
      `gap + lag + delay` where the lag is bounded too and below the gap. */
  lemma ReadersServedIff(life: nat, gap: nat, lag: Option<nat>, delay: nat)
    requires 1 <= gap
    ensures ReadersServed(life, gap, lag, delay) <==> Age(gap, lag) + delay <= life
    ensures ReadersServed(life, gap, None, delay) <==> 2 * gap + delay <= life
  {
    ReadersServedExactly(life, gap, lag, delay);
    ReadersServedExactly(life, gap, None, delay);
  }

  lemma ReadersServedExactly(life: nat, gap: nat, lag: Option<nat>, delay: nat)
    requires 1 <= gap
    ensures ReadersServed(life, gap, lag, delay) <==> Age(gap, lag) + delay <= life
  {
    if Age(gap, lag) + delay <= life {
      forall init, before, s, steps, t |
        OnTime(life, gap, lag, init, before, s) && Path(life, gap, lag, s, steps, t)
        && t.revoked == {} && t.now <= s.now + delay
        ensures s.active in t.store
      {
        ReaderFindsKey(life, gap, lag, delay, init, before, s, steps, t);
      }
    } else {
      var init, before, a, after, b := KeyGoesAtOnce(life, gap, lag, 0);
      assert b.now <= a.now + delay;
      assert !ReadersServed(life, gap, lag, delay);
    }
  }

  /** A bound on the gap between changes alone does not do for the age: with keys kept for 48 and
      changed every 24 at most, a reader only 1 slow can lose its key without any revocation. */
  lemma GapAloneFallsShort() returns (init: State, before: seq<Step>, a: State, after: seq<Step>, b: State)
    ensures OnTime(48, 24, None, init, before, a) && Path(48, 24, None, a, after, b)
    ensures b.revoked == {} && b.now == a.now + 1 && a.active in a.store && a.active !in b.store
  {
    init, before, a, after, b := KeyGoesAtOnce(48, 24, None, 0);
  }

  // ---------------------------------------------------------------- a full store

  lemma {:induction false} SpacedConcat(life: nat, gap: int, s: State, a: seq<Step>, t: State, b: seq<Step>)
    requires Leads(life, s, a, t) && Spaced(life, gap, s, a) && Spaced(life, gap, t, b)
    ensures Spaced(life, gap, s, a + b)
    decreases |a|
  {
    if a == [] {
      assert a + b == b;
    } else {
      SpacedConcat(life, gap, Apply(life, s, a[0]), a[1..], t, b);
      assert (a + b)[1..] == a[1..] + b;
    }
  }

  lemma {:induction false} NoStampSpaced(life: nat, gap: int, s: State, steps: seq<Step>, t: State)
    requires Leads(life, s, steps, t) && forall st :: st in steps ==> !st.Stamp?
    ensures Spaced(life, gap, s, steps)
    decreases |steps|
  {
    if steps != [] {
      assert steps[0] in steps;
      NoStampSpaced(life, gap, Apply(life, s, steps[0]), steps[1..], t);
    }
  }

  /** n keys, all computed by now and none before the origin of time. */
  ghost predicate Packed(life: nat, n: nat, s: State) {
    && Inv(life, s) && s.phase.Idle? && s.revoked == {} && s.changed == s.now && |s.minted| == n
    && forall k :: k in s.minted ==> 0 <= MintedAt(life, s, k) <= s.now
  }

  /** While nothing has expired everything minted is stored. */
  lemma AllStored(life: nat, n: nat, s: State)
    requires Packed(life, n, s) && s.now <= life
    ensures s.store.Keys == s.minted.Keys && |s.store| == n
  {
    assert |s.store.Keys| == |s.store| && |s.minted.Keys| == |s.minted|;
  }

  /** One more rotation, `gap` later. */
  lemma PackOne(life: nat, gap: nat, n: nat, s: State) returns (steps: seq<Step>, t: State)
    requires Packed(life, n, s)
    ensures Leads(life, s, steps, t) && Spaced(life, gap, s, steps)
    ensures Packed(life, n + 1, t) && t.now == s.now + gap
  {
    var u := Apply(life, s, Tick(gap));
    InvStep(life, s, Tick(gap));
    var turn, id;
    turn, t, id := RotateNow(life, gap, None, u);
    InvRun(life, u, turn, t);
    steps := [Tick(gap)] + turn;
    assert steps[1..] == turn;
    NoStampSpaced(life, gap, Apply(life, u, turn[0]), turn[1..], t);
    assert t.minted.Keys == s.minted.Keys + {id};
  }

  /** n more rotations, `gap` apart. */
  lemma {:induction false} Pack(life: nat, gap: nat, n: nat) returns (init: State, steps: seq<Step>, t: State)
    ensures IsInitial(life, init) && Leads(life, init, steps, t) && Spaced(life, gap, init, steps)
    ensures Packed(life, n + 1, t) && t.now == n * gap
  {
    if n == 0 {
      init := Initial(life, 0, 0, 0);
      InvInitial(life, init);
      steps, t := [], init;
    } else {
      var front, s;
      init, front, s := Pack(life, gap, n - 1);
      var turn;
      turn, t := PackOne(life, gap, n, s);
      LeadsConcat(life, init, front, s, turn, t);
      SpacedConcat(life, gap, init, front, s, turn);
      steps := front + turn;
      NextMultiple(n, gap);
    }
  }

  lemma NextMultiple(n: nat, gap: nat)
    requires 1 <= n
    ensures (n - 1) * gap + gap == n * gap
  {
  }

  lemma WholeGaps(life: nat, gap: nat)
    requires 1 <= gap
    ensures life / gap * gap <= life
  {
    assert life == gap * (life / gap) + life % gap;
  }

  /** Both bounds of StoreStaysSmall are reached, for every expiration period and every gap. */
  lemma StoreFillsUp(life: nat, gap: nat)
    returns (init: State, steps: seq<Step>, t: State, more: seq<Step>, u: State)
    requires 1 <= gap
    ensures IsInitial(life, init) && Leads(life, init, steps, t) && Spaced(life, gap, init, steps)
    ensures Leads(life, t, more, u) && Spaced(life, gap, t, more)
    ensures t.phase.Idle? && |t.store| == life / gap + 1
    ensures u.phase.Stored? && |u.store| == life / gap + 2
  {
    var n: nat := life / gap;
    WholeGaps(life, gap);
    init, steps, t := Pack(life, gap, n);
    AllStored(life, n + 1, t);
    more, u := OneInTheMiddle(life, gap, n + 1, t);
  }

  /** The next key stored, before the pass that may make room for it. */
  lemma OneInTheMiddle(life: nat, gap: nat, n: nat, s: State) returns (steps: seq<Step>, t: State)
    requires Packed(life, n, s)
    ensures Leads(life, s, steps, t) && Spaced(life, gap, s, steps)
    ensures t.phase.Stored? && |t.store| == |s.store| + 1
  {
    var u := Apply(life, s, Tick(gap));
    InvStep(life, s, Tick(gap));
    var id;
    id, t := StoreNow(life, gap, None, u);
    NextSpaced(life, gap, n, s, id);
    var add := [Stamp(id, id)] + [Store];
    steps := [Tick(gap)] + add;
    assert steps[1..] == add;
    assert t.store.Keys == s.store.Keys + {id} && id !in s.store;
    assert |t.store.Keys| == |s.store.Keys| + 1;
  }

  lemma NextSpaced(life: nat, gap: nat, n: nat, s: State, id: Kid)
    requires Packed(life, n, s) && id !in s.minted
    ensures Spaced(life, gap, Apply(life, s, Tick(gap)), [Stamp(id, id)] + [Store])
  {
    var add := [Stamp(id, id)] + [Store];
    assert add[1..] == [Store];
  }
}
