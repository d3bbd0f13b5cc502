/**
  The rotating keystore as a transition system.

  One step is one atomic action on the state that the rotation goroutine, the request
  handlers and callers of Revoke share. The rotation goroutine runs the sequence
  Stamp, Store, Adopt, Range, (Visit, Delete?)*, Finish; ticks of the clock, revocations
  and reads may come between any two of its steps.
*/
module KeyRing {
  import opened Prelude

  /** A key id: a fresh UUID in the program, any fresh number here. */
  type Kid = nat

  datatype Key = Key(expire: Time, signer: nat)

  /** Where the rotation goroutine stands. */
  datatype Phase =
    | Idle                                  // waiting for the ticker or the shutdown signal
    | Stamped(id: Kid, key: Key)            // key generated and its expiry computed, not stored yet
    | Stored(id: Kid)                       // in the map, not active yet
    | Adopted                               // active has been set, Range has not begun
    | Sweeping(begun: Time, todo: set<Kid>, doomed: Option<Kid>, expired: nat)
    | Ended                                 // returned, or blocked for good on the nil error channel

  /** `minted` (every key ever stored), `revoked` (keys deleted by hand), `swept` (when the last
      finished expiry pass began) and `changed` (when `active` was last set) are history: no step
      of the program reads them. */
  datatype State = State(
    now: Time,
    store: map<Kid, Key>,
    active: Kid,
    phase: Phase,
    minted: map<Kid, Key>,
    revoked: set<Kid>,
    swept: Time,
    changed: Time
  )

  datatype Step =
    | Tick(d: nat)
    | Stamp(id: Kid, signer: nat)
    | Store
    | Adopt
    | Range
    | Visit(id: Kid)
    | Delete
    | Finish
    | Revoke(id: Kid)
    | Halt

  /** A keystore whose first key was computed, stored and made active at time t. */
  function Initial(life: nat, id: Kid, signer: nat, t: Time): State {
    var m := map[id := Key(t + life, signer)];
    State(t, m, id, Idle, m, {}, t, t)
  }

  /** The state New returns: one key, stored and active, and the rotation goroutine waiting. Time
      may have passed from computing the key's expiry to setting `active`, and since then. */
  ghost predicate IsInitial(life: nat, s: State) {
    && s.active in s.store
    && var minted := s.store[s.active].expire - life;
       var first := map[s.active := s.store[s.active]];
    && minted <= s.changed <= s.now
    && s == State(s.now, first, s.active, Idle, first, {}, minted, s.changed)
  }

  predicate Enabled(s: State, st: Step) {
    match st
    case Tick(_) => true
    case Stamp(id, _) => s.phase.Idle? && id !in s.minted
    case Store => s.phase.Stamped?
    case Adopt => s.phase.Stored?
    case Range => s.phase.Adopted?
    case Visit(id) => s.phase.Sweeping? && s.phase.doomed.None? && id in s.phase.todo
    case Delete => s.phase.Sweeping? && s.phase.doomed.Some?
    case Finish => s.phase.Sweeping? && s.phase.doomed.None? && s.phase.todo == {}
    case Revoke(_) => true
    case Halt => s.phase.Idle?
  }

  /** `life` is the expiration period of the keystore. */
  function Apply(life: nat, s: State, st: Step): State
    requires Enabled(s, st)
  {
    match st
    case Tick(d) => s.(now := s.now + d)
    case Stamp(id, signer) => s.(phase := Stamped(id, Key(s.now + life, signer)))
    case Store =>
      var id, key := s.phase.id, s.phase.key;
      s.(store := s.store[id := key], minted := s.minted[id := key], phase := Stored(id))
    case Adopt => s.(active := s.phase.id, phase := Adopted, changed := s.now)
    case Range => s.(phase := Sweeping(s.now, s.store.Keys, None, 0))
    case Visit(id) =>
      var late := id in s.store && s.store[id].expire < s.now;
      s.(phase := s.phase.(todo := s.phase.todo - {id}, doomed := if late then Some(id) else None))
    case Delete =>
      s.(store := s.store - {s.phase.doomed.value},
         phase := s.phase.(doomed := None, expired := s.phase.expired + 1))
    case Finish => s.(phase := Idle, swept := s.phase.begun)
    case Revoke(id) =>
      s.(store := s.store - {id}, revoked := if id in s.store then s.revoked + {id} else s.revoked)
    case Halt => s.(phase := Ended)
  }

  /** The steps lead from s to t. */
  ghost predicate Leads(life: nat, s: State, steps: seq<Step>, t: State)
    decreases |steps|
  {
    if steps == [] then s == t
    else Enabled(s, steps[0]) && Leads(life, Apply(life, s, steps[0]), steps[1..], t)
  }

  /** When the expiry of key k was computed. */
  function MintedAt(life: nat, s: State, k: Kid): Time
    requires k in s.minted
  {
    s.minted[k].expire - life
  }

  /** The key being added by the rotation under way: it has not been through a pass of its own. */
  function Newcomer(s: State): Option<Kid> {
    match s.phase
    case Stored(id) => Some(id)
    case Adopted => Some(s.active)
    case Sweeping(_, _, _, _) => Some(s.active)
    case _ => None
  }

  // ---------------------------------------------------------------- invariant

  /** No key leaves the store except by Revoke or after its expiry. */
  ghost predicate KeptUntilExpiry(s: State) {
    forall k :: k in s.minted ==> k in s.store || k in s.revoked || s.minted[k].expire < s.now
  }

  ghost predicate StoreIsMinted(life: nat, s: State) {
    && (forall k :: k in s.store ==> k in s.minted && s.minted[k] == s.store[k])
    && (forall k :: k in s.minted ==> MintedAt(life, s, k) <= s.now)
    && s.revoked <= s.minted.Keys
  }

  /** Every stored key but the newcomer passed the last finished expiry pass. */
  ghost predicate PassedLastSweep(life: nat, s: State) {
    forall k :: k in s.store && Newcomer(s) != Some(k) ==>
      s.swept <= s.store[k].expire && s.store[k].expire - life <= s.swept
  }

  ghost predicate PhaseOk(life: nat, s: State) {
    && s.active in s.minted
    && match s.phase
    case Stamped(id, key) => id !in s.minted && key.expire - life <= s.now
    case Stored(id) => id in s.minted
    case Sweeping(begun, todo, doomed, _) =>
      && s.swept <= begun <= s.now
      && MintedAt(life, s, s.active) <= begun
      && (doomed.Some? ==> doomed.value in s.minted && s.minted[doomed.value].expire < s.now)
      && (forall k :: k in s.store && s.store[k].expire < begun ==> k in todo || doomed == Some(k))
    case _ => true
  }

  ghost predicate Inv(life: nat, s: State) {
    && StoreIsMinted(life, s)
    && KeptUntilExpiry(s)
    && s.swept <= s.now
    && PhaseOk(life, s)
    && PassedLastSweep(life, s)
  }

  lemma InvInitial(life: nat, s: State)
    requires IsInitial(life, s)
    ensures Inv(life, s)
  {
  }

  lemma KeptStep(life: nat, s: State, st: Step)
    requires Inv(life, s) && Enabled(s, st)
    ensures KeptUntilExpiry(Apply(life, s, st))
  {
    var t := Apply(life, s, st);
    forall k | k in t.minted
      ensures k in t.store || k in t.revoked || t.minted[k].expire < t.now
    {
      if k in s.minted {
        assert k in s.store || k in s.revoked || s.minted[k].expire < s.now;
      }
    }
  }

  lemma SweptStep(life: nat, s: State, st: Step)
    requires Inv(life, s) && Enabled(s, st)
    ensures PassedLastSweep(life, Apply(life, s, st))
  {
    var t := Apply(life, s, st);
    forall k | k in t.store && Newcomer(t) != Some(k)
      ensures t.swept <= t.store[k].expire && t.store[k].expire - life <= t.swept
    {
      assert k in s.store;
    }
  }

  lemma InvStep(life: nat, s: State, st: Step)
    requires Inv(life, s) && Enabled(s, st)
    ensures Inv(life, Apply(life, s, st))
  {
    KeptStep(life, s, st);
    SweptStep(life, s, st);
  }

  lemma MintedStays(life: nat, s: State, st: Step)
    requires Inv(life, s) && Enabled(s, st)
    ensures forall k :: k in s.minted ==> k in Apply(life, s, st).minted && Apply(life, s, st).minted[k] == s.minted[k]
  {
  }

  lemma {:induction false} InvRun(life: nat, s: State, steps: seq<Step>, t: State)
    requires Inv(life, s) && Leads(life, s, steps, t)
    ensures Inv(life, t)
    decreases |steps|
  {
    if steps != [] {
      InvStep(life, s, steps[0]);
      InvRun(life, Apply(life, s, steps[0]), steps[1..], t);
    }
  }

  // ---------------------------------------------------------------- runs

  /** A state of some run that starts where New leaves the keystore. */
  ghost predicate Reachable(life: nat, s: State) {
    exists init, steps :: IsInitial(life, init) && Leads(life, init, steps, s)
  }

  lemma ReachableInv(life: nat, s: State)
    requires Reachable(life, s)
    ensures Inv(life, s)
  {
    var init, steps :| IsInitial(life, init) && Leads(life, init, steps, s);
    InvRun(life, init, steps, s);
  }

  lemma {:induction false} LeadsConcat(life: nat, s: State, a: seq<Step>, t: State, b: seq<Step>, u: State)
    requires Leads(life, s, a, t) && Leads(life, t, b, u)
    ensures Leads(life, s, a + b, u)
    decreases |a|
  {
    if a == [] {
      assert a + b == b;
    } else {
      LeadsConcat(life, Apply(life, s, a[0]), a[1..], t, b, u);
      assert (a + b)[1..] == a[1..] + b;
    }
  }

  lemma ReachableLeads(life: nat, s: State, steps: seq<Step>, t: State)
    requires Reachable(life, s) && Leads(life, s, steps, t)
    ensures Reachable(life, t)
  {
    var init, before :| IsInitial(life, init) && Leads(life, init, before, s);
    LeadsConcat(life, init, before, s, steps, t);
  }

  /** The clock never goes back and history is never rewritten. */
  lemma {:induction false} HistoryGrows(life: nat, s: State, steps: seq<Step>, t: State)
    requires Inv(life, s) && Leads(life, s, steps, t)
    ensures s.now <= t.now && s.revoked <= t.revoked
    ensures forall k :: k in s.minted ==> k in t.minted && t.minted[k] == s.minted[k]
    decreases |steps|
  {
    if steps != [] {
      InvStep(life, s, steps[0]);
      HistoryGrows(life, Apply(life, s, steps[0]), steps[1..], t);
    }
  }

  // ---------------------------------------------------------------- readers

  /** The active key had its expiry computed at most `pace` ago. */
  ghost predicate Fresh(life: nat, pace: int, s: State) {
    s.active in s.minted && s.now <= MintedAt(life, s, s.active) + pace
  }

  /** A handler reads `active` in state s and loads that key in a later state t, whatever ran in
      between. It finds the key if it is not too slow for the expiration period and the key it
      read was not revoked by hand. */
  lemma FreshReaderFindsKey(life: nat, pace: int, delay: int, s: State, steps: seq<Step>, t: State)
    requires Reachable(life, s) && Leads(life, s, steps, t)
    requires Fresh(life, pace, s) && t.now <= s.now + delay
    requires pace + delay <= life
    requires s.active !in t.revoked
    ensures s.active in t.store && t.store[s.active] == s.minted[s.active]
  {
    ReachableInv(life, s);
    HistoryGrows(life, s, steps, t);
    InvRun(life, s, steps, t);
    assert s.active in t.minted;
  }

  /** A key that nobody revokes on the way is not revoked at the end unless it already was. */
  lemma {:induction false} OnlyRevokeRevokes(life: nat, s: State, steps: seq<Step>, t: State, k: Kid)
    requires Leads(life, s, steps, t)
    requires k !in s.revoked && Step.Revoke(k) !in steps
    ensures k !in t.revoked
    decreases |steps|
  {
    if steps != [] {
      OnlyRevokeRevokes(life, Apply(life, s, steps[0]), steps[1..], t, k);
    }
  }

  // ---------------------------------------------------------------- retirement

  /** Once a key has left the store it never comes back. */
  lemma {:induction false} RetiredForGood(life: nat, s: State, steps: seq<Step>, t: State, k: Kid)
    requires Inv(life, s) && Leads(life, s, steps, t)
    requires k in s.minted && k !in s.store
    ensures k !in t.store
    decreases |steps|
  {
    if steps != [] {
      InvStep(life, s, steps[0]);
      RetiredForGood(life, Apply(life, s, steps[0]), steps[1..], t, k);
    }
  }

  /** Revoking a key removes it for good, whatever runs afterwards. */
  lemma RevokedForGood(life: nat, s: State, k: Kid, steps: seq<Step>, t: State)
    requires Inv(life, s) && k in s.minted
    requires Leads(life, Apply(life, s, Step.Revoke(k)), steps, t)
    ensures k !in t.store
  {
    InvStep(life, s, Step.Revoke(k));
    RetiredForGood(life, Apply(life, s, Step.Revoke(k)), steps, t, k);
  }

  /** And nothing else: every other key stays, and `active` is not touched. */
  lemma RevokeSpares(life: nat, s: State, k: Kid)
    ensures var t := Apply(life, s, Step.Revoke(k));
      && t.active == s.active && t.now == s.now && t.phase == s.phase
      && forall j :: j != k ==> (j in t.store <==> j in s.store) && (j in s.store ==> t.store[j] == s.store[j])
  {
  }

  /** Once the rotation goroutine has ended no key is added and `active` stays. */
  lemma HaltIsFinal(life: nat, s: State, steps: seq<Step>, t: State)
    requires Enabled(s, Halt) && Leads(life, Apply(life, s, Halt), steps, t)
    ensures t.minted == s.minted && t.active == s.active && t.store.Keys <= s.store.Keys
  {
    EndedRun(life, Apply(life, s, Halt), steps, t);
  }

  lemma {:induction false} EndedRun(life: nat, s: State, steps: seq<Step>, t: State)
    requires s.phase.Ended? && Leads(life, s, steps, t)
    ensures t.minted == s.minted && t.active == s.active && t.store.Keys <= s.store.Keys
    decreases |steps|
  {
    if steps != [] {
      EndedRun(life, Apply(life, s, steps[0]), steps[1..], t);
    }
  }

  /** A key is gone at the end of the first rotation whose expiry pass begins after its expiry,
      and in every state after that. */
  lemma ExpiredKeyIsGone(life: nat, s: State, k: Kid, steps: seq<Step>, t: State)
    requires Reachable(life, s) && Enabled(s, Finish)
    requires k in s.minted && s.minted[k].expire < s.phase.begun
    requires Leads(life, Apply(life, s, Finish), steps, t)
    ensures k !in t.store
  {
    ReachableInv(life, s);
    InvStep(life, s, Finish);
    RetiredForGood(life, Apply(life, s, Finish), steps, t, k);
  }

  // ---------------------------------------------------------------- size

  /** Rotations begin at least `gap` after every earlier one. */
  ghost predicate Spaced(life: nat, gap: int, s: State, steps: seq<Step>)
    decreases |steps|
  {
    steps != [] ==>
      && Enabled(s, steps[0])
      && (steps[0].Stamp? ==> forall k :: k in s.minted ==> MintedAt(life, s, k) + gap <= s.now)
      && Spaced(life, gap, Apply(life, s, steps[0]), steps[1..])
  }

  ghost predicate Apart(life: nat, gap: int, s: State) {
    && (forall j, k :: j in s.minted && k in s.minted && j != k ==>
      MintedAt(life, s, j) + gap <= MintedAt(life, s, k) || MintedAt(life, s, k) + gap <= MintedAt(life, s, j))
    && (s.phase.Stamped? ==> forall k :: k in s.minted ==>
      MintedAt(life, s, k) + gap <= s.phase.key.expire - life)
  }

  lemma {:induction false} SpacedRun(life: nat, gap: int, s: State, steps: seq<Step>, t: State)
    requires Inv(life, s) && Apart(life, gap, s)
    requires Leads(life, s, steps, t) && Spaced(life, gap, s, steps)
    ensures Apart(life, gap, t)
    decreases |steps|
  {
    if steps != [] {
      InvStep(life, s, steps[0]);
      SpacedRun(life, gap, Apply(life, s, steps[0]), steps[1..], t);
    }
  }

  /** Keys minted `gap` apart within [from, from + width] need `gap` of that width each, but for
      the oldest. */
  lemma {:induction false} Crowding(life: nat, gap: int, s: State, keys: set<Kid>, from: Time, width: int)
    requires 0 < gap && Apart(life, gap, s) && keys <= s.minted.Keys && keys != {}
    requires forall k :: k in keys ==> from <= MintedAt(life, s, k) <= from + width
    ensures gap * (|keys| - 1) <= width
    decreases |keys|
  {
    var newest := Newest(life, s, keys);
    var rest := keys - {newest};
    assert |keys| == |rest| + 1;
    if rest == {} {
      assert gap * (|keys| - 1) == 0;
    } else {
      CrowdingRest(life, gap, s, keys, newest, from, width);
      Crowding(life, gap, s, rest, from, width - gap);
      OneMoreGap(gap, |rest|, |keys|, width);
    }
  }

  lemma OneMoreGap(gap: int, rest: int, all: int, width: int)
    requires all == rest + 1 && gap * (rest - 1) <= width - gap
    ensures gap * (all - 1) <= width
  {
    assert gap * (rest - 1) == gap * rest - gap;
  }

  lemma CrowdingRest(life: nat, gap: int, s: State, keys: set<Kid>, newest: Kid, from: Time, width: int)
    requires 0 < gap && Apart(life, gap, s) && newest in keys && keys <= s.minted.Keys
    requires forall k :: k in keys ==> from <= MintedAt(life, s, k) <= from + width
    requires forall k :: k in keys ==> MintedAt(life, s, k) <= MintedAt(life, s, newest)
    ensures forall k :: k in keys - {newest} ==> from <= MintedAt(life, s, k) <= from + (width - gap)
  {
  }

  lemma {:induction false} DivideBound(n: int, gap: int, width: int)
    requires 0 < gap && gap * n <= width
    ensures n <= width / gap
  {
    var q := width / gap;
    assert width == gap * q + width % gap;
    assert gap * (q + 1) == gap * q + gap;
    CancelFactor(gap, n, q + 1);
  }

  lemma CancelFactor(g: int, a: int, b: int)
    requires 0 < g && g * a < g * b
    ensures a < b
  {
    assert g * (b - a) == g * b - g * a;
  }

  lemma {:induction false} Newest(life: nat, s: State, keys: set<Kid>) returns (k: Kid)
    requires keys != {} && keys <= s.minted.Keys
    ensures k in keys && forall j :: j in keys ==> MintedAt(life, s, j) <= MintedAt(life, s, k)
    decreases |keys|
  {
    k :| k in keys;
    var rest := keys - {k};
    if rest != {} {
      assert |keys| == |rest| + 1;
      var m := Newest(life, s, rest);
      if MintedAt(life, s, k) < MintedAt(life, s, m) {
        k := m;
      }
    }
  }

  /** The stored keys but the newcomer are few: they all passed the last finished sweep. */
  lemma {:induction false} SettledAreFew(life: nat, gap: int, t: State, settled: set<Kid>)
    requires 0 < gap && Inv(life, t) && Apart(life, gap, t)
    requires settled == set k | k in t.store && Newcomer(t) != Some(k)
    ensures |settled| <= life / gap + 1
  {
    if settled != {} {
      Crowding(life, gap, t, settled, t.swept - life, life);
      DivideBound(|settled| - 1, gap, life);
    } else {
      DivideBound(0, gap, life);
    }
  }

  /** With rotations at least `gap` apart the store holds at most life/gap + 1 keys between
      rotations and at most one more while a rotation is under way. */
  lemma {:induction false} StoreStaysSmall(life: nat, gap: int, init: State, steps: seq<Step>, t: State)
    requires 0 < gap && IsInitial(life, init)
    requires Leads(life, init, steps, t) && Spaced(life, gap, init, steps)
    ensures |t.store| <= life / gap + 2
    ensures Newcomer(t) == None ==> |t.store| <= life / gap + 1
  {
    InvRun(life, init, steps, t);
    SpacedRun(life, gap, init, steps, t);
    var settled := set k | k in t.store && Newcomer(t) != Some(k);
    SettledAreFew(life, gap, t, settled);
    AtMostOneMore(t, settled);
  }

  lemma AtMostOneMore(t: State, settled: set<Kid>)
    requires settled == set k | k in t.store && Newcomer(t) != Some(k)
    ensures |t.store| <= |settled| + 1
    ensures Newcomer(t) == None ==> |t.store| == |settled|
  {
    match Newcomer(t)
    case None => assert settled == t.store.Keys;
    case Some(k) =>
      Subset(t.store.Keys, settled + {k});
      assert |settled + {k}| <= |settled| + 1;
  }

  lemma {:induction false} Subset(a: set<Kid>, b: set<Kid>)
    requires a <= b
    ensures |a| <= |b|
    decreases a
  {
    if a != {} {
      var k :| k in a;
      Subset(a - {k}, b - {k});
    }
  }
}
