/** The keystore object: an untyped concurrent map, an active id and a clock. Its rotation is
    the real loop over the map, in any order; KeyRing has the same rotation step by step. */
module KeyStore {
  import opened Prelude
  import opened KeyRing

  /** Keys and values of the untyped map. */
  datatype AnyId = Name(id: Kid) | OddId(tag: nat)
  datatype AnyVal = Entry(key: Key) | OddVal(tag: nat)

  datatype Lookup =
    | Found(key: Key)
    | ErrInvalidKey
    | Blocked        // a send on the error channel, which New leaves nil, never returns

  datatype RotateError = GenFailed | OddIdError | OddValError

  /** Time moves on by any amount whenever it is read. */
  class Clock {
    var now: Time

    constructor (start: Time)
      ensures now == start
    {
      now := start;
    }

    method Now() returns (t: Time)
      modifies this
      ensures t == now && old(now) <= now
    {
      var d: nat :| 0 <= d;
      now := now + d;
      t := now;
    }
  }

  /** The untyped map holds exactly `keys`. */
  ghost predicate Holds(m: map<AnyId, AnyVal>, keys: map<Kid, Key>) {
    && (forall k :: k in m ==> k.Name? && k.id in keys)
    && (forall id :: id in keys ==> Name(id) in m && m[Name(id)] == Entry(keys[id]))
  }

  // ---------------------------------------------------------------- one expiry pass

  /** One visit of the pass: a key id and the clock reading its expiry was compared with. */
  datatype Seen = Seen(id: Kid, at: Time)

  /** What a pass leaves of m. */
  ghost function Swept(m: map<Kid, Key>, pass: seq<Seen>): map<Kid, Key> {
    if pass == [] then m
    else
      var before, last := Swept(m, pass[..|pass| - 1]), pass[|pass| - 1];
      if last.id in before && before[last.id].expire < last.at then before - {last.id} else before
  }

  ghost function Ids(pass: seq<Seen>): set<Kid> {
    set i | 0 <= i < |pass| :: pass[i].id
  }

  lemma PassGrows(pass: seq<Seen>, last: Seen)
    ensures (pass + [last])[..|pass|] == pass
    ensures Ids(pass + [last]) == Ids(pass) + {last.id}
  {
    var all := pass + [last];
    assert all[|pass|] == last;
    assert forall i :: 0 <= i < |pass| ==> all[i] == pass[i];
  }

  /** Each id once, at instants that never go back and lie in [from, to]. */
  ghost predicate PassOk(pass: seq<Seen>, from: Time, to: Time) {
    && (forall i, j :: 0 <= i < j < |pass| ==> pass[i].id != pass[j].id && pass[i].at <= pass[j].at)
    && (forall i :: 0 <= i < |pass| ==> from <= pass[i].at <= to)
    && from <= to
  }

  lemma {:induction false} SweptKeeps(m: map<Kid, Key>, pass: seq<Seen>, from: Time, to: Time)
    requires PassOk(pass, from, to)
    ensures Swept(m, pass).Keys <= m.Keys
    ensures forall k :: k in Swept(m, pass) ==> Swept(m, pass)[k] == m[k]
    ensures forall k :: k in m && k !in Ids(pass) ==> k in Swept(m, pass)
    ensures forall i :: 0 <= i < |pass| && pass[i].id in m ==>
      (pass[i].id in Swept(m, pass) <==> pass[i].at <= m[pass[i].id].expire)
    decreases |pass|
  {
    if pass != [] {
      var front := pass[..|pass| - 1];
      SweptKeeps(m, front, from, to);
      assert forall i :: 0 <= i < |front| ==> front[i] == pass[i];
      forall k | k in m && k !in Ids(pass)
        ensures k in Swept(m, pass)
      {
        assert pass[|pass| - 1].id in Ids(pass);
        assert forall i :: 0 <= i < |front| ==> pass[i].id in Ids(pass);
      }
      var last := pass[|pass| - 1];
      assert last.id in m ==> last.id in Swept(m, front) by {
        assert last.id !in Ids(front);
      }
    }
  }

  /** A pass over all of m, in any order, keeps exactly the keys that have not expired when they
      are visited. So what expired before it began is gone, what expires at its end or later is
      kept, and a key given `life` at a moment no more than `life` before the end survives. */
  lemma SweepIsExact(m: map<Kid, Key>, pass: seq<Seen>, from: Time, to: Time)
    requires PassOk(pass, from, to) && Ids(pass) == m.Keys
    ensures forall k :: k in m && m[k].expire < from ==> k !in Swept(m, pass)
    ensures forall k :: k in m && to <= m[k].expire ==> k in Swept(m, pass) && Swept(m, pass)[k] == m[k]
    ensures from == to ==> Swept(m, pass) == map k | k in m && from <= m[k].expire :: m[k]
  {
    SweptKeeps(m, pass, from, to);
    forall k | k in m
      ensures m[k].expire < from ==> k !in Swept(m, pass)
      ensures to <= m[k].expire ==> k in Swept(m, pass)
    {
      assert k in Ids(pass);
    }
  }

  /** What the loop of a pass has done when the entries of `todo` are still to be visited. */
  ghost predicate PassSoFar(added: map<Kid, Key>, pass: seq<Seen>, from: Time, to: Time,
                            left: map<Kid, Key>, todo: set<AnyId>, expired: nat) {
    && PassOk(pass, from, to)
    && left == Swept(added, pass)
    && Remaining(added, Ids(pass), left, todo)
    && |added| == |left| + expired
  }

  /** `todo` names the keys not visited yet, all of which are still there. */
  ghost predicate Remaining(added: map<Kid, Key>, visited: set<Kid>, left: map<Kid, Key>, todo: set<AnyId>) {
    && (forall k :: k in todo ==> k.Name? && k.id in left)
    && (forall k :: k in added <==> k in visited || Name(k) in todo)
    && (forall k :: Name(k) in todo ==> k !in visited)
  }

  lemma RemainingStep(added: map<Kid, Key>, visited: set<Kid>, left: map<Kid, Key>, todo: set<AnyId>,
                      k: Kid, left': map<Kid, Key>)
    requires Remaining(added, visited, left, todo) && Name(k) in todo
    requires left' == left || left' == left - {k}
    ensures Remaining(added, visited + {k}, left', todo - {Name(k)})
  {
  }

  /** A finished pass over `added` left `left` and counted `expired` keys out. */
  ghost predicate SweptBy(added: map<Kid, Key>, pass: seq<Seen>, from: Time, to: Time,
                          left: map<Kid, Key>, expired: nat) {
    && PassOk(pass, from, to) && Ids(pass) == added.Keys
    && left == Swept(added, pass)
    && |added| == |left| + expired
  }

  lemma {:induction false} PassStep(added: map<Kid, Key>, pass: seq<Seen>, from: Time, to: Time,
                 left: map<Kid, Key>, todo: set<AnyId>, expired: nat, k: Kid, now: Time,
                 late: bool, left': map<Kid, Key>)
    requires PassSoFar(added, pass, from, to, left, todo, expired)
    requires Name(k) in todo && to <= now
    requires late <==> left[k].expire < now
    requires left' == if late then left - {k} else left
    ensures PassSoFar(added, pass + [Seen(k, now)], from, now, left', todo - {Name(k)},
                      expired + (if late then 1 else 0))
  {
    PassGrows(pass, Seen(k, now));
    PassOkGrows(pass, from, to, Seen(k, now));
    SweptGrows(added, pass, Seen(k, now));
    RemainingStep(added, Ids(pass), left, todo, k, left');
    assert left.Keys == (left - {k}).Keys + {k};
  }

  lemma SweptGrows(m: map<Kid, Key>, pass: seq<Seen>, v: Seen)
    ensures var before := Swept(m, pass);
      Swept(m, pass + [v]) == if v.id in before && before[v.id].expire < v.at then before - {v.id} else before
  {
    PassGrows(pass, v);
  }

  lemma PassOkGrows(pass: seq<Seen>, from: Time, to: Time, last: Seen)
    requires PassOk(pass, from, to) && to <= last.at && last.id !in Ids(pass)
    ensures PassOk(pass + [last], from, last.at)
  {
    var next := pass + [last];
    forall i, j | 0 <= i < j < |next|
      ensures next[i].id != next[j].id && next[i].at <= next[j].at
    {
      assert next[i] == pass[i] && pass[i].id in Ids(pass);
    }
  }

  // ---------------------------------------------------------------- the object

  class KeyStore {
    var store: map<AnyId, AnyVal>
    var active: Kid
    const life: nat        // expirationPeriod
    const clock: Clock
    ghost var keys: map<Kid, Key>

    ghost predicate Typed()
      reads this
    {
      Holds(store, keys)
    }

    /** The first key is added before anyone else can see the object; the rotation goroutine
        is modelled by calls of Rotate. */
    constructor (life: nat, clock: Clock, id: Kid, signer: nat)
      modifies clock
      ensures this.life == life && this.clock == clock && old(clock.now) <= clock.now
      ensures Typed() && active == id
      ensures keys == Initial(life, id, signer, clock.now).store
    {
      this.life := life;
      this.clock := clock;
      store := map[];
      keys := map[];
      active := id;
      new;
      var _ := AddKey(Some((id, signer)));
    }

    /** `gen` is the outcome of generating the first key; if that fails there is no keystore. */
    static method New(life: nat, clock: Clock, gen: Option<(Kid, nat)>) returns (r: KeyStore?)
      modifies clock
      ensures old(clock.now) <= clock.now
      ensures r == null <==> gen.None?
      ensures r != null ==>
        && fresh(r) && r.life == life && r.clock == clock && r.Typed()
        && r.active == gen.value.0 && r.keys == Initial(life, gen.value.0, gen.value.1, clock.now).store
    {
      if gen.None? {
        return null;
      }
      r := new KeyStore(life, clock, gen.value.0, gen.value.1);
    }

    method Signer(id: Kid) returns (r: Lookup)
      ensures Typed() ==> r == if id in keys then Found(keys[id]) else ErrInvalidKey
      ensures r.Blocked? <==> Name(id) in store && store[Name(id)].OddVal?
    {
      if Name(id) !in store {
        return ErrInvalidKey;
      }
      match store[Name(id)]
      case Entry(key) => r := Found(key);
      case OddVal(_) => r := Blocked;
    }

    method Active() returns (id: Kid, r: Lookup)
      ensures id == active
      ensures Typed() ==> r == if id in keys then Found(keys[id]) else ErrInvalidKey
    {
      id := active;
      r := Signer(id);
    }

    method Revoke(id: Kid)
      modifies this`store, this`keys
      ensures store == old(store) - {Name(id)} && keys == old(keys) - {id}
      ensures old(Typed()) ==> Typed()
    {
      store := store - {Name(id)};
      keys := keys - {id};
    }

    /** `gen` is the outcome of key generation. */
    method AddKey(gen: Option<(Kid, nat)>) returns (err: Option<RotateError>)
      modifies this`store, this`active, this`keys, clock
      ensures old(clock.now) <= clock.now
      ensures gen.None? ==>
        err == Some(GenFailed) && store == old(store) && keys == old(keys) && active == old(active)
      ensures gen.Some? ==>
        && err == None && active == gen.value.0
        && store == old(store)[Name(active) := Entry(Key(clock.now + life, gen.value.1))]
        && keys == old(keys)[active := Key(clock.now + life, gen.value.1)]
      ensures old(Typed()) ==> Typed()
    {
      if gen.None? {
        return Some(GenFailed);
      }
      var (id, signer) := gen.value;
      var now := clock.Now();
      var key := Key(now + life, signer);
      store := store[Name(id) := Entry(key)];
      keys := keys[id := key];
      active := id;
      err := None;
    }

    /** What the pass does to one entry: an expired key is revoked. */
    method VisitEntry(k: AnyId) returns (expired: bool, err: Option<RotateError>)
      requires k in store
      modifies this`store, this`keys, clock
      ensures old(clock.now) <= clock.now
      ensures err == if k.OddId? then Some(OddIdError) else if old(store)[k].OddVal? then Some(OddValError) else None
      ensures expired <==> err.None? && old(store)[k].key.expire < clock.now
      ensures store == (if expired then old(store) - {k} else old(store))
      ensures keys == (if expired then old(keys) - {k.id} else old(keys))
      ensures old(Typed()) ==> Typed()
    {
      expired, err := false, None;
      if k.OddId? {
        err := Some(OddIdError);
      } else if store[k].OddVal? {
        err := Some(OddValError);
      } else {
        var key := store[k].key;
        var now := clock.Now();
        if key.expire < now {
          Revoke(k.id);
          expired := true;
        }
      }
    }

    /** The pass over the map: deletes every key that has expired when the pass gets to it, in
        whatever order the map is ranged over, and stops at an entry of a wrong type. */
    method Expire() returns (expiredCount: nat, err: Option<RotateError>, ghost pass: seq<Seen>)
      modifies this`store, this`keys, clock
      ensures old(clock.now) <= clock.now && err != Some(GenFailed)
      ensures old(Typed()) ==>
        && err == None && Typed()
        && SweptBy(old(keys), pass, old(clock.now), clock.now, keys, expiredCount)
    {
      expiredCount, err, pass := 0, None, [];
      ghost var typed, added, from := Typed(), keys, clock.now;
      var todo := store.Keys;
      while todo != {} && err.None?
        invariant from <= clock.now && todo <= store.Keys && err != Some(GenFailed)
        invariant typed ==> err.None? && Typed()
        invariant typed ==> PassSoFar(added, pass, from, clock.now, keys, todo, expiredCount)
        decreases todo
      {
        var k :| k in todo;
        ghost var was, before := clock.now, keys;
        assert typed ==> k == Name(k.id) && store[k] == Entry(before[k.id]);
        var expired;
        expired, err := VisitEntry(k);
        if typed {
          PassStep(added, pass, from, was, before, todo, expiredCount, k.id, clock.now, expired, keys);
          pass := pass + [Seen(k.id, clock.now)];
        }
        expiredCount := expiredCount + (if expired then 1 else 0);
        todo := todo - {k};
      }
    }

    /** Adds a key, then deletes what has expired. On a typed map no type error can occur. */
    method Rotate(gen: Option<(Kid, nat)>)
        returns (expiredCount: nat, err: Option<RotateError>, ghost minted: Time, ghost pass: seq<Seen>)
      modifies this`store, this`active, this`keys, clock
      ensures gen.None? ==> err == Some(GenFailed) && expiredCount == 0
      ensures gen.None? ==> store == old(store) && keys == old(keys) && active == old(active)
      ensures gen.Some? ==> active == gen.value.0 && err != Some(GenFailed)
      ensures old(clock.now) <= minted <= clock.now
      ensures gen.Some? && old(Typed()) ==>
        && err == None && Typed()
        && SweptBy(old(keys)[gen.value.0 := Key(minted + life, gen.value.1)], pass, minted, clock.now,
                   keys, expiredCount)
    {
      expiredCount := 0;
      pass := [];
      err := AddKey(gen);
      minted := clock.now;
      if err.None? {
        ghost var typed, added := Typed(), keys;
        assert added == old(keys)[gen.value.0 := Key(minted + life, gen.value.1)];
        expiredCount, err, pass := Expire();
        assert typed ==> SweptBy(added, pass, minted, clock.now, keys, expiredCount);
      }
    }
  }
}
