/** One call of KeyStore.Rotate, described by what its contract says, is a run of KeyRing. */
module RotationRefinement {
  import opened Prelude
  import opened KeyRing
  import opened KeyStore

  /** What a rotation with a fresh id leaves, for every visiting order and every way the clock moves
      during the pass: `minted` is when the new expiry was computed, `end` when the pass was over. */
  lemma RotationOutcome(life: nat, before: map<Kid, Key>, id: Kid, signer: nat, minted: Time, end: Time,
                        pass: seq<Seen>, left: map<Kid, Key>, expired: nat)
    requires id !in before
    requires SweptBy(before[id := Key(minted + life, signer)], pass, minted, end, left, expired)
    ensures |before| + 1 == |left| + expired
    ensures forall k :: k in left && k != id ==> k in before && left[k] == before[k] && minted <= left[k].expire
    ensures forall k :: k in before && end <= before[k].expire ==> k in left
    ensures end <= minted + life ==> id in left && left[id] == Key(minted + life, signer)
  {
    var added := before[id := Key(minted + life, signer)];
    assert added.Keys == before.Keys + {id};
    SweepIsExact(added, pass, minted, end);
    SweptKeeps(added, pass, minted, end);
    assert id in added && added[id] == Key(minted + life, signer);
    forall k | k in left && k != id
      ensures k in before && left[k] == before[k] && minted <= left[k].expire
    {
      assert k in added && added[k] == before[k];
    }
    forall k | k in before && end <= before[k].expire
      ensures k in left
    {
      assert k in added && added[k] == before[k];
    }
  }

  lemma LeadsStep(life: nat, s: State, st: Step) returns (t: State)
    requires Enabled(s, st)
    ensures t == Apply(life, s, st) && Leads(life, s, [st], t)
  {
    t := Apply(life, s, st);
    assert Leads(life, t, [], t);
  }

  /** t is s with a pass in progress further on: some ids visited, some keys counted out. */
  ghost predicate FurtherOn(s: State, visited: set<Kid>, t: State) {
    && s.phase.Sweeping? && t.phase.Sweeping? && s.phase.doomed.None? && t.phase.doomed.None?
    && t.phase.begun == s.phase.begun && t.phase.todo == s.phase.todo - visited
    && t.phase.expired + |t.store| == s.phase.expired + |s.store|
    && t.active == s.active && t.minted == s.minted && t.revoked == s.revoked && t.swept == s.swept
  }

  lemma VisitIsRun(life: nat, s: State, v: Seen) returns (steps: seq<Step>, t: State)
    requires s.phase.Sweeping? && s.phase.doomed.None? && v.id in s.phase.todo && s.now <= v.at
    ensures Leads(life, s, steps, t) && FurtherOn(s, {v.id}, t) && t.now == v.at
    ensures t.store == if v.id in s.store && s.store[v.id].expire < v.at then s.store - {v.id} else s.store
  {
    var wait, visit := Tick(v.at - s.now), Visit(v.id);
    var s1 := LeadsStep(life, s, wait);
    var s2 := LeadsStep(life, s1, visit);
    LeadsConcat(life, s, [wait], s1, [visit], s2);
    steps, t := [wait] + [visit], s2;
    if v.id in s.store && s.store[v.id].expire < v.at {
      t := LeadsStep(life, s2, Delete);
      LeadsConcat(life, s, steps, s2, [Delete], t);
      steps := steps + [Delete];
      assert s.store.Keys == t.store.Keys + {v.id};
    }
  }

  function LastAt(from: Time, pass: seq<Seen>): Time {
    if pass == [] then from else pass[|pass| - 1].at
  }

  lemma {:induction false} PassIsRun(life: nat, s: State, pass: seq<Seen>, to: Time)
      returns (steps: seq<Step>, t: State)
    requires s.phase.Sweeping? && s.phase.doomed.None?
    requires PassOk(pass, s.now, to) && Ids(pass) <= s.phase.todo
    ensures Leads(life, s, steps, t) && FurtherOn(s, Ids(pass), t)
    ensures t.store == Swept(s.store, pass) && t.now == LastAt(s.now, pass)
    decreases |pass|
  {
    if pass == [] {
      steps, t := [], s;
    } else {
      var front, last := pass[..|pass| - 1], pass[|pass| - 1];
      assert pass == front + [last];
      LastIsNew(front, last, s.now, to);
      var mid;
      steps, mid := PassIsRun(life, s, front, to);
      var more;
      more, t := VisitIsRun(life, mid, last);
      LeadsConcat(life, s, steps, mid, more, t);
      steps := steps + more;
    }
  }

  lemma LastIsNew(front: seq<Seen>, last: Seen, from: Time, to: Time)
    requires PassOk(front + [last], from, to)
    ensures PassOk(front, from, to) && LastAt(from, front) <= last.at
    ensures Ids(front + [last]) == Ids(front) + {last.id} && last.id !in Ids(front)
  {
    var pass := front + [last];
    PassGrows(front, last);
    assert pass[|front|] == last;
    assert forall i :: 0 <= i < |front| ==> front[i] == pass[i];
  }

  /** Key added and made active, pass begun. */
  lemma AddIsRun(life: nat, s: State, id: Kid, signer: nat, minted: Time) returns (steps: seq<Step>, t: State)
    requires s.phase.Idle? && id !in s.minted && s.now <= minted
    ensures Leads(life, s, steps, t)
    ensures t.now == minted && t.active == id && t.revoked == s.revoked
    ensures t.store == s.store[id := Key(minted + life, signer)]
    ensures t.minted == s.minted[id := Key(minted + life, signer)]
    ensures t.phase == Sweeping(minted, t.store.Keys, None, 0)
  {
    var wait, stamp := Tick(minted - s.now), Stamp(id, signer);
    var s1 := LeadsStep(life, s, wait);
    var s2 := LeadsStep(life, s1, stamp);
    var s3 := LeadsStep(life, s2, Store);
    var s4 := LeadsStep(life, s3, Adopt);
    t := LeadsStep(life, s4, Range);
    LeadsConcat(life, s, [wait], s1, [stamp], s2);
    LeadsConcat(life, s, [wait] + [stamp], s2, [Store], s3);
    LeadsConcat(life, s, [wait] + [stamp] + [Store], s3, [Adopt], s4);
    LeadsConcat(life, s, [wait] + [stamp] + [Store] + [Adopt], s4, [Range], t);
    steps := [wait] + [stamp] + [Store] + [Adopt] + [Range];
  }

  /** A call of KeyStore.Revoke, described by what its contract says, is the step of KeyRing, in
      whatever phase a rotation is. */
  lemma RevokeIsRun(life: nat, s: State, id: Kid, left: map<Kid, Key>) returns (t: State)
    requires left == s.store - {id}
    ensures Leads(life, s, [Step.Revoke(id)], t)
    ensures t == s.(store := left, revoked := t.revoked)
    ensures forall k :: k in t.revoked <==> k in s.revoked || (k == id && id in s.store)
  {
    t := LeadsStep(life, s, Step.Revoke(id));
  }

  /** An idle keystore that rotates without interference ends, by steps of KeyRing, in the state
      that the contract of KeyStore.Rotate describes. */
  lemma RotationIsRun(life: nat, s: State, id: Kid, signer: nat, minted: Time, end: Time,
                      pass: seq<Seen>, left: map<Kid, Key>, expired: nat)
      returns (steps: seq<Step>, t: State)
    requires s.phase.Idle? && id !in s.minted && s.now <= minted
    requires SweptBy(s.store[id := Key(minted + life, signer)], pass, minted, end, left, expired)
    ensures Leads(life, s, steps, t)
    ensures t.phase.Idle? && t.store == left && t.active == id && t.now == end && t.swept == minted
    ensures t.minted == s.minted[id := Key(minted + life, signer)] && t.revoked == s.revoked
  {
    var front, s1 := AddIsRun(life, s, id, signer, minted);
    var visits, s2 := PassIsRun(life, s1, pass, end);
    assert LastAt(minted, pass) <= end;
    assert s2.phase.todo == {};
    var wait := Tick(end - s2.now);
    var s3 := LeadsStep(life, s2, wait);
    t := LeadsStep(life, s3, Finish);
    LeadsConcat(life, s, front, s1, visits, s2);
    LeadsConcat(life, s, front + visits, s2, [wait], s3);
    LeadsConcat(life, s, front + visits + [wait], s3, [Finish], t);
    steps := front + visits + [wait] + [Finish];
  }
}
