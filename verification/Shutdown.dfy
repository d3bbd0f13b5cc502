/** The shutdown channel: capacity one, sent to by the operating system and by the web app,
    received from by the key rotation loop and by the final select of run. */
module Shutdown {
  import opened Prelude

  datatype Receiver = RotationLoop | MainSelect

  datatype Loop = Waiting | Rotating | Stopped | Blocked

  datatype Main = Selecting | ServerFailed | Closing

  /** Signals are numbered in the order in which the channel accepts them; `taken` says who
      received which. */
  datatype State = State(
    buffer: Option<nat>, accepted: nat, taken: map<nat, Receiver>, loop: Loop, rounds: nat, main: Main)

  datatype Step =
    | Notify              // a signal from the system: dropped when the channel is full
    | Send                // the app asks to shut down: waits while the channel is full
    | LoopTakes
    | Tick                // the ticker fires and the loop begins a round
    | RoundDone(ok: bool) // a failed round blocks on the nil error channel
    | MainTakes
    | ServerError

  const START := State(None, 0, map[], Waiting, 0, Selecting)

  predicate Enabled(s: State, st: Step) {
    match st
    case Notify => true
    case Send => s.buffer.None?
    case LoopTakes => s.loop.Waiting? && s.buffer.Some?
    case Tick => s.loop.Waiting?
    case RoundDone(_) => s.loop.Rotating?
    case MainTakes => s.main.Selecting? && s.buffer.Some?
    case ServerError => s.main.Selecting?
  }

  function Accept(s: State): State {
    if s.buffer.Some? then s else s.(buffer := Some(s.accepted), accepted := s.accepted + 1)
  }

  function Apply(s: State, st: Step): State
    requires Enabled(s, st)
  {
    match st
    case Notify => Accept(s)
    case Send => Accept(s)
    case LoopTakes => s.(taken := s.taken[s.buffer.value := RotationLoop], buffer := None, loop := Stopped)
    case Tick => s.(loop := Rotating, rounds := s.rounds + 1)
    case RoundDone(ok) => s.(loop := if ok then Waiting else Blocked)
    case MainTakes => s.(taken := s.taken[s.buffer.value := MainSelect], buffer := None, main := Closing)
    case ServerError => s.(main := ServerFailed)
  }

  ghost predicate Leads(s: State, steps: seq<Step>, t: State)
    decreases |steps|
  {
    if steps == [] then s == t else Enabled(s, steps[0]) && Leads(Apply(s, steps[0]), steps[1..], t)
  }

  ghost predicate Inv(s: State) {
    && (s.buffer.Some? ==> s.buffer.value + 1 == s.accepted)
    && (forall i :: i in s.taken <==> 0 <= i < s.accepted && s.buffer != Some(i))
    && (forall i, j :: i in s.taken && j in s.taken && s.taken[i] == s.taken[j] ==> i == j)
    && (s.loop.Stopped? <==> RotationLoop in s.taken.Values)
    && (s.main.Closing? <==> MainSelect in s.taken.Values)
  }

  lemma TakeOne(s: State, who: Receiver)
    requires Inv(s) && s.buffer.Some? && who !in s.taken.Values
    ensures var taken := s.taken[s.buffer.value := who];
      && (forall i, j :: i in taken && j in taken && taken[i] == taken[j] ==> i == j)
      && taken.Values == s.taken.Values + {who}
  {
    var id := s.buffer.value;
    var taken := s.taken[id := who];
    assert id !in s.taken && taken[id] == who;
    forall x | x in s.taken.Values
      ensures x in taken.Values
    {
      var i :| i in s.taken && s.taken[i] == x;
      assert taken[i] == x;
    }
  }

  lemma InvStep(s: State, st: Step)
    requires Inv(s) && Enabled(s, st)
    ensures Inv(Apply(s, st))
  {
    if st.LoopTakes? {
      TakeOne(s, RotationLoop);
    } else if st.MainTakes? {
      TakeOne(s, MainSelect);
    }
  }

  lemma {:induction false} InvRun(s: State, steps: seq<Step>, t: State)
    requires Inv(s) && Leads(s, steps, t)
    ensures Inv(t)
    decreases |steps|
  {
    if steps != [] {
      InvStep(s, steps[0]);
      InvRun(Apply(s, steps[0]), steps[1..], t);
    }
  }

  /** Every accepted signal is received by one receiver or still in the channel, and each receiver
      receives at most one. */
  lemma EachSignalOnce(steps: seq<Step>, t: State)
    requires Leads(START, steps, t)
    ensures forall i :: 0 <= i < t.accepted ==> (i in t.taken <==> t.buffer != Some(i))
    ensures forall i, j :: i in t.taken && j in t.taken && i != j ==> t.taken[i] != t.taken[j]
  {
    InvRun(START, steps, t);
  }

  /** Of two received signals one was received by the final select of run. */
  lemma TwoSignalsReachMain(steps: seq<Step>, t: State)
    requires Leads(START, steps, t) && 2 <= |t.taken|
    ensures t.main.Closing? && t.loop.Stopped?
  {
    InvRun(START, steps, t);
    var i :| i in t.taken;
    var rest := t.taken.Keys - {i};
    assert |rest| + 1 == |t.taken|;
    var j :| j in rest;
    assert t.taken[i] in t.taken.Values && t.taken[j] in t.taken.Values;
    assert t.taken[i] != t.taken[j];
  }

  /** After it has received a signal the loop never rotates again. */
  lemma {:induction false} NoRoundAfterSignal(s: State, steps: seq<Step>, t: State)
    requires s.loop.Stopped? && Leads(s, steps, t)
    ensures t.loop.Stopped? && t.rounds == s.rounds
    decreases |steps|
  {
    if steps != [] {
      NoRoundAfterSignal(Apply(s, steps[0]), steps[1..], t);
    }
  }

  /** The first signal is never dropped: once one has been sent, one has been accepted. */
  lemma {:induction false} SignalArrives(s: State, steps: seq<Step>, t: State)
    requires Inv(s) && Leads(s, steps, t) && (Notify in steps || Send in steps || 0 < s.accepted)
    ensures 0 < t.accepted
    decreases |steps|
  {
    if steps != [] {
      InvStep(s, steps[0]);
      SignalArrives(Apply(s, steps[0]), steps[1..], t);
    }
  }

  /** After a failed round the loop is blocked for good and begins no other; after a good one it waits. */
  lemma FailedRoundIsFinal(s: State, steps: seq<Step>, t: State)
    requires s.loop.Rotating? && Leads(Apply(s, RoundDone(false)), steps, t)
    ensures t.loop.Blocked? && t.rounds == s.rounds
    ensures Apply(s, RoundDone(true)) == s.(loop := Waiting)
  {
    BlockedRun(Apply(s, RoundDone(false)), steps, t);
  }

  lemma {:induction false} BlockedRun(s: State, steps: seq<Step>, t: State)
    requires s.loop.Blocked? && Leads(s, steps, t)
    ensures t.loop.Blocked? && t.rounds == s.rounds
    decreases |steps|
  {
    if steps != [] {
      BlockedRun(Apply(s, steps[0]), steps[1..], t);
    }
  }

  /** Once the server has failed run receives no signal any more. */
  lemma {:induction false} FailedServerIsFinal(s: State, steps: seq<Step>, t: State)
    requires (s.main.ServerFailed? || (s.main.Selecting? && steps != [] && steps[0] == ServerError))
    requires Leads(s, steps, t)
    ensures t.main.ServerFailed?
    decreases |steps|
  {
    if steps != [] {
      FailedServerIsFinal(Apply(s, steps[0]), steps[1..], t);
    }
  }

  /** The signal in the channel can end with the rotation loop, so that run never hears of it. */
  ghost predicate MayMissMain(s: State)
    requires s.buffer.Some?
  {
    exists steps, t :: Leads(s, steps, t) && s.buffer.value in t.taken && t.taken[s.buffer.value] == RotationLoop
  }

  ghost predicate Listening(s: State) {
    s.loop.Waiting? || s.loop.Rotating?
  }

  lemma {:induction false} DeafLoopTakesNothing(s: State, steps: seq<Step>, t: State, id: nat)
    requires Inv(s) && Leads(s, steps, t) && !Listening(s)
    requires id in s.taken ==> s.taken[id] == MainSelect
    ensures id in t.taken ==> t.taken[id] == MainSelect
    decreases |steps|
  {
    if steps != [] {
      InvStep(s, steps[0]);
      DeafLoopTakesNothing(Apply(s, steps[0]), steps[1..], t, id);
    }
  }

  /** A single signal is enough to close the server only once the rotation loop no longer listens:
      as long as it does, it may be the one to receive it. */
  lemma MayMissMainIff(before: seq<Step>, s: State)
    requires Leads(START, before, s) && s.buffer.Some?
    ensures MayMissMain(s) <==> Listening(s)
  {
    InvRun(START, before, s);
    var id := s.buffer.value;
    if Listening(s) {
      var wait := if s.loop.Rotating? then [RoundDone(true)] else [];
      var u := if s.loop.Rotating? then Apply(s, RoundDone(true)) else s;
      var t := Apply(u, LoopTakes);
      assert Leads(t, [], t);
      assert Leads(u, [LoopTakes], t);
      assert (wait + [LoopTakes])[|wait|..] == [LoopTakes];
      assert Leads(s, wait + [LoopTakes], t);
    } else if MayMissMain(s) {
      var steps, t :| Leads(s, steps, t) && id in t.taken && t.taken[id] == RotationLoop;
      DeafLoopTakesNothing(s, steps, t, id);
      assert false;
    }
  }

  // ---------------------------------------------------------------- the rotation loop

  datatype LoopInput = Signal | Ticked(rotateOk: bool)

  /** Where the loop stops: at the first signal or failed rotation. */
  predicate StopsAt(inputs: seq<LoopInput>, n: nat) {
    && n <= |inputs|
    && (forall i :: 0 <= i < n ==> inputs[i] == Ticked(true))
    && (n < |inputs| ==> inputs[n] != Ticked(true))
  }

  ghost function StopIndex(inputs: seq<LoopInput>): (n: nat)
    ensures StopsAt(inputs, n)
  {
    if inputs == [] || inputs[0] != Ticked(true) then 0
    else
      assert forall i :: 0 <= i < |inputs| - 1 ==> inputs[1..][i] == inputs[i + 1];
      var n := 1 + StopIndex(inputs[1..]);
      assert forall i :: 1 <= i < n ==> inputs[i] == inputs[1..][i - 1];
      n
  }

  /** The select loop of startRotation on the inputs it selects, in order. */
  method RotationRounds(inputs: seq<LoopInput>) returns (round: nat, end: Loop)
    ensures var n := StopIndex(inputs);
      && end == (if n == |inputs| then Waiting else if inputs[n].Signal? then Stopped else Blocked)
      && round == if end.Blocked? then n + 1 else n
  {
    round, end := 0, Waiting;
    for i := 0 to |inputs|
      invariant end.Waiting? && round == i <= StopIndex(inputs)
    {
      match inputs[i]
      case Signal =>
        return round, Stopped;
      case Ticked(ok) =>
        round := round + 1;
        if !ok {
          return round, Blocked;
        }
    }
  }
}
