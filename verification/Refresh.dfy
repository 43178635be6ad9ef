// The per-stream refresh of the sync-read consumer, as a state machine over the
// steps its promises are scheduled in. One instance per stream.

module Refresh {
  import opened Wrappers

  // A run of `performRefresh`. It settles first; its `finally` then clears the slot.
  datatype Phase = Fetching | Settled(ok: bool) | Cleared(ok: bool)

  datatype Flight = Flight(owner: nat, begunAt: nat, floor: Option<nat>, fetched: Option<nat>, phase: Phase)

  // Where a call of `refreshStream` stands.
  datatype Status =
    | Joined(flight: nat)
    | Queued(flight: nat)
    | Resumable
    | Leading(flight: nat)
    | Returned(ok: bool, flight: nat)

  datatype Caller = Caller(calledAt: nat, floor: Option<nat>, status: Status)

  // `slot` is the stream's entry of `streamRefreshes`; flights are numbered.
  datatype State = State(slot: Option<nat>, flights: seq<Flight>, callers: map<nat, Caller>, clock: nat)

  datatype Event =
    | Call(caller: nat, floor: Option<nat>)
    | Settle(fetched: Option<nat>, accepted: bool)
    | Clear
    | Resume(caller: nat)

  const Initial := State(None, [], map[], 0)

  // ---------- Steps ----------

  predicate Enabled(s: State, ev: Event) {
    match ev
    case Call(c, _) => c !in s.callers
    case Settle(_, _) => s.slot.Some? && s.slot.value < |s.flights| && s.flights[s.slot.value].phase.Fetching?
    case Clear => s.slot.Some? && s.slot.value < |s.flights| && s.flights[s.slot.value].phase.Settled?
    case Resume(c) => c in s.callers && s.callers[c].status.Resumable?
  }

  // `refreshStream`, called or resumed: lead, join, or queue behind the active one.
  function Enter(s: State, c: nat, calledAt: nat, floor: Option<nat>): State {
    if s.slot.None? then
      s.(slot := Some(|s.flights|),
         flights := s.flights + [Flight(c, s.clock, floor, None, Fetching)],
         callers := s.callers[c := Caller(calledAt, floor, Leading(|s.flights|))])
    else
      s.(callers := s.callers[c := Caller(calledAt, floor,
           if floor.Some? then Queued(s.slot.value) else Joined(s.slot.value))])
  }

  // The fetch came back, reached the floor, and was applied and checkpointed.
  predicate Succeeds(f: Flight, fetched: Option<nat>, accepted: bool) {
    fetched.Some? && (f.floor.Some? ==> fetched.value >= f.floor.value) && accepted
  }

  // The promise of flight f settles: whoever returned it returns, whoever chained
  // on it goes on, or fails with it.
  function Released(c: Caller, f: nat, ok: bool): Caller {
    match c.status
    case Joined(g) => if g == f then c.(status := Returned(ok, f)) else c
    case Leading(g) => if g == f then c.(status := Returned(ok, f)) else c
    case Queued(g) => if g != f then c else if ok then c.(status := Resumable) else c.(status := Returned(false, f))
    case _ => c
  }

  function Next(s: State, ev: Event): State
    requires Enabled(s, ev)
  {
    var t := match ev
      case Call(c, floor) => Enter(s, c, s.clock, floor)
      case Settle(fetched, accepted) =>
        var f := s.flights[s.slot.value];
        var settled := f.(fetched := fetched, phase := Settled(Succeeds(f, fetched, accepted)));
        s.(flights := s.flights[s.slot.value := settled])
      case Clear =>
        var f := s.flights[s.slot.value];
        s.(slot := None,
           flights := s.flights[s.slot.value := f.(phase := Cleared(f.phase.ok))],
           callers := map c | c in s.callers :: Released(s.callers[c], s.slot.value, f.phase.ok))
      case Resume(c) => Enter(s, c, s.callers[c].calledAt, s.callers[c].floor);
    t.(clock := t.clock + 1)
  }

  predicate Possible(s: State, evs: seq<Event>)
    decreases |evs|
  {
    evs == [] || (Enabled(s, evs[0]) && Possible(Next(s, evs[0]), evs[1..]))
  }

  function Run(s: State, evs: seq<Event>): State
    requires Possible(s, evs)
    decreases |evs|
  {
    if evs == [] then s else Run(Next(s, evs[0]), evs[1..])
  }

  // ---------- Safety ----------

  predicate FlightInv(s: State, i: nat)
    requires i < |s.flights|
  {
    var f := s.flights[i];
    && (s.slot == Some(i) <==> !f.phase.Cleared?)
    && f.begunAt < s.clock
    && (!f.phase.Fetching? && f.phase.ok ==> f.fetched.Some? && (f.floor.Some? ==> f.fetched.value >= f.floor.value))
  }

  // A flight a caller with a floor leads or has returned from is its own, was begun
  // after its call, and has its floor.
  predicate OwnFlight(s: State, c: nat, i: nat)
    requires c in s.callers
  {
    && i < |s.flights|
    && s.flights[i].owner == c && s.flights[i].floor == s.callers[c].floor
    && s.callers[c].calledAt <= s.flights[i].begunAt
  }

  predicate CallerInv(s: State, c: nat)
    requires c in s.callers
  {
    var x := s.callers[c];
    && x.calledAt < s.clock
    && match x.status
       case Joined(i) => s.slot == Some(i) && x.floor.None?
       case Queued(i) => s.slot == Some(i) && x.floor.Some?
       case Resumable => x.floor.Some?
       case Leading(i) => s.slot == Some(i) && OwnFlight(s, c, i)
       case Returned(ok, i) =>
         && i < |s.flights| && s.flights[i].phase.Cleared?
         && (ok ==> s.flights[i].phase.ok)
         && (ok && x.floor.Some? ==> OwnFlight(s, c, i))
  }

  predicate Inv(s: State) {
    && (s.slot.Some? ==> s.slot.value < |s.flights|)
    && (forall i | 0 <= i < |s.flights| :: FlightInv(s, i))
    && (forall c | c in s.callers :: CallerInv(s, c))
  }

  lemma StepKeepsInv(s: State, ev: Event)
    requires Inv(s) && Enabled(s, ev)
    ensures Inv(Next(s, ev))
  {
    var t := Next(s, ev);
    forall i | 0 <= i < |t.flights| ensures FlightInv(t, i) {
      assert i < |s.flights| ==> FlightInv(s, i);
    }
    forall c | c in t.callers ensures CallerInv(t, c) {
      assert c in s.callers ==> CallerInv(s, c);
    }
  }

  lemma {:induction false} RunKeepsInv(s: State, evs: seq<Event>)
    requires Inv(s) && Possible(s, evs)
    ensures Inv(Run(s, evs))
    decreases |evs|
  {
    hide Inv, Next;
    if evs != [] {
      StepKeepsInv(s, evs[0]);
      RunKeepsInv(Next(s, evs[0]), evs[1..]);
    }
  }

  // At every moment at most one refresh of the stream is fetching, and until its slot
  // is cleared no other begins.
  lemma OneAtATime(evs: seq<Event>, i: nat, j: nat)
    requires Possible(Initial, evs)
    requires i < |Run(Initial, evs).flights| && j < |Run(Initial, evs).flights|
    requires !Run(Initial, evs).flights[i].phase.Cleared? && !Run(Initial, evs).flights[j].phase.Cleared?
    ensures i == j
  {
    hide Run, Possible;
    assert Inv(Initial);
    RunKeepsInv(Initial, evs);
    var s := Run(Initial, evs);
    assert FlightInv(s, i) && FlightInv(s, j);
  }

  // A call with a generation that succeeds rests on a fetch of its own, begun after
  // the call, whose cursor reached the generation.
  lemma GenerationIsReached(evs: seq<Event>, c: nat)
    requires Possible(Initial, evs)
    requires var s := Run(Initial, evs);
      c in s.callers && s.callers[c].floor.Some? && s.callers[c].status.Returned? && s.callers[c].status.ok
    ensures var s := Run(Initial, evs);
      var x := s.callers[c];
      var i := x.status.flight;
      && i < |s.flights|
      && s.flights[i].owner == c
      && s.flights[i].begunAt >= x.calledAt
      && s.flights[i].fetched.Some? && s.flights[i].fetched.value >= x.floor.value
  {
    hide Run, Possible;
    assert Inv(Initial);
    RunKeepsInv(Initial, evs);
    var s := Run(Initial, evs);
    assert CallerInv(s, c) && FlightInv(s, s.callers[c].status.flight);
  }

  // ---------- What a fetch means for those who wait for it ----------

  predicate SlotSettled(s: State) {
    s.slot.Some? && s.slot.value < |s.flights| && s.flights[s.slot.value].phase.Settled?
  }

  // Until the slot is cleared nothing changes for them.
  lemma {:induction false} WaitersStay(s: State, evs: seq<Event>, c: nat)
    requires SlotSettled(s) && Possible(s, evs) && c in s.callers && !s.callers[c].status.Resumable?
    requires forall ev | ev in evs :: !ev.Clear?
    ensures var t := Run(s, evs);
      && SlotSettled(t) && t.slot == s.slot && t.flights[t.slot.value] == s.flights[s.slot.value]
      && c in t.callers && t.callers[c] == s.callers[c]
    decreases |evs|
  {
    if evs != [] {
      assert evs[0] in evs;
      WaitersStay(Next(s, evs[0]), evs[1..], c);
    }
  }

  // A fetch succeeds exactly if it brought a cursor that reaches the generation asked
  // for, if one was, and the snapshot was applied and checkpointed. Once its slot is
  // cleared, whoever led it or joined it has that answer, and whoever queued behind it
  // may go on after a success and has failed otherwise.
  lemma WaitersGetTheAnswer(s: State, fetched: Option<nat>, accepted: bool, evs: seq<Event>, c: nat)
    requires Inv(s) && Enabled(s, Settle(fetched, accepted)) && c in s.callers
    requires Possible(Next(s, Settle(fetched, accepted)), evs) && forall ev | ev in evs :: !ev.Clear?
    requires s.callers[c].status.Leading? || s.callers[c].status.Joined? || s.callers[c].status.Queued?
    ensures var t, f := Run(Next(s, Settle(fetched, accepted)), evs), s.flights[s.slot.value];
      var ok := accepted && fetched.Some? && (f.floor.None? || fetched.value >= f.floor.value);
      && Enabled(t, Clear) && c in Next(t, Clear).callers
      && Next(t, Clear).callers[c].status ==
         if s.callers[c].status.Queued? && ok then Resumable else Returned(ok, s.slot.value)
  {
    hide Run, Possible;
    assert CallerInv(s, c);
    WaitersStay(Next(s, Settle(fetched, accepted)), evs, c);
  }

  // ---------- Draining ----------

  function Waiters(s: State): set<nat> {
    set c | c in s.callers && (s.callers[c].status.Queued? || s.callers[c].status.Resumable?)
  }

  function Resumables(s: State): set<nat> {
    set c | c in s.callers && s.callers[c].status.Resumable?
  }

  function StepsOfSlot(s: State): nat {
    if s.slot.None? || s.slot.value >= |s.flights| then 0 else if s.flights[s.slot.value].phase.Fetching? then 2 else 1
  }

  function Measure(s: State): nat {
    var w := |Waiters(s)|;
    w * (w + 4) + StepsOfSlot(s) * (w + 1) + |Resumables(s)|
  }

  lemma SubsetCard(a: set<nat>, b: set<nat>)
    requires a <= b
    ensures |a| <= |b|
  {
    assert b == a + (b - a);
  }

  lemma ClearMeasure(s: State)
    requires Inv(s) && Enabled(s, Clear)
    ensures Measure(Next(s, Clear)) < Measure(s)
  {
    var t := Next(s, Clear);
    SubsetCard(Waiters(t), Waiters(s));
    var w, w' := |Waiters(s)|, |Waiters(t)|;
    assert StepsOfSlot(s) == 1 && StepsOfSlot(t) == 0;
    if s.flights[s.slot.value].phase.ok {
      SubsetCard(Resumables(t), Waiters(s));
      assert Waiters(t) == Waiters(s) by {
        forall c | c in Waiters(s) ensures c in Waiters(t) { assert c in t.callers; }
      }
    } else {
      assert Resumables(t) == Resumables(s) by {
        forall c | c in Resumables(s) ensures c in Resumables(t) { assert c in t.callers; }
      }
      assert w' * (w' + 4) <= w * (w + 4);
    }
  }

  lemma ResumeMeasure(s: State, c: nat)
    requires Inv(s) && Enabled(s, Resume(c))
    ensures Measure(Next(s, Resume(c))) < Measure(s)
  {
    var t := Next(s, Resume(c));
    assert CallerInv(s, c);
    assert Resumables(t) == Resumables(s) - {c};
    if s.slot.None? {
      assert Waiters(t) == Waiters(s) - {c};
      var w := |Waiters(s)|;
      assert w >= 1 && |Waiters(t)| == w - 1;
      assert (w - 1) * (w - 1 + 4) + 2 * w == w * (w + 4) - 3;
    } else {
      assert Waiters(t) == Waiters(s);
    }
  }

  lemma SettleMeasure(s: State, ev: Event)
    requires Inv(s) && Enabled(s, ev) && ev.Settle?
    ensures Measure(Next(s, ev)) < Measure(s)
  {
    var t := Next(s, ev);
    assert Waiters(t) == Waiters(s) && Resumables(t) == Resumables(s);
  }

  // Without new calls, no run is longer than the measure of its first state.
  lemma {:induction false} RunsEnd(s: State, evs: seq<Event>)
    requires Inv(s) && Possible(s, evs)
    requires forall ev | ev in evs :: !ev.Call?
    ensures |evs| + Measure(Run(s, evs)) <= Measure(s)
    decreases |evs|
  {
    hide Next, Measure;
    if evs != [] {
      var ev := evs[0];
      match ev {
        case Settle(_, _) => SettleMeasure(s, ev);
        case Clear => ClearMeasure(s);
        case Resume(c) => ResumeMeasure(s, c);
      }
      StepKeepsInv(s, ev);
      RunsEnd(Next(s, ev), evs[1..]);
    }
  }

  // As long as a call has not returned, something other than a new call can happen.
  lemma NotStuck(s: State, c: nat)
    requires Inv(s) && c in s.callers && !s.callers[c].status.Returned?
    ensures exists ev :: Enabled(s, ev) && !ev.Call?
  {
    assert CallerInv(s, c);
    if s.callers[c].status.Resumable? {
      assert Enabled(s, Resume(c));
    } else {
      var i := s.slot.value;
      assert FlightInv(s, i);
      if s.flights[i].phase.Fetching? {
        assert Enabled(s, Settle(None, false));
      } else {
        assert Enabled(s, Clear);
      }
    }
  }

  // So every finite set of calls drains: a run without new calls that cannot be
  // extended has returned them all, and none is longer than the measure.
  lemma CallsDrain(s: State, evs: seq<Event>, c: nat)
    requires Inv(s) && Possible(s, evs)
    requires forall ev | ev in evs :: !ev.Call?
    requires forall ev | Enabled(Run(s, evs), ev) :: ev.Call?
    requires c in Run(s, evs).callers
    ensures Run(s, evs).callers[c].status.Returned?
    ensures |evs| <= Measure(s)
  {
    hide Inv, Next, Run, Possible, Measure;
    RunKeepsInv(s, evs);
    RunsEnd(s, evs);
    if !Run(s, evs).callers[c].status.Returned? {
      NotStuck(Run(s, evs), c);
    }
  }
}
