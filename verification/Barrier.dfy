/** `src/lock/barrier.rs`: a counter, a generation, and one event the early arrivals sleep on. */
module BarrierModel {
  import opened Prelude
  import opened Notifications
  import opened EventModel
  import opened EventWakes

  datatype Core<Id> = Core(event: EventState<Id, ()>, n: nat, count: nat, generation: nat)

  /** Where a `wait` future stands: not polled yet, or waiting with its `local_gen`. */
  datatype Stage = Unpolled | AtWait(localGen: nat)

  datatype Outcome = Waiting(localGen: nat) | Returned(isLeader: bool)

  const EVERYONE := Plain(USIZE_MAX, ())

  /** The loop of `wait` from its condition, the listener not in the list, to the next `.await`. */
  function Check<Id(==)>(c: Core<Id>, id: Id, localGen: nat, w: Waker): (Core<Id>, Outcome) {
    if localGen == c.generation && c.count < c.n
    then (c.(event := PollListener(c.event, id, w).0), Waiting(localGen))
    else (c, Returned(false))
  }

  function Arrive<Id(==)>(c: Core<Id>, id: Id, w: Waker): (Core<Id>, Outcome) {
    var c1 := c.(count := c.count + 1);
    if c1.count < c1.n then Check(c1, id, c.generation, w)
    else (Core(Notify(c.event, EVERYONE), c.n, 0, c.generation + 1), Returned(true))
  }

  /** One poll of the future of `wait`. */
  function PollWait<Id(==)>(c: Core<Id>, id: Id, at: Stage, w: Waker): (Core<Id>, Outcome) {
    match at
    case Unpolled => Arrive(c, id, w)
    case AtWait(localGen) =>
      var (e, r) := PollListener(c.event, id, w);
      if r.Pending? then (c.(event := e), Waiting(localGen)) else Check(c.(event := e), id, localGen, w)
  }

  function CancelWait<Id(==)>(c: Core<Id>, id: Id): Core<Id> { c.(event := DropListener(c.event, id)) }

  // ----- every run

  /** An arrival, with the generation its call read. */
  datatype Arrival = Arrival(id: nat, localGen: nat)

  /** `arrived` logs the first polls in order, `leaders` the arrivals that returned as leader by
      their position in `arrived`, `released` the calls that returned as non-leader. */
  datatype State = State(
    core: Core<nat>, calls: map<nat, Stage>, arrived: seq<Arrival>, leaders: seq<nat>, released: seq<Arrival>)

  datatype Action =
    | StartCall(id: nat)
    | PollCall(id: nat, w: Waker)
    | CancelCall(id: nat)

  function Init(n: nat): State { State(Core(Empty(), n, 0, 0), map[], [], [], []) }

  /** The state after a poll of call `id`, suspended at `at` before; the other calls are those of `s`. */
  function After(s: State, id: nat, at: Stage, c: Core<nat>, out: Outcome): State {
    var log := if at.Unpolled? then s.arrived + [Arrival(id, s.core.generation)] else s.arrived;
    match out
    case Waiting(g) => s.(core := c, calls := s.calls[id := AtWait(g)], arrived := log)
    case Returned(true) => s.(core := c, arrived := log, leaders := s.leaders + [|s.arrived|])
    case Returned(false) =>
      s.(core := c, arrived := log,
         released := s.released + [Arrival(id, if at.AtWait? then at.localGen else s.core.generation)])
  }

  /** One action; one that is not possible changes nothing. The address space leaves room for fewer
      than `usize::MAX` calls at a time. */
  function Step(s: State, a: Action): State {
    match a
    case StartCall(id) =>
      if id in s.calls || |s.calls| + 1 >= USIZE_MAX then s else s.(calls := s.calls[id := Unpolled])
    case PollCall(id, w) =>
      if id !in s.calls then s
      else
        var (c, out) := PollWait(s.core, id, s.calls[id], w);
        After(s.(calls := s.calls - {id}), id, s.calls[id], c, out)
    case CancelCall(id) =>
      if id !in s.calls then s else s.(core := CancelWait(s.core, id), calls := s.calls - {id})
  }

  function Run(s: State, acts: seq<Action>): State
    decreases |acts|
  {
    if |acts| == 0 then s else Run(Step(s, acts[0]), acts[1..])
  }

  function Queue(s: State): seq<nat> { Order(s.core.event) }

  /** A generation takes `n` arrivals, and at least one. */
  function Size(n: nat): nat { Max(n, 1) }

  /** The arrival at position `i` belongs to generation `g`. */
  predicate InGeneration(i: nat, g: nat, n: nat) {
    g * Size(n) <= i < g * Size(n) + Size(n)
  }

  ghost predicate Counted(s: State, n: nat) {
    && s.core.n == n && s.core.count < Size(n)
    && |s.arrived| == s.core.generation * Size(n) + s.core.count
    && (forall i :: 0 <= i < |s.arrived| ==> InGeneration(i, s.arrived[i].localGen, n))
    && |s.leaders| == s.core.generation
    && (forall g :: 0 <= g < |s.leaders| ==> s.leaders[g] == g * Size(n) + Size(n) - 1)
    && (forall k :: 0 <= k < |s.released| ==> s.released[k].localGen < s.core.generation)
  }

  ghost predicate Listed(s: State) {
    var e := s.core.event;
    && Wf(e)
    && (forall id :: id in Queue(s) <==> id in s.calls && s.calls[id].AtWait?)
    && (forall id :: id in s.calls && s.calls[id].AtWait? ==> s.core.n >= 2 && s.calls[id].localGen <= s.core.generation)
    && (forall id :: id in Ids(e.waiting) && id in s.calls ==> s.calls[id] == AtWait(s.core.generation))
  }

  ghost predicate Inv(s: State, n: nat) { Counted(s, n) && Listed(s) && |s.calls| < USIZE_MAX }

  lemma NextGeneration(g: nat, m: nat)
    ensures (g + 1) * m == g * m + m
  {
  }

  lemma ArriveCounted(s: State, n: nat, id: nat, w: Waker)
    requires Counted(s, n)
    ensures var (c, out) := Arrive(s.core, id, w); Counted(After(s, id, Unpolled, c, out), n)
  {
    NextGeneration(s.core.generation, Size(n));
  }

  lemma WaitListed(s: State, id: nat, at: Stage, w: Waker)
    requires Listed(s) && id !in s.calls && s.core.count < s.core.n && s.core.n >= 2
    ensures var (c, out) := Check(s.core, id, s.core.generation, w); Listed(After(s, id, at, c, out))
  {
    var e := s.core.event;
    Members(e);
    PollPending(e, id, w);
  }

  lemma LeadListed(s: State, id: nat)
    requires Listed(s) && id !in s.calls && |s.calls| < USIZE_MAX
    ensures var c := Core(Notify(s.core.event, EVERYONE), s.core.n, 0, s.core.generation + 1);
            Listed(After(s, id, Unpolled, c, Returned(true)))
  {
    DistinctFits(Queue(s), s.calls.Keys);
    NotifyEveryone(s.core.event, EVERYONE);
  }

  /** The first poll of a call: it arrives, and leads or waits. */
  lemma ArriveKeeps(s: State, n: nat, id: nat, w: Waker)
    requires Counted(s, n) && Listed(s) && id !in s.calls && |s.calls| < USIZE_MAX
    ensures var (c, out) := Arrive(s.core, id, w); var s' := After(s, id, Unpolled, c, out); Counted(s', n) && Listed(s')
  {
    ArriveCounted(s, n, id, w);
    if s.core.count + 1 < n {
      WaitListed(s.(core := s.core.(count := s.core.count + 1)), id, Unpolled, w);
    } else {
      LeadListed(s, id);
    }
  }

  lemma WakeListed(s: State, id: nat, w: Waker)
    requires Listed(s) && id in s.calls && IsNotified(s.core.event, id)
    ensures Listed(s.(calls := s.calls - {id}, core := s.core.(event := PollListener(s.core.event, id, w).0)))
  {
    Members(s.core.event);
    PollReady(s.core.event, id, w);
  }

  /** A pending poll of a listed call changes nothing but its waker. */
  lemma SleepPoll(e: EventState<nat, ()>, id: nat, w: Waker)
    requires Wf(e) && id in Order(e) && !IsNotified(e, id)
    ensures var (e', r) := PollListener(e, id, w);
            r == Pending && Wf(e') && Order(e') == Order(e) && Ids(e'.waiting) == Ids(e.waiting)
  {
    Members(e);
    RegisterOrder(e, id, w);
  }

  lemma SleepListed(s: State, id: nat, w: Waker)
    requires Listed(s) && id in s.calls && s.calls[id].AtWait? && !IsNotified(s.core.event, id)
    ensures Step(s, PollCall(id, w)).calls == s.calls
    ensures Listed(Step(s, PollCall(id, w)))
  {
    assert id in Queue(s);
    SleepPoll(s.core.event, id, w);
    assert Step(s, PollCall(id, w)) == s.(core := s.core.(event := PollListener(s.core.event, id, w).0)) by {
      assert (s.calls - {id})[id := s.calls[id]] == s.calls;
    }
  }

  /** A notified call of the running generation waits again, with nothing counted twice; one of a
      past generation returns. */
  lemma WakeKeeps(s: State, n: nat, id: nat, w: Waker)
    requires Inv(s, n) && id in s.calls && s.calls[id].AtWait? && IsNotified(s.core.event, id)
    ensures var s' := Step(s, PollCall(id, w)); Counted(s', n) && Listed(s')
    ensures var (c, out) := PollWait(s.core, id, s.calls[id], w);
            out == (if s.calls[id].localGen == s.core.generation then Waiting(s.core.generation) else Returned(false))
            && c.count == s.core.count && c.generation == s.core.generation
  {
    var others := s.(calls := s.calls - {id});
    WakeListed(s, id, w);
    if s.calls[id].localGen == s.core.generation {
      WaitListed(others.(core := s.core.(event := PollListener(s.core.event, id, w).0)), id, s.calls[id], w);
    }
  }

  lemma PollKeeps(s: State, n: nat, id: nat, w: Waker)
    requires Inv(s, n) && id in s.calls
    ensures Inv(Step(s, PollCall(id, w)), n)
  {
    var others := s.(calls := s.calls - {id});
    assert |others.calls| == |s.calls| - 1;
    var (c, out) := PollWait(s.core, id, s.calls[id], w);
    Members(s.core.event);
    if s.calls[id] == Unpolled {
      ArriveKeeps(others, n, id, w);
    } else if IsNotified(s.core.event, id) {
      WakeKeeps(s, n, id, w);
    } else {
      SleepListed(s, id, w);
    }
  }

  lemma CancelKeeps(s: State, n: nat, id: nat)
    requires Inv(s, n) && id in s.calls
    ensures Inv(Step(s, CancelCall(id)), n)
  {
    assert |s.calls - {id}| == |s.calls| - 1;
    DropKeeps(s.core.event, id);
  }

  lemma StepKeeps(s: State, n: nat, a: Action)
    requires Inv(s, n)
    ensures Inv(Step(s, a), n)
  {
    match a
    case StartCall(id) =>
    case PollCall(id, w) =>
      if id in s.calls { PollKeeps(s, n, id, w); }
    case CancelCall(id) =>
      if id in s.calls { CancelKeeps(s, n, id); }
  }

  lemma {:induction false} RunKeeps(s: State, n: nat, acts: seq<Action>)
    requires Inv(s, n)
    ensures Inv(Run(s, acts), n)
    decreases |acts|
  {
    if |acts| > 0 {
      StepKeeps(s, n, acts[0]);
      RunKeeps(Step(s, acts[0]), n, acts[1..]);
    }
  }

  /** Arrivals are counted exactly: generation `g` is the arrivals at positions g * max(n, 1) and
      up, its last one is its only leader, and a non-leader returns only once its generation is over. */
  lemma BarrierCounts(n: nat, acts: seq<Action>)
    ensures var s := Run(Init(n), acts);
            && |s.arrived| == s.core.generation * Max(n, 1) + s.core.count && s.core.count < Max(n, 1)
            && (forall i :: 0 <= i < |s.arrived| ==>
                  s.arrived[i].localGen * Max(n, 1) <= i < s.arrived[i].localGen * Max(n, 1) + Max(n, 1))
            && |s.leaders| == s.core.generation
            && (forall g :: 0 <= g < |s.leaders| ==> s.leaders[g] == g * Max(n, 1) + Max(n, 1) - 1)
            && (forall k :: 0 <= k < |s.released| ==> s.released[k].localGen < s.core.generation)
  {
    RunKeeps(Init(n), n, acts);
    var s := Run(Init(n), acts);
    assert forall i :: 0 <= i < |s.arrived| ==> InGeneration(i, s.arrived[i].localGen, n);
  }

  /** Every call of a past generation is notified and returns at its next poll; a call of the
      running generation that is polled, notified or not, goes on waiting and changes no count. */
  lemma BarrierReleases(n: nat, acts: seq<Action>, id: nat, w: Waker)
    ensures var s := Run(Init(n), acts);
            id in s.calls && s.calls[id].AtWait? ==>
              var g := s.calls[id].localGen; var (c, out) := PollWait(s.core, id, s.calls[id], w);
              && g <= s.core.generation
              && (g < s.core.generation ==> IsNotified(s.core.event, id) && out == Returned(false))
              && (g == s.core.generation ==> out == Waiting(g))
              && c.count == s.core.count && c.generation == s.core.generation
  {
    RunKeeps(Init(n), n, acts);
    var s := Run(Init(n), acts);
    Members(s.core.event);
    if id in s.calls && s.calls[id].AtWait? {
      assert id in Queue(s);
      if IsNotified(s.core.event, id) {
        WakeKeeps(s, n, id, w);
      } else {
        PollPending(s.core.event, id, w);
      }
    }
  }

  // ----- the wakers

  /** The waker of each call's latest poll. */
  function Later(s: State, latest: map<nat, Waker>, a: Action): map<nat, Waker> {
    if a.PollCall? && a.id in s.calls then latest[a.id := a.w] else latest
  }

  function Latest(s: State, latest: map<nat, Waker>, acts: seq<Action>): map<nat, Waker>
    decreases |acts|
  {
    if |acts| == 0 then latest else Latest(Step(s, acts[0]), Later(s, latest, acts[0]), acts[1..])
  }

  /** A poll sleeps, or it is that of the last arrival and notifies everyone, or it returns. */
  lemma WaitTends(c: Core<nat>, id: nat, at: Stage, w: Waker, latest: map<nat, Waker>)
    requires Wf(c.event) && Alert(c.event, latest) && (at.AtWait? <==> id in Order(c.event))
    ensures Tended(c.event, PollWait(c, id, at, w).0.event, latest[id := w])
  {
    LoopTended(c.event, id, w, latest);
    Members(c.event);
    if at == Unpolled {
      NotifyTended(c.event, EVERYONE, latest[id := w]);
    }
  }

  lemma PollTends(s: State, n: nat, id: nat, w: Waker, latest: map<nat, Waker>)
    requires Inv(s, n) && Alert(s.core.event, latest) && id in s.calls
    ensures Tended(s.core.event, Step(s, PollCall(id, w)).core.event, latest[id := w])
  {
    WaitTends(s.core, id, s.calls[id], w, latest);
  }

  lemma StepTends(s: State, n: nat, a: Action, latest: map<nat, Waker>)
    requires Inv(s, n) && Alert(s.core.event, latest)
    ensures Tended(s.core.event, Step(s, a).core.event, Later(s, latest, a))
  {
    Asleep(s.core.event, s.core.event, latest);
    match a
    case StartCall(id) =>
    case PollCall(id, w) => if id in s.calls { PollTends(s, n, id, w, latest); }
    case CancelCall(id) => DropTended(s.core.event, id, latest);
  }

  lemma {:induction false} RunTends(s: State, n: nat, latest: map<nat, Waker>, acts: seq<Action>)
    requires Inv(s, n) && Alert(s.core.event, latest)
    ensures Alert(Run(s, acts).core.event, Latest(s, latest, acts))
    decreases |acts|
  {
    if |acts| > 0 {
      StepKeeps(s, n, acts[0]);
      StepTends(s, n, acts[0], latest);
      RunTends(Step(s, acts[0]), n, Later(s, latest, acts[0]), acts[1..]);
    }
  }

  /** In every run a waiting call holds a waker like that of its latest poll, and what an action
      wakes are the calls it newly notifies, each by its own such waker. */
  lemma WakesExactly(n: nat, acts: seq<Action>, a: Action)
    ensures var s, latest := Run(Init(n), acts), Latest(Init(n), map[], acts);
            && Alert(s.core.event, latest)
            && Called(s.core.event, Step(s, a).core.event, Later(s, latest, a))
  {
    RunKeeps(Init(n), n, acts);
    RunTends(Init(n), n, map[], acts);
    StepTends(Run(Init(n), acts), n, a, Latest(Init(n), map[], acts));
  }
}

/** The barrier as the source has it, over the linked list. */
module BarrierObject {
  import opened Prelude
  import opened EventModel
  import EventList
  import M = BarrierModel

  class Barrier {
    const n: nat
    const event: EventList.Event<()>
    var count: nat
    var generation: nat

    ghost predicate Valid()
      reads this, event, event.listeners
    {
      event.Valid()
    }

    ghost function Core(): M.Core<EventList.Listener<()>>
      reads this, event
    {
      M.Core(event.model, n, count, generation)
    }

    constructor (n: nat)
      ensures Valid() && Core() == M.Core(Empty(), n, 0, 0)
    {
      event := new EventList.Event<()>();
      this.n, count, generation := n, 0, 0;
    }

    /** Poll the listener; a ready one is out of the list. */
    method AwaitLeader(l: EventList.Listener<()>, w: Waker) returns (r: Poll<()>)
      requires Valid() && l in event.listeners
      modifies this, event, event.listeners
      ensures Valid() && event.listeners == old(event.listeners)
      ensures Core() == old(Core()).(event := PollListener(old(event.model), l, w).0)
      ensures r == PollListener(old(event.model), l, w).1
      ensures r.Ready? <==> IsNotified(old(event.model), l)
      ensures r.Ready? ==> !IsNotified(event.model, l)
    {
      event.Tidy(l, w);
      r := event.Poll(l, w);
    }

    /** The loop of `wait`, entered at its condition or resumed at its `.await`. */
    method WaitLoop(l: EventList.Listener<()>, localGen: nat, resumed: bool, w: Waker) returns (out: M.Outcome)
      requires Valid() && l in event.listeners && (!resumed ==> !l.inList)
      modifies this, event, event.listeners
      ensures Valid() && event.listeners == old(event.listeners)
      ensures (Core(), out) == if resumed then M.PollWait(old(Core()), l, M.AtWait(localGen), w)
                               else M.Check(old(Core()), l, localGen, w)
    {
      event.Tidy(l, w);
      var suspended := resumed;
      while suspended || (localGen == generation && count < n)
        invariant Valid() && event.listeners == old(event.listeners)
        invariant suspended ==> resumed && Core() == old(Core())
        invariant !suspended ==>
                    && !IsNotified(event.model, l)
                    && M.Check(Core(), l, localGen, w)
                       == if resumed then M.PollWait(old(Core()), l, M.AtWait(localGen), w)
                          else M.Check(old(Core()), l, localGen, w)
        decreases suspended
      {
        var r := AwaitLeader(l, w);
        if r.Pending? {
          return M.Waiting(localGen);
        }
        suspended := false;
      }
      return M.Returned(false);
    }

    /** One poll of a `wait` future with listener `l`, suspended at `at`. */
    method PollWait(l: EventList.Listener<()>, at: M.Stage, w: Waker) returns (out: M.Outcome)
      requires Valid() && l in event.listeners && (at.Unpolled? ==> !l.inList)
      modifies this, event, event.listeners
      ensures Valid() && event.listeners == old(event.listeners)
      ensures (Core(), out) == M.PollWait(old(Core()), l, at, w)
    {
      if at.AtWait? {
        out := WaitLoop(l, at.localGen, true, w);
        return;
      }
      var localGen := generation;
      count := count + 1;
      if count < n {
        out := WaitLoop(l, localGen, false, w);
      } else {
        count := 0;
        generation := localGen + 1;
        var k, rest := event.Notify(M.EVERYONE);
        out := M.Returned(true);
      }
    }

    /** The future of `wait` is dropped before it returned; its arrival stays counted. */
    method CancelWait(l: EventList.Listener<()>)
      requires Valid() && l in event.listeners
      modifies this, event, event.listeners
      ensures Valid() && event.listeners == old(event.listeners)
      ensures Core() == M.CancelWait(old(Core()), l)
    {
      event.Drop(l);
    }
  }
}
