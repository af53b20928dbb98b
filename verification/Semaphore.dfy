/** `src/lock/semaphore.rs`: permits, and one event its waiters sleep on. */
module SemaphoreModel {
  import opened Prelude
  import opened Notifications
  import opened EventModel
  import opened EventWakes

  datatype Core<Id> = Core(event: EventState<Id, ()>, permits: nat)

  const ONE := Plain(1, ())

  /** `try_acquire` and `try_acquire_rc`. */
  function TryAcquire<Id>(c: Core<Id>): (Core<Id>, bool) {
    if c.permits > 0 then (c.(permits := c.permits - 1), true) else (c, false)
  }

  /** `acquire` from the top of its loop, its listener not in the list, to its next `.await`. */
  function Retry<Id(==)>(c: Core<Id>, id: Id, w: Waker): (Core<Id>, bool) {
    var (c', ok) := TryAcquire(c);
    if ok then (c', true) else (c.(event := PollListener(c.event, id, w).0), false)
  }

  /** One poll of the future of `acquire` or `acquire_rc`; did it return a guard? */
  function PollAcquire<Id(==)>(c: Core<Id>, id: Id, at: Point, w: Waker): (Core<Id>, bool) {
    if at == Start then Retry(c, id, w)
    else
      var (e, r) := PollListener(c.event, id, w);
      if r.Pending? then (c.(event := e), false) else Retry(c.(event := e), id, w)
  }

  /** The drop of either kind of guard. */
  function Release<Id>(c: Core<Id>): Core<Id> { Core(Notify(c.event, ONE), c.permits + 1) }

  function CancelAcquire<Id(==)>(c: Core<Id>, id: Id): Core<Id> { c.(event := DropListener(c.event, id)) }

  // ----- every run

  /** `SemaphoreGuard` borrows the semaphore, `SemaphoreGuardRc` shares it. */
  datatype Kind = Borrowed | Shared

  datatype Call = Call(kind: Kind, at: Point)

  datatype State = State(core: Core<nat>, calls: map<nat, Call>, borrowed: nat, shared: nat)

  datatype Action =
    | StartCall(id: nat, kind: Kind)
    | PollCall(id: nat, w: Waker)
    | CancelCall(id: nat)
    | TryAcquireNow(kind: Kind)
    | DropGuard(kind: Kind)

  function Init(n: nat): State { State(Core(Empty(), n), map[], 0, 0) }

  function Guards(s: State): nat { s.borrowed + s.shared }

  function Grant(s: State, kind: Kind): State {
    if kind.Borrowed? then s.(borrowed := s.borrowed + 1) else s.(shared := s.shared + 1)
  }

  /** The state after a poll of call `id`, the other calls being those of `s`. */
  function After(s: State, id: nat, kind: Kind, c: Core<nat>, got: bool): State {
    if got then Grant(s.(core := c), kind) else s.(core := c, calls := s.calls[id := Call(kind, Await)])
  }

  /** One action; one that is not possible changes nothing. */
  function Step(s: State, a: Action): State {
    match a
    case StartCall(id, kind) =>
      if id in s.calls then s else s.(calls := s.calls[id := Call(kind, Start)])
    case PollCall(id, w) =>
      if id !in s.calls then s
      else
        var (c, got) := PollAcquire(s.core, id, s.calls[id].at, w);
        After(s.(calls := s.calls - {id}), id, s.calls[id].kind, c, got)
    case CancelCall(id) =>
      if id !in s.calls then s else s.(core := CancelAcquire(s.core, id), calls := s.calls - {id})
    case TryAcquireNow(kind) =>
      var (c, ok) := TryAcquire(s.core);
      if ok then Grant(s.(core := c), kind) else s
    case DropGuard(Borrowed) =>
      if s.borrowed == 0 then s else s.(core := Release(s.core), borrowed := s.borrowed - 1)
    case DropGuard(Shared) =>
      if s.shared == 0 then s else s.(core := Release(s.core), shared := s.shared - 1)
  }

  function Run(s: State, acts: seq<Action>): State
    decreases |acts|
  {
    if |acts| == 0 then s else Run(Step(s, acts[0]), acts[1..])
  }

  function Queue(s: State): seq<nat> { Order(s.core.event) }

  ghost predicate Base(s: State, n: nat) {
    && Wf(s.core.event)
    && s.core.permits + Guards(s) == n
    && |s.core.event.notified| <= 1
    && (forall id :: id in Queue(s) <==> id in s.calls && s.calls[id].at == Await)
  }

  /** With one permit at most, a free permit keeps the list awake; with more, only the absence of
      guards does. */
  ghost predicate Inv(s: State, n: nat) {
    && Base(s, n)
    && (Guards(s) == 0 && n > 0 ==> Awake(s.core.event))
  }

  lemma RetryKeeps(s: State, n: nat, id: nat, kind: Kind, w: Waker)
    requires Base(s, n) && id !in s.calls
    ensures var (c, got) := Retry(s.core, id, w); Inv(After(s, id, kind, c, got), n)
  {
    Members(s.core.event);
    if s.core.permits == 0 {
      PollPending(s.core.event, id, w);
    }
  }

  lemma WakeKeeps(s: State, n: nat, id: nat, w: Waker)
    requires Base(s, n) && id in s.calls && s.calls[id].at == Await && IsNotified(s.core.event, id)
    ensures Base(s.(calls := s.calls - {id}, core := s.core.(event := PollListener(s.core.event, id, w).0)), n)
  {
    PollReady(s.core.event, id, w);
  }

  lemma SleepKeeps(s: State, n: nat, id: nat, w: Waker)
    requires Inv(s, n) && id in s.calls && s.calls[id].at == Await && !IsNotified(s.core.event, id)
    ensures Inv(Step(s, PollCall(id, w)), n)
  {
    Members(s.core.event);
    PollPending(s.core.event, id, w);
  }

  lemma PollKeeps(s: State, n: nat, id: nat, w: Waker)
    requires Inv(s, n) && id in s.calls
    ensures Inv(Step(s, PollCall(id, w)), n)
  {
    var others := s.(calls := s.calls - {id});
    if s.calls[id].at == Start {
      RetryKeeps(others, n, id, s.calls[id].kind, w);
    } else if IsNotified(s.core.event, id) {
      WakeKeeps(s, n, id, w);
      RetryKeeps(others.(core := s.core.(event := PollListener(s.core.event, id, w).0)), n, id, s.calls[id].kind, w);
    } else {
      SleepKeeps(s, n, id, w);
    }
  }

  lemma CancelKeeps(s: State, n: nat, id: nat)
    requires Inv(s, n) && id in s.calls
    ensures Inv(Step(s, CancelCall(id)), n)
  {
    var e := s.core.event;
    DropKeeps(e, id);
  }

  lemma StepKeeps(s: State, n: nat, a: Action)
    requires Inv(s, n)
    ensures Inv(Step(s, a), n)
  {
    match a
    case StartCall(id, kind) =>
    case PollCall(id, w) =>
      if id in s.calls { PollKeeps(s, n, id, w); }
    case CancelCall(id) =>
      if id in s.calls { CancelKeeps(s, n, id); }
    case TryAcquireNow(kind) =>
    case DropGuard(kind) =>
      NotifyFacts(s.core.event, ONE);
  }

  lemma {:induction false} RunKeeps(s: State, n: nat, acts: seq<Action>)
    requires Inv(s, n)
    ensures Inv(Run(s, acts), n)
    decreases |acts|
  {
    if |acts| > 0 {
      StepKeeps(s, n, acts[0]);
      RunKeeps(Step(s, acts[0]), n, acts[1..]);
    }
  }

  lemma InvSafe(s: State, n: nat)
    requires Inv(s, n)
    ensures s.core.permits + s.borrowed + s.shared == n
    ensures forall id :: id in s.calls && s.calls[id].at == Await <==> id in Queue(s)
    ensures |Queue(s)| > 0 ==> |s.core.event.notified| > 0 || Guards(s) > 0 || n == 0
  {
    Members(s.core.event);
  }

  /** Permits are conserved, and a waiter is never forgotten: some listener is notified, or some
      guard is live whose drop will notify one, or there never was a permit. */
  lemma SemaphoreSafe(n: nat, acts: seq<Action>)
    ensures var s := Run(Init(n), acts);
            && s.core.permits + s.borrowed + s.shared == n
            && (forall id :: id in s.calls && s.calls[id].at == Await <==> id in Queue(s))
            && (|Queue(s)| > 0 ==> |s.core.event.notified| > 0 || Guards(s) > 0 || n == 0)
  {
    RunKeeps(Init(n), n, acts);
    InvSafe(Run(Init(n), acts), n);
  }

  /** A poll of a call gets a permit exactly when there is one and the call was not polled before or
      is notified; otherwise the call waits, where it was if it is not notified, and at the end of the
      list if it is notified in vain or new. */
  lemma PollsExactly(n: nat, acts: seq<Action>, id: nat, w: Waker)
    ensures var s := Run(Init(n), acts); var s' := Step(s, PollCall(id, w)); var q := Queue(s);
            id in s.calls ==>
              var tries := s.calls[id].at == Start || IsNotified(s.core.event, id);
              var rest := if id in q then Without(q, Pos(q, id)) else q;
              && s'.core.permits == s.core.permits - (if tries && s.core.permits > 0 then 1 else 0)
              && (if s'.core.permits < s.core.permits then s' == Grant(s, s.calls[id].kind).(core := s'.core, calls := s.calls - {id})
                  else s' == s.(core := s'.core, calls := s.calls[id := Call(s.calls[id].kind, Await)]))
              && Queue(s') == if !tries then q else if s.core.permits == 0 then rest + [id] else rest
  {
    RunKeeps(Init(n), n, acts);
    var s := Run(Init(n), acts);
    if id in s.calls {
      PollQueue(s, n, id, w);
      PollGrants(s, id, w);
    }
  }

  /** The drop of a guard gives one permit back and leaves one waiter notified if there is any, the list
      as it was. */
  lemma ReleasesExactly(n: nat, acts: seq<Action>, kind: Kind)
    ensures var s := Run(Init(n), acts); var s' := Step(s, DropGuard(kind)); var e, e' := s.core.event, s'.core.event;
            (if kind.Borrowed? then s.borrowed else s.shared) > 0 ==>
              && s'.core.permits == s.core.permits + 1 && s'.calls == s.calls
              && (if kind.Borrowed? then s'.borrowed == s.borrowed - 1 && s'.shared == s.shared
                  else s'.shared == s.shared - 1 && s'.borrowed == s.borrowed)
              && Order(e') == Order(e) && |e'.notified| == Max(|e.notified|, Min(1, |Order(e)|))
  {
    NotifyFacts(Run(Init(n), acts).core.event, ONE);
  }

  lemma PollGrants(s: State, id: nat, w: Waker)
    requires id in s.calls
    ensures var s', call := Step(s, PollCall(id, w)), s.calls[id]; var got := s'.core.permits < s.core.permits;
            s' == if got then Grant(s, call.kind).(core := s'.core, calls := s.calls - {id})
                  else s.(core := s'.core, calls := s.calls[id := Call(call.kind, Await)])
  {
    assert (s.calls - {id})[id := Call(s.calls[id].kind, Await)] == s.calls[id := Call(s.calls[id].kind, Await)];
  }

  lemma PollCore(c: Core<nat>, id: nat, at: Point, w: Waker)
    requires Wf(c.event) && (at == Await <==> id in Order(c.event))
    ensures var (c', got) := PollAcquire(c, id, at, w); var q := Order(c.event);
            var tries := at == Start || IsNotified(c.event, id);
            var rest := if id in q then Without(q, Pos(q, id)) else q;
            && got == (tries && c.permits > 0) && c'.permits == c.permits - (if got then 1 else 0)
            && Order(c'.event) == if !tries then q else if got then rest else rest + [id]
  {
    var e := c.event;
    Members(e);
    if IsNotified(e, id) {
      PollReady(e, id, w);
      Requeued(e, id, w);
    } else {
      PollPending(e, id, w);
    }
  }

  lemma PollQueue(s: State, n: nat, id: nat, w: Waker)
    requires Inv(s, n) && id in s.calls
    ensures var s', q := Step(s, PollCall(id, w)), Queue(s);
            var tries := s.calls[id].at == Start || IsNotified(s.core.event, id);
            var rest := if id in q then Without(q, Pos(q, id)) else q;
            && s'.core.permits == s.core.permits - (if tries && s.core.permits > 0 then 1 else 0)
            && Queue(s') == if !tries then q else if s.core.permits == 0 then rest + [id] else rest
  {
    var (c, got) := PollAcquire(s.core, id, s.calls[id].at, w);
    assert Step(s, PollCall(id, w)) == After(s.(calls := s.calls - {id}), id, s.calls[id].kind, c, got);
    AfterCore(s.(calls := s.calls - {id}), id, s.calls[id].kind, c, got);
    PollCore(s.core, id, s.calls[id].at, w);
  }

  lemma AfterCore(s: State, id: nat, kind: Kind, c: Core<nat>, got: bool)
    ensures After(s, id, kind, c, got).core == c
  {
  }

  // ----- the wakers

  /** The waker of each call's latest poll. */
  function Later(s: State, latest: map<nat, Waker>, a: Action): map<nat, Waker> {
    if a.PollCall? && a.id in s.calls then latest[a.id := a.w] else latest
  }

  function Latest(s: State, latest: map<nat, Waker>, acts: seq<Action>): map<nat, Waker>
    decreases |acts|
  {
    if |acts| == 0 then latest else Latest(Step(s, acts[0]), Later(s, latest, acts[0]), acts[1..])
  }

  lemma AcquireTends(c: Core<nat>, id: nat, at: Point, w: Waker, latest: map<nat, Waker>)
    requires Wf(c.event) && Alert(c.event, latest) && (at == Await <==> id in Order(c.event))
    ensures Tended(c.event, PollAcquire(c, id, at, w).0.event, latest[id := w])
  {
    LoopTended(c.event, id, w, latest);
    Members(c.event);
  }

  lemma PollTends(s: State, n: nat, id: nat, w: Waker, latest: map<nat, Waker>)
    requires Inv(s, n) && Alert(s.core.event, latest) && id in s.calls
    ensures Tended(s.core.event, Step(s, PollCall(id, w)).core.event, latest[id := w])
  {
    AcquireTends(s.core, id, s.calls[id].at, w, latest);
  }

  lemma StepTends(s: State, n: nat, a: Action, latest: map<nat, Waker>)
    requires Inv(s, n) && Alert(s.core.event, latest)
    ensures Tended(s.core.event, Step(s, a).core.event, Later(s, latest, a))
  {
    var e := s.core.event;
    Asleep(e, e, latest);
    match a
    case StartCall(id, kind) =>
    case PollCall(id, w) => if id in s.calls { PollTends(s, n, id, w, latest); }
    case CancelCall(id) => DropTended(e, id, latest);
    case TryAcquireNow(kind) =>
    case DropGuard(kind) => NotifyTended(e, ONE, latest);
  }

  lemma {:induction false} RunTends(s: State, n: nat, latest: map<nat, Waker>, acts: seq<Action>)
    requires Inv(s, n) && Alert(s.core.event, latest)
    ensures Alert(Run(s, acts).core.event, Latest(s, latest, acts))
    decreases |acts|
  {
    if |acts| > 0 {
      StepKeeps(s, n, acts[0]);
      StepTends(s, n, acts[0], latest);
      RunTends(Step(s, acts[0]), n, Later(s, latest, acts[0]), acts[1..]);
    }
  }

  /** In every run a waiting call holds a waker like that of its latest poll, and what an action
      wakes are the calls it newly notifies, each by its own such waker. */
  lemma WakesExactly(n: nat, acts: seq<Action>, a: Action)
    ensures var s, latest := Run(Init(n), acts), Latest(Init(n), map[], acts);
            && Alert(s.core.event, latest)
            && Called(s.core.event, Step(s, a).core.event, Later(s, latest, a))
  {
    RunKeeps(Init(n), n, acts);
    RunTends(Init(n), n, map[], acts);
    StepTends(Run(Init(n), acts), n, a, Latest(Init(n), map[], acts));
  }

  // ----- the stronger claim, and exactly when it holds

  /** A free permit and a waiter: then some waiter is notified. */
  predicate Prompt(s: State) { s.core.permits > 0 ==> Awake(s.core.event) }

  function Acquires(k: nat): seq<Action> { seq(k, i => TryAcquireNow(Borrowed)) }

  /** `k` times `try_acquire` takes `k` permits. */
  lemma {:induction false} Drain(n: nat, b: nat, k: nat, rest: seq<Action>)
    requires k <= n
    ensures Run(State(Core(Empty(), n), map[], b, 0), Acquires(k) + rest)
         == Run(State(Core(Empty(), n - k), map[], b + k, 0), rest)
    decreases k
  {
    var acts := Acquires(k) + rest;
    if k == 0 {
      assert acts == rest;
    } else {
      assert acts[1..] == Acquires(k - 1) + rest;
      Drain(n - 1, b + 1, k - 1, rest);
    }
  }

  /** A new call that finds no permit joins the end of the list. */
  lemma Enters(s: State, id: nat, w: Waker)
    requires s.core.permits == 0 && id !in s.calls && id !in Queue(s)
    ensures Step(Step(s, StartCall(id, Borrowed)), PollCall(id, w))
         == s.(core := s.core.(event := s.core.event.(waiting := s.core.event.waiting + [Slot(id, Some(w))])),
               calls := s.calls[id := Call(Borrowed, Await)])
  {
    PollNew(s.core.event, id, w);
    var s1 := Step(s, StartCall(id, Borrowed));
    assert s1.calls - {id} == s.calls;
  }

  /** Two guard drops in a row notify one waiter between them. */
  lemma TwoReleases(s: State)
    requires s.borrowed >= 2 && |s.core.event.notified| == 0 && |s.core.event.waiting| > 0
    ensures Step(Step(s, DropGuard(Borrowed)), DropGuard(Borrowed))
         == s.(core := Core(NotifyFirst(s.core.event, (), false), s.core.permits + 2), borrowed := s.borrowed - 2)
  {
    NotifyHead(s.core.event, ONE);
  }

  lemma {:induction false} Extend(s: State, acts: seq<Action>, a: Action)
    ensures Run(s, acts + [a]) == Step(Run(s, acts), a)
    decreases |acts|
  {
    if |acts| == 0 {
      assert acts + [a] == [a];
      assert Run(Step(s, a), []) == Step(s, a);
    } else {
      assert (acts + [a])[1..] == acts[1..] + [a];
      Extend(Step(s, acts[0]), acts[1..], a);
    }
  }

  lemma Extend2(s: State, acts: seq<Action>, a: Action, b: Action)
    ensures Run(s, acts + [a] + [b]) == Step(Step(Run(s, acts), a), b)
  {
    Extend(s, acts, a);
    Extend(s, acts + [a], b);
  }

  /** Two calls wait, two guards are dropped, the one notified call acquires: a permit is free and
      the other call sleeps on. */
  lemma Oversleeps(n: nat) returns (acts: seq<Action>)
    requires n >= 2
    ensures !Prompt(Run(Init(n), acts))
  {
    Drain(n, 0, n, []);
    acts := TwoWait(n, Acquires(n) + []);
    acts := SleepsOn(n, acts);
  }

  /** With every permit taken, two calls come to wait. */
  lemma TwoWait(n: nat, before: seq<Action>) returns (acts: seq<Action>)
    requires Run(Init(n), before) == State(Core(Empty(), 0), map[], n, 0)
    ensures Run(Init(n), acts)
         == State(Core(EventState([], [Sleeper(0), Sleeper(1)], []), 0),
                  map[0 := Call(Borrowed, Await), 1 := Call(Borrowed, Await)], n, 0)
  {
    var w := Waker(0, 0, 0);
    Enters(Run(Init(n), before), 0, w);
    Extend2(Init(n), before, StartCall(0, Borrowed), PollCall(0, w));
    acts := before + [StartCall(0, Borrowed)] + [PollCall(0, w)];
    var s2 := Run(Init(n), acts);
    assert Queue(s2) == [0];
    Enters(s2, 1, w);
    Extend2(Init(n), acts, StartCall(1, Borrowed), PollCall(1, w));
    acts := acts + [StartCall(1, Borrowed)] + [PollCall(1, w)];
  }

  function Sleeper(id: nat): Slot<nat, Option<Waker>> { Slot(id, Some(Waker(0, 0, 0))) }

  /** Two guards are dropped and the one notified call acquires. */
  lemma SleepsOn(n: nat, before: seq<Action>) returns (acts: seq<Action>)
    requires n >= 2
    requires Run(Init(n), before)
          == State(Core(EventState([], [Sleeper(0), Sleeper(1)], []), 0),
                   map[0 := Call(Borrowed, Await), 1 := Call(Borrowed, Await)], n, 0)
    ensures !Prompt(Run(Init(n), acts))
  {
    var w := Waker(0, 0, 0);
    TwoReleases(Run(Init(n), before));
    Extend2(Init(n), before, DropGuard(Borrowed), DropGuard(Borrowed));
    acts := before + [DropGuard(Borrowed)] + [DropGuard(Borrowed)];
    FirstAcquires(Run(Init(n), acts), w);
    Extend(Init(n), acts, PollCall(0, w));
    acts := acts + [PollCall(0, w)];
  }

  lemma HeadAcquires(s: State, id: nat, w: Waker)
    requires |s.core.event.notified| > 0 && s.core.event.notified[0].id == id && s.core.permits > 0
    requires id in s.calls && s.calls[id].at == Await
    ensures Step(s, PollCall(id, w)).core
         == Core(s.core.event.(notified := s.core.event.notified[1..]), s.core.permits - 1)
  {
    PollHead(s.core.event, id, w);
  }

  lemma FirstAcquires(s: State, w: Waker)
    requires s.core.event == NotifyFirst(EventState([], [Sleeper(0), Sleeper(1)], []), (), false)
    requires s.core.permits == 2 && 0 in s.calls && s.calls[0] == Call(Borrowed, Await)
    ensures !Prompt(Step(s, PollCall(0, w)))
  {
    HeadAcquires(s, 0, w);
  }

  /** A semaphore never lets a waiter sleep beside a free permit if and only if it was made with at
      most one. */
  lemma PromptExactly(n: nat)
    ensures (forall acts :: Prompt(Run(Init(n), acts))) <==> n <= 1
  {
    if n <= 1 {
      forall acts ensures Prompt(Run(Init(n), acts)) {
        RunKeeps(Init(n), n, acts);
      }
    } else {
      var acts := Oversleeps(n);
    }
  }
}

/** The semaphore as the source has it, over the linked list. The `Rc` forms run the same code. */
module SemaphoreObject {
  import opened Prelude
  import opened EventModel
  import EventList
  import M = SemaphoreModel

  class Semaphore {
    const event: EventList.Event<()>
    var permits: nat

    ghost predicate Valid()
      reads this, event, event.listeners
    {
      event.Valid()
    }

    ghost function Core(): M.Core<EventList.Listener<()>>
      reads this, event
    {
      M.Core(event.model, permits)
    }

    constructor (n: nat)
      ensures Valid() && Core() == M.Core(Empty(), n)
    {
      event := new EventList.Event<()>();
      permits := n;
    }

    method TryAcquire() returns (ok: bool)
      requires Valid()
      modifies this
      ensures Valid() && (Core(), ok) == M.TryAcquire(old(Core()))
    {
      if permits > 0 {
        permits := permits - 1;
        return true;
      }
      return false;
    }

    /** Poll the listener; a ready one is out of the list. */
    method AwaitPermit(l: EventList.Listener<()>, w: Waker) returns (r: Poll<()>)
      requires Valid() && l in event.listeners
      modifies this, event, event.listeners
      ensures Valid() && event.listeners == old(event.listeners)
      ensures Core() == old(Core()).(event := PollListener(old(event.model), l, w).0)
      ensures r == PollListener(old(event.model), l, w).1
      ensures r.Ready? <==> IsNotified(old(event.model), l)
      ensures r.Ready? ==> !IsNotified(event.model, l)
    {
      event.Tidy(l, w);
      r := event.Poll(l, w);
    }

    /** One poll of an `acquire` future with listener `l`, suspended at `at`. */
    method PollAcquire(l: EventList.Listener<()>, at: Point, w: Waker) returns (got: bool)
      requires Valid() && l in event.listeners && (at == Start ==> !l.inList)
      modifies this, event, event.listeners
      ensures Valid() && event.listeners == old(event.listeners)
      ensures (Core(), got) == M.PollAcquire(old(Core()), l, at, w)
    {
      var here := at;
      event.Tidy(l, w);
      while true
        invariant Valid() && event.listeners == old(event.listeners)
        invariant here == Await ==> at == Await && Core() == old(Core())
        invariant here == Start ==> !IsNotified(event.model, l) && M.PollAcquire(old(Core()), l, at, w) == M.Retry(Core(), l, w)
        decreases here == Await
      {
        if here == Start {
          var ok := TryAcquire();
          if ok {
            return true;
          }
        }
        var r := AwaitPermit(l, w);
        if r.Pending? {
          return false;
        }
        here := Start;
      }
    }

    /** The drop of a guard, of either kind. */
    method DropGuard()
      requires Valid()
      modifies this, event, event.listeners
      ensures Valid() && event.listeners == old(event.listeners)
      ensures Core() == M.Release(old(Core()))
    {
      permits := permits + 1;
      var n, rest := event.Notify(M.ONE);
    }

    /** The future of `acquire` is dropped before it returned. */
    method CancelAcquire(l: EventList.Listener<()>)
      requires Valid() && l in event.listeners
      modifies this, event, event.listeners
      ensures Valid() && event.listeners == old(event.listeners)
      ensures Core() == M.CancelAcquire(old(Core()), l)
    {
      event.Drop(l);
    }
  }
}
