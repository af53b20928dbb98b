/** `src/lock/mutex.rs`: a lock whose waiters sleep on one event. */
module MutexModel {
  import opened Prelude
  import opened Notifications
  import opened EventModel
  import opened EventWakes

  /** `locked` is the borrow flag of the `RefCell` around the data. */
  datatype Core<Id> = Core(unlocked: EventState<Id, ()>, locked: bool)

  const ONE := Plain(1, ())

  function TryLock<Id>(c: Core<Id>): (Core<Id>, bool) {
    if c.locked then (c, false) else (c.(locked := true), true)
  }

  /** `lock` from the top of its loop, its listener not in the list, to its next `.await`. */
  function Retry<Id(==)>(c: Core<Id>, id: Id, w: Waker): (Core<Id>, bool) {
    var (c', ok) := TryLock(c);
    if ok then (c', true) else (c.(unlocked := PollListener(c.unlocked, id, w).0), false)
  }

  /** One poll of the future of `lock`; did it return a guard? */
  function PollLock<Id(==)>(c: Core<Id>, id: Id, at: Point, w: Waker): (Core<Id>, bool) {
    if at == Start then Retry(c, id, w)
    else
      var (e, r) := PollListener(c.unlocked, id, w);
      if r.Pending? then (c.(unlocked := e), false) else Retry(c.(unlocked := e), id, w)
  }

  /** A guard notifies first; the borrow ends with its fields. */
  function Unlock<Id>(c: Core<Id>): Core<Id> { Core(Notify(c.unlocked, ONE), false) }

  function CancelLock<Id(==)>(c: Core<Id>, id: Id): Core<Id> {
    c.(unlocked := DropListener(c.unlocked, id))
  }

  // ----- every run: any number of calls, polled, cancelled and overtaken in any order

  /** `calls` are the `lock` futures in flight, each with the point it is suspended at; `guards`
      counts the live guards. */
  datatype State = State(core: Core<nat>, calls: map<nat, Point>, guards: nat)

  datatype Action =
    | StartCall(id: nat)
    | PollCall(id: nat, w: Waker)
    | CancelCall(id: nat)
    | TryLockNow
    | DropGuard

  const INIT := State(Core(Empty(), false), map[], 0)

  /** The state after a poll of call `id`, the other calls being `others`. */
  function After(others: map<nat, Point>, guards: nat, id: nat, c: Core<nat>, got: bool): State {
    if got then State(c, others, guards + 1) else State(c, others[id := Await], guards)
  }

  /** One action; one that is not possible (a poll of a call that is not in flight, say) changes nothing. */
  function Step(s: State, a: Action): State {
    match a
    case StartCall(id) =>
      if id in s.calls then s else s.(calls := s.calls[id := Start])
    case PollCall(id, w) =>
      if id !in s.calls then s
      else
        var (c, got) := PollLock(s.core, id, s.calls[id], w);
        After(s.calls - {id}, s.guards, id, c, got)
    case CancelCall(id) =>
      if id !in s.calls then s else s.(core := CancelLock(s.core, id), calls := s.calls - {id})
    case TryLockNow =>
      var (c, ok) := TryLock(s.core);
      if ok then s.(core := c, guards := s.guards + 1) else s
    case DropGuard =>
      if s.guards == 0 then s else s.(core := Unlock(s.core), guards := s.guards - 1)
  }

  function Run(s: State, acts: seq<Action>): State
    decreases |acts|
  {
    if |acts| == 0 then s else Run(Step(s, acts[0]), acts[1..])
  }

  /** The waiting list, in order. */
  function Queue(s: State): seq<nat> { Order(s.core.unlocked) }

  ghost predicate Base(s: State) {
    && Wf(s.core.unlocked)
    && s.guards == (if s.core.locked then 1 else 0)
    && |s.core.unlocked.notified| <= 1
    && (forall id :: id in Queue(s) <==> id in s.calls && s.calls[id] == Await)
  }

  ghost predicate Inv(s: State) {
    Base(s) && (!s.core.locked ==> Awake(s.core.unlocked))
  }

  lemma RetryKeeps(s: State, id: nat, w: Waker)
    requires Base(s) && id !in s.calls
    ensures var (c, got) := Retry(s.core, id, w); Inv(After(s.calls, s.guards, id, c, got))
  {
    Members(s.core.unlocked);
    if s.core.locked {
      PollPending(s.core.unlocked, id, w);
    }
  }

  lemma WakeKeeps(s: State, id: nat, w: Waker)
    requires Base(s) && id in s.calls && s.calls[id] == Await && IsNotified(s.core.unlocked, id)
    ensures Base(State(s.core.(unlocked := PollListener(s.core.unlocked, id, w).0), s.calls - {id}, s.guards))
  {
    PollReady(s.core.unlocked, id, w);
  }

  lemma SleepKeeps(s: State, id: nat, w: Waker)
    requires Inv(s) && id in s.calls && s.calls[id] == Await && !IsNotified(s.core.unlocked, id)
    ensures Inv(Step(s, PollCall(id, w)))
  {
    Members(s.core.unlocked);
    PollPending(s.core.unlocked, id, w);
  }

  lemma PollKeeps(s: State, id: nat, w: Waker)
    requires Inv(s) && id in s.calls
    ensures Inv(Step(s, PollCall(id, w)))
  {
    var e, others := s.core.unlocked, s.calls - {id};
    if s.calls[id] == Start {
      RetryKeeps(s.(calls := others), id, w);
    } else if IsNotified(e, id) {
      WakeKeeps(s, id, w);
      RetryKeeps(State(s.core.(unlocked := PollListener(e, id, w).0), others, s.guards), id, w);
    } else {
      SleepKeeps(s, id, w);
    }
  }

  lemma CancelKeeps(s: State, id: nat)
    requires Inv(s) && id in s.calls
    ensures Inv(Step(s, CancelCall(id)))
  {
    var e := s.core.unlocked;
    DropKeeps(e, id);
  }

  lemma StepKeeps(s: State, a: Action)
    requires Inv(s)
    ensures Inv(Step(s, a))
  {
    match a
    case StartCall(id) =>
    case PollCall(id, w) =>
      if id in s.calls { PollKeeps(s, id, w); }
    case CancelCall(id) =>
      if id in s.calls { CancelKeeps(s, id); }
    case TryLockNow =>
    case DropGuard =>
      NotifyFacts(s.core.unlocked, ONE);
  }

  lemma {:induction false} RunKeeps(s: State, acts: seq<Action>)
    requires Inv(s)
    ensures Inv(Run(s, acts))
    decreases |acts|
  {
    if |acts| > 0 {
      StepKeeps(s, acts[0]);
      RunKeeps(Step(s, acts[0]), acts[1..]);
    }
  }

  lemma {:induction false} RunConcat(s: State, before: seq<Action>, acts: seq<Action>)
    ensures Run(s, before + acts) == Run(Run(s, before), acts)
    decreases |before|
  {
    if |before| == 0 {
      assert before + acts == acts;
    } else {
      assert (before + acts)[1..] == before[1..] + acts;
      RunConcat(Step(s, before[0]), before[1..], acts);
    }
  }

  /** Mutual exclusion, and no lost wake-up: whenever the lock is free and someone waits for it, one
      waiter is notified, and its next poll gets the lock. */
  lemma MutexSafe(acts: seq<Action>)
    ensures var s := Run(INIT, acts);
            && s.guards <= 1 && (s.core.locked <==> s.guards == 1)
            && (forall id :: id in s.calls && s.calls[id] == Await <==> id in Queue(s))
            && (!s.core.locked && |Queue(s)| > 0 ==>
                  && IsNotified(s.core.unlocked, Queue(s)[0])
                  && forall w :: PollLock(s.core, Queue(s)[0], Await, w).1)
  {
    RunKeeps(INIT, acts);
    var s := Run(INIT, acts);
    Members(s.core.unlocked);
  }

  /** A poll of a call gets the lock exactly when the lock is free and the call was not polled before or
      is notified; otherwise the call waits, where it was if it is not notified, and at the end of the
      list if it is notified in vain or new. */
  lemma PollsExactly(acts: seq<Action>, id: nat, w: Waker)
    ensures var s := Run(INIT, acts); var s' := Step(s, PollCall(id, w)); var q := Queue(s);
            id in s.calls ==>
              var tries := s.calls[id] == Start || IsNotified(s.core.unlocked, id);
              var rest := if id in q then Without(q, Pos(q, id)) else q;
              && s'.core.locked == (s.core.locked || tries)
              && s'.guards == s.guards + (if tries && !s.core.locked then 1 else 0)
              && Queue(s') == if !tries then q else if s.core.locked then rest + [id] else rest
  {
    RunKeeps(INIT, acts);
    var s := Run(INIT, acts);
    if id in s.calls {
      PollQueue(s, id, w);
    }
  }

  /** The drop of the guard frees the lock and leaves one waiter notified if there is any, the list as it was. */
  lemma UnlocksExactly(acts: seq<Action>)
    ensures var s := Run(INIT, acts); var s' := Step(s, DropGuard); var e, e' := s.core.unlocked, s'.core.unlocked;
            s.guards > 0 ==>
              && !s'.core.locked && s'.guards == 0 && s'.calls == s.calls && Order(e') == Order(e)
              && |e'.notified| == Max(|e.notified|, Min(1, |Order(e)|))
  {
    RunKeeps(INIT, acts);
    NotifyFacts(Run(INIT, acts).core.unlocked, ONE);
  }

  lemma PollQueue(s: State, id: nat, w: Waker)
    requires Inv(s) && id in s.calls
    ensures var s', q := Step(s, PollCall(id, w)), Queue(s);
            var tries := s.calls[id] == Start || IsNotified(s.core.unlocked, id);
            var rest := if id in q then Without(q, Pos(q, id)) else q;
            && s'.core.locked == (s.core.locked || tries)
            && s'.guards == s.guards + (if tries && !s.core.locked then 1 else 0)
            && Queue(s') == if !tries then q else if s.core.locked then rest + [id] else rest
  {
    var e := s.core.unlocked;
    Members(e);
    if s.calls[id] == Start {
      PollPending(e, id, w);
    } else if IsNotified(e, id) {
      PollReady(e, id, w);
      Requeued(e, id, w);
    } else {
      PollPending(e, id, w);
    }
  }

  // ----- the wakers

  /** The waker of each call's latest poll. */
  function Later(s: State, latest: map<nat, Waker>, a: Action): map<nat, Waker> {
    if a.PollCall? && a.id in s.calls then latest[a.id := a.w] else latest
  }

  function Latest(s: State, latest: map<nat, Waker>, acts: seq<Action>): map<nat, Waker>
    decreases |acts|
  {
    if |acts| == 0 then latest else Latest(Step(s, acts[0]), Later(s, latest, acts[0]), acts[1..])
  }

  lemma LockTends(c: Core<nat>, id: nat, at: Point, w: Waker, latest: map<nat, Waker>)
    requires Wf(c.unlocked) && Alert(c.unlocked, latest) && (at == Await <==> id in Order(c.unlocked))
    ensures Tended(c.unlocked, PollLock(c, id, at, w).0.unlocked, latest[id := w])
  {
    LoopTended(c.unlocked, id, w, latest);
    Members(c.unlocked);
  }

  lemma PollTends(s: State, id: nat, w: Waker, latest: map<nat, Waker>)
    requires Inv(s) && Alert(s.core.unlocked, latest) && id in s.calls
    ensures Tended(s.core.unlocked, Step(s, PollCall(id, w)).core.unlocked, latest[id := w])
  {
    LockTends(s.core, id, s.calls[id], w, latest);
  }

  lemma StepTends(s: State, a: Action, latest: map<nat, Waker>)
    requires Inv(s) && Alert(s.core.unlocked, latest)
    ensures Tended(s.core.unlocked, Step(s, a).core.unlocked, Later(s, latest, a))
  {
    var e := s.core.unlocked;
    Asleep(e, e, latest);
    match a
    case StartCall(id) =>
    case PollCall(id, w) => if id in s.calls { PollTends(s, id, w, latest); }
    case CancelCall(id) => DropTended(e, id, latest);
    case TryLockNow =>
    case DropGuard => NotifyTended(e, ONE, latest);
  }

  lemma {:induction false} RunTends(s: State, latest: map<nat, Waker>, acts: seq<Action>)
    requires Inv(s) && Alert(s.core.unlocked, latest)
    ensures Alert(Run(s, acts).core.unlocked, Latest(s, latest, acts))
    decreases |acts|
  {
    if |acts| > 0 {
      StepKeeps(s, acts[0]);
      StepTends(s, acts[0], latest);
      RunTends(Step(s, acts[0]), Later(s, latest, acts[0]), acts[1..]);
    }
  }

  /** In every run a waiting call holds a waker like that of its latest poll, and what an action
      wakes are the calls it newly notifies, each by its own such waker. */
  lemma WakesExactly(acts: seq<Action>, a: Action)
    ensures var s, latest := Run(INIT, acts), Latest(INIT, map[], acts);
            && Alert(s.core.unlocked, latest)
            && Called(s.core.unlocked, Step(s, a).core.unlocked, Later(s, latest, a))
  {
    RunKeeps(INIT, acts);
    RunTends(INIT, map[], acts);
    StepTends(Run(INIT, acts), a, Latest(INIT, map[], acts));
  }

  // ----- fairness, as far as it goes

  /** The action takes the free lock past waiting listeners: a `try_lock`, or a `lock` that never waited. */
  predicate Barges(s: State, a: Action) {
    && !s.core.locked && |Queue(s)| > 0
    && (a.TryLockNow? || (a.PollCall? && a.id in s.calls && s.calls[a.id] == Start))
  }

  /** How often the run barges. */
  function Bargings(s: State, acts: seq<Action>): nat
    decreases |acts|
  {
    if |acts| == 0 then 0
    else (if Barges(s, acts[0]) then 1 else 0) + Bargings(Step(s, acts[0]), acts[1..])
  }

  predicate NoBarging(s: State, acts: seq<Action>) { Bargings(s, acts) == 0 }

  /** Call `id` waits in the list in every state of the run. */
  predicate Waits(s: State, acts: seq<Action>, id: nat)
    decreases |acts|
  {
    id in Queue(s) && (|acts| == 0 || Waits(Step(s, acts[0]), acts[1..], id))
  }

  /** How many guards the run drops. */
  function Unlocks(s: State, acts: seq<Action>): nat
    decreases |acts|
  {
    if |acts| == 0 then 0
    else (if acts[0] == DropGuard && s.guards > 0 then 1 else 0) + Unlocks(Step(s, acts[0]), acts[1..])
  }

  /** Nobody holds a notification that a barging call has already made useless. */
  predicate Settled(s: State) { s.core.locked ==> |s.core.unlocked.notified| == 0 }

  /** What one action does to the list when nobody barges: it appends, takes the head out (which
      then holds the lock), takes a cancelled one out, or leaves it alone. */
  lemma QueueStep(s: State, a: Action)
    requires Inv(s) && Settled(s) && !Barges(s, a)
    ensures var s', q := Step(s, a), Queue(s);
            && Settled(s')
            && (|| (Queue(s') == q && (s'.core.locked == s.core.locked || a == DropGuard || |q| == 0))
                || (a.PollCall? && Queue(s') == q + [a.id] && s.core.locked && s'.core.locked)
                || (|q| > 0 && a.PollCall? && a.id == q[0] && Queue(s') == q[1..] && !s.core.locked && s'.core.locked)
                || (a.CancelCall? && a.id in q && Queue(s') == Without(q, Pos(q, a.id))
                    && s'.core.locked == s.core.locked))
  {
    var e := s.core.unlocked;
    Members(e);
    match a
    case StartCall(id) =>
    case PollCall(id, w) =>
      if id in s.calls { QueuePoll(s, id, w); }
    case CancelCall(id) =>
      if id in s.calls {
        DropFacts(e, id);
        if id in Queue(s) { DropCount(e, id); }
      }
    case TryLockNow =>
    case DropGuard =>
      NotifyFacts(e, ONE);
  }

  lemma QueuePoll(s: State, id: nat, w: Waker)
    requires Inv(s) && Settled(s) && !Barges(s, PollCall(id, w)) && id in s.calls
    ensures var s', q := Step(s, PollCall(id, w)), Queue(s);
            && Settled(s')
            && (|| (Queue(s') == q && (s'.core.locked == s.core.locked || |q| == 0))
                || (Queue(s') == q + [id] && s.core.locked && s'.core.locked)
                || (|q| > 0 && id == q[0] && Queue(s') == q[1..] && !s.core.locked && s'.core.locked))
  {
    var e := s.core.unlocked;
    Members(e);
    if IsNotified(e, id) {
      PollReady(e, id, w);
      assert Queue(s)[0] == e.notified[0].id == id;
      assert Pos(Queue(s), id) == 0;
    } else {
      PollPending(e, id, w);
    }
  }

  lemma {:induction false} WaitIsBoundedFrom(s: State, acts: seq<Action>, id: nat)
    requires Inv(s) && Settled(s) && NoBarging(s, acts) && Waits(s, acts, id)
    ensures Unlocks(s, acts) <= Pos(Queue(s), id) + if s.core.locked then 1 else 0
    decreases |acts|
  {
    if |acts| > 0 {
      var a, q := acts[0], Queue(s);
      StepKeeps(s, a);
      QueueStep(s, a);
      WaitIsBoundedFrom(Step(s, a), acts[1..], id);
      var q' := Queue(Step(s, a));
      if a.CancelCall? && a.id in q && q' == Without(q, Pos(q, a.id)) {
        WithoutFacts(q, Pos(q, a.id));
        PosWithout(q, Pos(q, a.id), id);
      } else if a.PollCall? && q' == q + [a.id] {
        PosConcat(q, [a.id], id);
      }
    }
  }

  /** A waiter at position `p` of the list, in whatever state the past has left the settled mutex,
      has the lock before the (p+2)-nd unlock if nobody barges: while it still waits, at most
      `p + 1` guards were dropped, and at most `p` if the lock was free to begin with. */
  lemma WaitIsBounded(before: seq<Action>, acts: seq<Action>, id: nat)
    requires var s := Run(INIT, before); Settled(s) && NoBarging(s, acts) && Waits(s, acts, id)
    ensures var s := Run(INIT, before); Unlocks(s, acts) <= Pos(Queue(s), id) + if s.core.locked then 1 else 0
  {
    RunKeeps(INIT, before);
    WaitIsBoundedFrom(Run(INIT, before), acts, id);
  }

  lemma PollStale(s: State, id: nat, w: Waker)
    requires Base(s) && s.core.locked && IsNotified(s.core.unlocked, id) && id in s.calls && s.calls[id] == Await
    ensures var s' := Step(s, PollCall(id, w));
            Queue(s') == Without(Queue(s), Pos(Queue(s), id)) + [id] && s'.calls == s.calls
  {
    Requeued(s.core.unlocked, id, w);
    assert (s.calls - {id})[id := Await] == s.calls;
  }

  /** What settling is about: once a barging call has the lock, the waiter notified before goes to
      the end of the list at its next poll, behind everyone it was ahead of. */
  lemma StaleWaiterGoesBack(acts: seq<Action>, id: nat, w: Waker)
    ensures var s := Run(INIT, acts); var s' := Step(s, PollCall(id, w));
            s.core.locked && IsNotified(s.core.unlocked, id) ==>
              !Settled(s) && Queue(s') == Without(Queue(s), Pos(Queue(s), id)) + [id] && s'.calls == s.calls
  {
    RunKeeps(INIT, acts);
    var s := Run(INIT, acts);
    Members(s.core.unlocked);
    if s.core.locked && IsNotified(s.core.unlocked, id) {
      PollStale(s, id, w);
    }
  }

  ghost predicate Before(q: seq<nat>, ahead: nat, behind: nat) {
    ahead in q && behind in q && Pos(q, ahead) < Pos(q, behind)
  }

  lemma BeforeWithout(q: seq<nat>, i: nat, ahead: nat, behind: nat)
    requires Distinct(q) && Before(q, ahead, behind) && i < |q|
    ensures ahead in Without(q, i) && q[i] != behind ==> Before(Without(q, i), ahead, behind)
    ensures i == 0 && ahead in Without(q, i) ==> Before(Without(q, i), ahead, behind)
  {
    WithoutFacts(q, i);
    if ahead in Without(q, i) && q[i] != behind {
      PosWithout(q, i, ahead);
      PosWithout(q, i, behind);
    }
  }

  lemma BeforeMore(q: seq<nat>, more: seq<nat>, ahead: nat, behind: nat)
    requires Before(q, ahead, behind)
    ensures Before(q + more, ahead, behind)
  {
    PosConcat(q, more, ahead);
    PosConcat(q, more, behind);
  }

  /** The list stays, or `id` joins it, or its head or `id` leaves it. */
  ghost predicate Moved(q: seq<nat>, q': seq<nat>, id: nat, cancel: bool) {
    || q' == q
    || (!cancel && q' == q + [id])
    || (!cancel && |q| > 0 && q' == q[1..])
    || (cancel && id in q && q' == Without(q, Pos(q, id)))
  }

  lemma BeforeMoved(q: seq<nat>, q': seq<nat>, id: nat, cancel: bool, ahead: nat, behind: nat)
    requires Distinct(q) && Before(q, ahead, behind) && Moved(q, q', id, cancel)
    requires ahead in q' && !(cancel && id == behind)
    ensures Before(q', ahead, behind)
  {
    if cancel && id in q {
      BeforeWithout(q, Pos(q, id), ahead, behind);
    } else {
      BeforeMore(q, [id], ahead, behind);
      BeforeWithout(q, 0, ahead, behind);
      assert Without(q, 0) == q[1..];
    }
  }

  lemma StepMoves(s: State, a: Action)
    requires Inv(s) && Settled(s) && !Barges(s, a)
    ensures var id := if a.PollCall? || a.CancelCall? then a.id else 0;
            Settled(Step(s, a)) && Moved(Queue(s), Queue(Step(s, a)), id, a.CancelCall?)
  {
    QueueStep(s, a);
  }

  lemma {:induction false} NoOvertakingFrom(s: State, acts: seq<Action>, ahead: nat, behind: nat)
    requires Inv(s) && Settled(s) && NoBarging(s, acts) && Waits(s, acts, ahead)
    requires Before(Queue(s), ahead, behind) && CancelCall(behind) !in acts
    ensures Before(Queue(Run(s, acts)), ahead, behind)
    decreases |acts|
  {
    if |acts| > 0 {
      StepKeeps(s, acts[0]);
      StepMoves(s, acts[0]);
      var id := if acts[0].PollCall? || acts[0].CancelCall? then acts[0].id else 0;
      BeforeMoved(Queue(s), Queue(Step(s, acts[0])), id, acts[0].CancelCall?, ahead, behind);
      NoOvertakingFrom(Step(s, acts[0]), acts[1..], ahead, behind);
    }
  }

  /** While nobody barges, a waiter behind another one does not get the lock before it: it is
      still in the list, and still behind. */
  lemma NoOvertaking(before: seq<Action>, acts: seq<Action>, ahead: nat, behind: nat)
    requires var s := Run(INIT, before); Settled(s) && NoBarging(s, acts) && Waits(s, acts, ahead)
    requires Before(Queue(Run(INIT, before)), ahead, behind) && CancelCall(behind) !in acts
    ensures Before(Queue(Run(INIT, before + acts)), ahead, behind)
  {
    RunKeeps(INIT, before);
    NoOvertakingFrom(Run(INIT, before), acts, ahead, behind);
    RunConcat(INIT, before, acts);
  }

  // ----- barging: how much of it the two promises survive

  const W := Waker(0, 0, 0)

  lemma OneMore(s: State, a: Action, rest: seq<Action>, id: nat)
    ensures var acts := [a] + rest;
            && Run(s, acts) == Run(Step(s, a), rest)
            && Unlocks(s, acts) == (if a == DropGuard && s.guards > 0 then 1 else 0) + Unlocks(Step(s, a), rest)
            && Bargings(s, acts) == (if Barges(s, a) then 1 else 0) + Bargings(Step(s, a), rest)
            && (Waits(s, acts, id) <==> id in Queue(s) && Waits(Step(s, a), rest, id))
  {
    assert ([a] + rest)[1..] == rest;
  }

  /** The lock is taken, call 0 is at the head of the list, and nobody is notified. */
  predicate Contested(s: State, others: seq<Slot<nat, Option<Waker>>>) {
    && s.core.locked && s.guards == 1 && 0 in s.calls && s.calls[0] == Await
    && s.core.unlocked.notified == [] && 0 !in Ids(others)
    && |s.core.unlocked.waiting| > 0 && s.core.unlocked.waiting[0].id == 0 && s.core.unlocked.waiting[1..] == others
  }

  /** The guard is dropped and call 0 notified, a `try_lock` takes the lock, and call 0 is polled. */
  function Round(rest: seq<Action>): seq<Action> { [DropGuard] + ([TryLockNow] + ([PollCall(0, W)] + rest)) }

  lemma Unlocking(s: State, others: seq<Slot<nat, Option<Waker>>>)
    requires Contested(s, others)
    ensures var s' := Step(s, DropGuard);
            && !s'.core.locked && s'.guards == 0 && s'.calls == s.calls
            && |s'.core.unlocked.notified| == 1 && s'.core.unlocked.notified[0].id == 0
            && s'.core.unlocked.waiting == others && Order(s'.core.unlocked) == Order(s.core.unlocked)
    ensures 0 in Queue(s)
  {
    NotifyHead(s.core.unlocked, ONE);
    NotifyFacts(s.core.unlocked, ONE);
    assert Ids(s.core.unlocked.waiting)[0] == 0;
    Members(s.core.unlocked);
  }

  /** One round drops one guard and barges once; call 0 waits throughout and ends at the back. */
  lemma RoundGoes(s: State, others: seq<Slot<nat, Option<Waker>>>, rest: seq<Action>) returns (s': State)
    requires Contested(s, others)
    ensures s'.core.locked && s'.guards == 1 && s'.calls == s.calls
    ensures s'.core.unlocked.notified == [] && s'.core.unlocked.waiting == others + [Slot(0, Some(W))]
    ensures var acts := Round(rest);
            && Run(s, acts) == Run(s', rest) && (Waits(s, acts, 0) <==> Waits(s', rest, 0))
            && Unlocks(s, acts) == 1 + Unlocks(s', rest) && Bargings(s, acts) == 1 + Bargings(s', rest)
  {
    Unlocking(s, others);
    var s1 := Step(s, DropGuard);
    var s2 := Step(s1, TryLockNow);
    s' := Step(s2, PollCall(0, W));
    OneMore(s2, PollCall(0, W), rest, 0);
    OneMore(s1, TryLockNow, [PollCall(0, W)] + rest, 0);
    OneMore(s, DropGuard, [TryLockNow] + ([PollCall(0, W)] + rest), 0);
  }

  function Rounds(k: nat): seq<Action> { if k == 0 then [] else Round(Rounds(k - 1)) }

  lemma {:induction false} RoundsGo(s: State, k: nat)
    requires Contested(s, [])
    ensures Waits(s, Rounds(k), 0) && Unlocks(s, Rounds(k)) == Bargings(s, Rounds(k)) == k
    decreases k
  {
    if k > 0 {
      var s' := RoundGoes(s, [], Rounds(k - 1));
      RoundsGo(s', k - 1);
    } else {
      assert Ids(s.core.unlocked.waiting)[0] == 0;
      Members(s.core.unlocked);
    }
  }

  function Entering(id: nat, rest: seq<Action>): seq<Action> { [StartCall(id)] + ([PollCall(id, W)] + rest) }

  function Entered(s: State, id: nat): State {
    s.(core := s.core.(unlocked := s.core.unlocked.(waiting := s.core.unlocked.waiting + [Slot(id, Some(W))])),
       calls := s.calls[id := Await])
  }

  /** A call that finds the lock taken joins the end of the list. */
  lemma Enters(s: State, id: nat, rest: seq<Action>)
    requires s.core.locked && id !in s.calls && id !in Queue(s)
    ensures Run(s, Entering(id, rest)) == Run(Entered(s, id), rest)
  {
    PollNew(s.core.unlocked, id, W);
    assert (s.calls[id := Start] - {id})[id := Await] == s.calls[id := Await];
    OneMore(Step(s, StartCall(id)), PollCall(id, W), rest, 0);
    OneMore(s, StartCall(id), [PollCall(id, W)] + rest, 0);
  }

  const TAKEN := State(Core(Empty(), true), map[], 1)

  lemma EnteredQueue(s: State, id: nat)
    ensures Queue(Entered(s, id)) == Queue(s) + [id]
  {
    assert Ids(s.core.unlocked.waiting + [Slot(id, Some(W))]) == Ids(s.core.unlocked.waiting) + [id];
  }

  /** The lock is taken, and one call waits. */
  lemma OneContends()
    ensures Run(INIT, [TryLockNow] + Entering(0, [])) == Entered(TAKEN, 0)
    ensures Queue(Entered(TAKEN, 0)) == [0]
  {
    Enters(TAKEN, 0, []);
    EnteredQueue(TAKEN, 0);
  }

  /** The lock is taken, and two calls wait. */
  lemma TwoContend(s: State)
    requires s == Entered(TAKEN, 0) && Queue(s) == [0]
    ensures Run(INIT, [TryLockNow] + Entering(0, Entering(1, []))) == Entered(s, 1)
    ensures Queue(Entered(s, 1)) == [0, 1] && Contested(Entered(s, 1), [Slot(1, Some(W))])
  {
    Enters(TAKEN, 0, Entering(1, []));
    Enters(s, 1, []);
    EnteredQueue(s, 1);
    assert Ids([Slot(1, Some(W))]) == [1];
  }

  /** With barging a waiter can starve: for every `k` there is a run in which the first in the list
      of a settled mutex waits on through `k` unlocks. */
  lemma BargingStarves(k: nat) returns (before: seq<Action>)
    ensures var s := Run(INIT, before);
            && Settled(s) && s.core.locked && Queue(s) == [0]
            && Waits(s, Rounds(k), 0) && Unlocks(s, Rounds(k)) == k
  {
    OneContends();
    before := [TryLockNow] + Entering(0, []);
    RoundsGo(Run(INIT, before), k);
  }

  /** The bound on the wait, for one waiter of one run. */
  predicate Bounded(before: seq<Action>, acts: seq<Action>, id: nat) {
    var s := Run(INIT, before);
    Settled(s) && Waits(s, acts, id) ==> Unlocks(s, acts) <= Pos(Queue(s), id) + if s.core.locked then 1 else 0
  }

  /** The list order, for two waiters of one run. */
  ghost predicate Ordered(before: seq<Action>, acts: seq<Action>, ahead: nat, behind: nat) {
    var s := Run(INIT, before);
    Settled(s) && Waits(s, acts, ahead) && Before(Queue(s), ahead, behind) && CancelCall(behind) !in acts ==>
      Before(Queue(Run(s, acts)), ahead, behind)
  }

  predicate AtMost(before: seq<Action>, acts: seq<Action>, b: nat) { Bargings(Run(INIT, before), acts) <= b }

  lemma OneBargingDelays() returns (before: seq<Action>, acts: seq<Action>)
    ensures AtMost(before, acts, 1) && !Bounded(before, acts, 0)
  {
    OneContends();
    before, acts := [TryLockNow] + Entering(0, []), Round([DropGuard] + []);
    var s := Run(INIT, before);
    var s' := RoundGoes(s, [], [DropGuard] + []);
    OneMore(s', DropGuard, [], 0);
    Unlocking(s', []);
  }

  lemma RoundSwaps(s: State)
    requires Contested(s, [Slot(1, Some(W))])
    ensures Waits(s, Round([]), 0) && Bargings(s, Round([])) == 1
    ensures Queue(Run(s, Round([]))) == [1, 0]
  {
    var others := [Slot(1, Some(W))];
    var s' := RoundGoes(s, others, []);
    assert Queue(s') == [1, 0];
  }

  lemma SwapBreaksOrder(before: seq<Action>)
    requires var s := Run(INIT, before); Contested(s, [Slot(1, Some(W))]) && Queue(s) == [0, 1]
    ensures AtMost(before, Round([]), 1) && !Ordered(before, Round([]), 0, 1)
  {
    RoundSwaps(Run(INIT, before));
  }

  lemma OneBargingReorders() returns (before: seq<Action>, acts: seq<Action>)
    ensures AtMost(before, acts, 1) && !Ordered(before, acts, 0, 1)
  {
    OneContends();
    TwoContend(Entered(TAKEN, 0));
    before, acts := [TryLockNow] + Entering(0, Entering(1, [])), Round([]);
    SwapBreaksOrder(before);
  }

  /** With at most `b` barging actions allowed, the bound on the wait holds in all runs if and only if
      `b` is 0, and so does the list order: one barging action breaks either. */
  lemma FairExactly(b: nat)
    ensures b == 0 <==> forall before, acts, id :: AtMost(before, acts, b) ==> Bounded(before, acts, id)
    ensures b == 0 <==> forall before, acts, ahead, behind ::
                          AtMost(before, acts, b) ==> Ordered(before, acts, ahead, behind)
  {
    if b == 0 {
      forall before, acts, id | AtMost(before, acts, b)
        ensures Bounded(before, acts, id)
      {
        if Settled(Run(INIT, before)) && Waits(Run(INIT, before), acts, id) {
          WaitIsBounded(before, acts, id);
        }
      }
      forall before, acts, ahead, behind | AtMost(before, acts, b)
        ensures Ordered(before, acts, ahead, behind)
      {
        var s := Run(INIT, before);
        if Settled(s) && Waits(s, acts, ahead) && Before(Queue(s), ahead, behind) && CancelCall(behind) !in acts {
          RunKeeps(INIT, before);
          NoOvertakingFrom(s, acts, ahead, behind);
        }
      }
    } else {
      var before, acts := OneBargingDelays();
      var before', acts' := OneBargingReorders();
    }
  }
}

/** The lock as the source has it, over the linked list. */
module MutexObject {
  import opened Prelude
  import opened EventModel
  import EventList
  import M = MutexModel

  class Mutex {
    const unlocked: EventList.Event<()>
    var locked: bool

    ghost predicate Valid()
      reads this, unlocked, unlocked.listeners
    {
      unlocked.Valid()
    }

    ghost function Core(): M.Core<EventList.Listener<()>>
      reads this, unlocked
    {
      M.Core(unlocked.model, locked)
    }

    constructor ()
      ensures Valid() && Core() == M.Core(Empty(), false)
    {
      unlocked := new EventList.Event<()>();
      locked := false;
    }

    method TryLock() returns (ok: bool)
      requires Valid()
      modifies this
      ensures Valid() && (Core(), ok) == M.TryLock(old(Core()))
    {
      if locked {
        return false;
      }
      locked := true;
      return true;
    }

    /** Poll the listener; a ready one is out of the list. */
    method AwaitUnlock(l: EventList.Listener<()>, w: Waker) returns (r: Poll<()>)
      requires Valid() && l in unlocked.listeners
      modifies this, unlocked, unlocked.listeners
      ensures Valid() && unlocked.listeners == old(unlocked.listeners)
      ensures Core() == old(Core()).(unlocked := PollListener(old(unlocked.model), l, w).0)
      ensures r == PollListener(old(unlocked.model), l, w).1
      ensures r.Ready? <==> IsNotified(old(unlocked.model), l)
      ensures r.Ready? ==> !IsNotified(unlocked.model, l)
    {
      unlocked.Tidy(l, w);
      r := unlocked.Poll(l, w);
    }

    /** One poll of a `lock` future with listener `l`, suspended at `at`. */
    method PollLock(l: EventList.Listener<()>, at: Point, w: Waker) returns (got: bool)
      requires Valid() && l in unlocked.listeners && (at == Start ==> !l.inList)
      modifies this, unlocked, unlocked.listeners
      ensures Valid() && unlocked.listeners == old(unlocked.listeners)
      ensures (Core(), got) == M.PollLock(old(Core()), l, at, w)
    {
      var here := at;
      unlocked.Tidy(l, w);
      while true
        invariant Valid() && unlocked.listeners == old(unlocked.listeners)
        invariant here == Await ==> at == Await && Core() == old(Core())
        invariant here == Start ==> !IsNotified(unlocked.model, l) && M.PollLock(old(Core()), l, at, w) == M.Retry(Core(), l, w)
        decreases here == Await
      {
        if here == Start {
          var ok := TryLock();
          if ok {
            return true;
          }
        }
        var r := AwaitUnlock(l, w);
        if r.Pending? {
          return false;
        }
        here := Start;
      }
    }

    method DropGuard()
      requires Valid() && locked
      modifies this, unlocked, unlocked.listeners
      ensures Valid() && unlocked.listeners == old(unlocked.listeners)
      ensures Core() == M.Unlock(old(Core()))
    {
      var n, rest := unlocked.Notify(M.ONE);
      locked := false;
    }

    /** The future of `lock` is dropped before it returned. */
    method CancelLock(l: EventList.Listener<()>)
      requires Valid() && l in unlocked.listeners
      modifies this, unlocked, unlocked.listeners
      ensures Valid() && unlocked.listeners == old(unlocked.listeners)
      ensures Core() == M.CancelLock(old(Core()), l)
    {
      unlocked.Drop(l);
    }
  }
}
