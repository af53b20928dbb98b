/** `src/executor.rs`: runnables move between a thread-local queue, a queue other threads push to,
    and the tags of the event the tickers sleep on. */
module ExecutorModel {
  import opened Prelude
  import opened Notifications
  import opened EventModel
  import opened EventWakes
  import opened HeldItems

  /** `thread` is the thread waker, `slot` the content of the mainstream waker, `listening` tells
      whether some ticker has the mainstream role; `wakes` logs the calls of the mainstream waker. */
  datatype Core<Id, R> = Core(
    thread: EventState<Id, Option<R>>, local: seq<R>, remote: seq<R>,
    slot: Option<Waker>, listening: bool, wakes: seq<Waker>)

  /** What a piece of `tick` comes to: it runs a runnable and then polls its listener once more, it
      runs one and returns, it turns to the mainstream queue, it is pending, or it returns. */
  datatype Turn<R> = Runs(r: R) | RunsLast(r: R) | Consults | Parks | Returns

  // ----- the scheduler

  /** On the thread of the executor: into the tag of a ticker, or to the local queue. */
  function ScheduleHere<Id, R>(c: Core<Id, R>, r: R): Core<Id, R> {
    var c1 := c.(thread := Notify(c.thread, Handing(r)));
    if Growth(c.thread, Handing(r)) > 0 then c1 else c1.(local := c.local + [r])
  }

  /** From elsewhere: first the push, then, as a step of its own, the wake. */
  function Push<Id, R>(c: Core<Id, R>, r: R): Core<Id, R> { c.(remote := c.remote + [r]) }

  function WakeMain<Id, R>(c: Core<Id, R>): Core<Id, R> {
    if c.slot.Some? then c.(slot := None, wakes := c.wakes + [c.slot.value]) else c
  }

  /** `try_tick` up to the run; one from the mainstream queue is followed by a wake. */
  function TryTick<Id, R>(c: Core<Id, R>): (Core<Id, R>, Option<R>) {
    if |c.local| > 0 then (c.(local := c.local[1..], thread := Notify(c.thread, Bare<R>(1))), Some(c.local[0]))
    else if |c.remote| > 0 then (c.(remote := c.remote[1..]), Some(c.remote[0]))
    else (c, None)
  }

  // ----- the ticker

  /** The loop of `tick` from its top, the listener not in the list, to the mainstream queue or to
      the `.await`; `main` is the ticker's `is_mainstream`. */
  function TickTop<Id(==), R>(c: Core<Id, R>, id: Id, main: bool, w: Waker): (Core<Id, R>, bool, Turn<R>) {
    if |c.local| > 0 then
      (c.(local := c.local[1..], thread := Notify(c.thread, Bare<R>(1))), main, RunsLast(c.local[0]))
    else
      var main' := main || !c.listening;
      (c.(listening := true, thread := PollListener(c.thread, id, w).0), main', if main' then Consults else Parks)
  }

  /** A poll of a suspended `tick`, up to the mainstream queue. */
  function TickResume<Id(==), R>(c: Core<Id, R>, id: Id, main: bool, w: Waker): (Core<Id, R>, bool, Turn<R>) {
    var (e, r) := PollListener(c.thread, id, w);
    var c1 := c.(thread := e);
    if r.Pending? then (c1, main, if main then Consults else Parks)
    else if r.value.Some? then (c1, main, Runs(r.value.value))
    else TickTop(c1, id, main, w)
  }

  /** A pop of the mainstream queue; after the waker was registered, a success takes it back. */
  function MainPop<Id, R>(c: Core<Id, R>, registered: bool): (Core<Id, R>, Turn<R>) {
    if |c.remote| > 0 then
      (c.(remote := c.remote[1..], slot := if registered then None else c.slot), Runs(c.remote[0]))
    else (c, if registered then Parks else Consults)
  }

  function MainRegister<Id, R>(c: Core<Id, R>, w: Waker): Core<Id, R> { c.(slot := Some(w)) }

  /** After a run: `poll_once` of the listener, which is dropped if it is still not notified. */
  function AfterRun<Id(==), R>(c: Core<Id, R>, id: Id, w: Waker): (Core<Id, R>, Turn<R>) {
    var (e, r) := PollListener(c.thread, id, w);
    if r.Pending? then (c.(thread := DropListener(e, id)), Returns)
    else (c.(thread := e), if r.value.Some? then RunsLast(r.value.value) else Returns)
  }

  function CancelTick<Id(==), R>(c: Core<Id, R>, id: Id): Core<Id, R> {
    c.(thread := DropListener(c.thread, id))
  }

  function DropTicker<Id, R>(c: Core<Id, R>, main: bool): Core<Id, R> {
    if main then c.(slot := None, listening := false, thread := Notify(c.thread, Bare<R>(1))) else c
  }

  // ----- every run

  /** Where a ticker stands: between ticks; before its first pop, its registration and its second
      pop of the mainstream queue; pending; running a runnable, with a poll of its listener to
      follow or not. */
  datatype Phase = Idle | Popping | Registering | Rechecking | Parked | Running | Finishing

  /** `waker` is that of its latest poll; `mark` mainstream wakes had been made when it was last
      registered. */
  datatype Ticker = Ticker(main: bool, phase: Phase, waker: Waker, mark: nat)

  /** `pushing` counts the pushers between their push and their wake, `waking` the same for
      `try_tick`; `scheduled`, `taken` and `lost` log runnables. */
  datatype State<R> = State(
    core: Core<nat, R>, tickers: map<nat, Ticker>, pushing: nat, waking: nat,
    scheduled: seq<R>, taken: seq<R>, lost: seq<R>)

  datatype Action<R> =
    | NewTicker(id: nat)
    | PollTick(id: nat, w: Waker)
    | MainStep(id: nat)
    | RunEnds(id: nat)
    | DropTick(id: nat)
    | LoseTicker(id: nat)
    | Schedule(r: R)
    | PushFrom(r: R)
    | PusherWakes
    | TryTickNow
    | TryTickWakes

  function Init<R>(): State<R> {
    State(Core(Empty(), [], [], None, false, []), map[], 0, 0, [], [], [])
  }

  function PhaseAfter<R>(turn: Turn<R>): Phase {
    match turn
    case Runs(_) => Running
    case RunsLast(_) => Finishing
    case Consults => Popping
    case Parks => Parked
    case Returns => Idle
  }

  function Taken<R>(turn: Turn<R>): seq<R> { if turn.Runs? || turn.RunsLast? then [turn.r] else [] }

  function After<R>(s: State<R>, id: nat, t: Ticker, c: Core<nat, R>, turn: Turn<R>): State<R> {
    s.(core := c, tickers := s.tickers[id := t.(phase := PhaseAfter(turn))], taken := s.taken + Taken(turn))
  }

  function StepPoll<R>(s: State<R>, id: nat, w: Waker): State<R> {
    if id !in s.tickers || !(s.tickers[id].phase == Idle || s.tickers[id].phase == Parked) then s
    else
      var t := s.tickers[id];
      var (c, main, turn) := if t.phase == Idle then TickTop(s.core, id, t.main, w) else TickResume(s.core, id, t.main, w);
      After(s, id, Ticker(main, t.phase, w, t.mark), c, turn)
  }

  function StepMain<R>(s: State<R>, id: nat): State<R> {
    if id !in s.tickers then s
    else
      var t := s.tickers[id];
      match t.phase
      case Popping =>
        var (c, turn) := MainPop(s.core, false);
        if turn == Consults then s.(tickers := s.tickers[id := t.(phase := Registering)]) else After(s, id, t, c, turn)
      case Registering =>
        s.(core := MainRegister(s.core, t.waker),
           tickers := s.tickers[id := t.(phase := Rechecking, mark := |s.core.wakes|)])
      case Rechecking =>
        var (c, turn) := MainPop(s.core, true);
        After(s, id, t, c, turn)
      case _ => s
  }

  function StepRunEnds<R>(s: State<R>, id: nat): State<R> {
    if id !in s.tickers then s
    else
      var t := s.tickers[id];
      match t.phase
      case Running =>
        var (c, turn) := AfterRun(s.core, id, t.waker);
        After(s, id, t, c, turn)
      case Finishing => s.(tickers := s.tickers[id := t.(phase := Idle)])
      case _ => s
  }

  function StepDrop<R>(s: State<R>, id: nat): State<R> {
    if id !in s.tickers || s.tickers[id].phase != Parked then s
    else
      s.(core := CancelTick(s.core, id), tickers := s.tickers[id := s.tickers[id].(phase := Idle)],
         lost := s.lost + LostBy(s.core.thread, id))
  }

  function StepLose<R>(s: State<R>, id: nat): State<R> {
    if id !in s.tickers || s.tickers[id].phase != Idle then s
    else s.(core := DropTicker(s.core, s.tickers[id].main), tickers := s.tickers - {id})
  }

  function StepTryTick<R>(s: State<R>): State<R> {
    var (c, r) := TryTick(s.core);
    if r.None? then s
    else s.(core := c, taken := s.taken + [r.value], waking := s.waking + if |s.core.local| == 0 then 1 else 0)
  }

  function StepNew<R>(s: State<R>, id: nat): State<R> {
    if id in s.tickers then s else s.(tickers := s.tickers[id := Ticker(false, Idle, Waker(0, 0, 0), 0)])
  }

  function StepSchedule<R>(s: State<R>, r: R): State<R> {
    s.(core := ScheduleHere(s.core, r), scheduled := s.scheduled + [r])
  }

  function StepPush<R>(s: State<R>, r: R): State<R> {
    s.(core := Push(s.core, r), scheduled := s.scheduled + [r], pushing := s.pushing + 1)
  }

  function StepPusherWakes<R>(s: State<R>): State<R> {
    if s.pushing == 0 then s else s.(core := WakeMain(s.core), pushing := s.pushing - 1)
  }

  function StepTryTickWakes<R>(s: State<R>): State<R> {
    if s.waking == 0 then s else s.(core := WakeMain(s.core), waking := s.waking - 1)
  }

  /** One action; one that is not possible changes nothing. Ticks are dropped while pending, tickers
      between ticks. */
  function Step<R>(s: State<R>, a: Action<R>): State<R> {
    match a
    case NewTicker(id) => StepNew(s, id)
    case PollTick(id, w) => StepPoll(s, id, w)
    case MainStep(id) => StepMain(s, id)
    case RunEnds(id) => StepRunEnds(s, id)
    case DropTick(id) => StepDrop(s, id)
    case LoseTicker(id) => StepLose(s, id)
    case Schedule(r) => StepSchedule(s, r)
    case PushFrom(r) => StepPush(s, r)
    case PusherWakes => StepPusherWakes(s)
    case TryTickNow => StepTryTick(s)
    case TryTickWakes => StepTryTickWakes(s)
  }

  function Run<R>(s: State<R>, acts: seq<Action<R>>): State<R>
    decreases |acts|
  {
    if |acts| == 0 then s else Run(Step(s, acts[0]), acts[1..])
  }

  // ----- no runnable is in two places, none disappears

  ghost function Outstanding<R>(c: Core<nat, R>): multiset<R> {
    multiset(c.local) + multiset(c.remote) + multiset(Held(c.thread.notified))
  }

  ghost predicate Conserved<R>(s: State<R>) {
    multiset(s.scheduled) == multiset(s.taken) + Outstanding(s.core) + multiset(s.lost)
  }

  /** The turn takes from what is outstanding exactly the runnable it runs. */
  ghost predicate Balanced<R>(c: Core<nat, R>, c': Core<nat, R>, run: seq<R>) {
    Outstanding(c) == Outstanding(c') + multiset(run)
  }

  lemma BareBalanced<R>(c: Core<nat, R>)
    ensures Outstanding(c.(thread := Notify(c.thread, Bare<R>(1)))) == Outstanding(c)
  {
    BareHolds(c.thread, 1);
  }

  lemma PopLocal<R>(c: Core<nat, R>)
    requires |c.local| > 0
    ensures Balanced(c, c.(local := c.local[1..], thread := Notify(c.thread, Bare<R>(1))), [c.local[0]])
  {
    BareBalanced(c.(local := c.local[1..]));
    MultisetHead(c.local);
  }

  lemma PopRemote<R>(c: Core<nat, R>, slot: Option<Waker>)
    requires |c.remote| > 0
    ensures Balanced(c, c.(remote := c.remote[1..], slot := slot), [c.remote[0]])
  {
    MultisetHead(c.remote);
  }

  lemma TopBalanced<R>(c: Core<nat, R>, id: nat, main: bool, w: Waker)
    requires !IsNotified(c.thread, id)
    ensures var (c', _, turn) := TickTop(c, id, main, w); Balanced(c, c', Taken(turn))
  {
    if |c.local| > 0 {
      PopLocal(c);
    } else {
      PollSleeps(c.thread, id, w);
    }
  }

  lemma ResumeBalanced<R>(c: Core<nat, R>, id: nat, main: bool, w: Waker)
    requires Wf(c.thread)
    ensures var (c', _, turn) := TickResume(c, id, main, w); Balanced(c, c', Taken(turn))
  {
    if IsNotified(c.thread, id) {
      PollReady(c.thread, id, w);
      PollHolds(c.thread, id, w);
      var (e, r) := PollListener(c.thread, id, w);
      Members(e);
      ReadyBalanced(c, c.(thread := e), r.value, id, main, w);
    } else {
      PollSleeps(c.thread, id, w);
    }
  }

  lemma ReadyBalanced<R>(c: Core<nat, R>, c1: Core<nat, R>, tag: Option<R>, id: nat, main: bool, w: Waker)
    requires !IsNotified(c1.thread, id) && c1.local == c.local && c1.remote == c.remote
    requires multiset(Held(c.thread.notified)) == multiset(Held(c1.thread.notified)) + multiset(ItemOf(tag))
    ensures Balanced(c, c1, ItemOf(tag))
    ensures tag.None? ==> var (c', _, turn) := TickTop(c1, id, main, w); Balanced(c, c', Taken(turn))
  {
    if tag.None? {
      TopBalanced(c1, id, main, w);
    }
  }

  /** A listener polled and dropped at once holds nothing, and loses nothing. */
  lemma PollAndDropHolds<R>(e: EventState<nat, Option<R>>, id: nat, w: Waker)
    requires !IsNotified(e, id)
    ensures var (e', r) := PollListener(e, id, w); r.Pending? && DropListener(e', id).notified == e.notified
  {
    PollSleeps(e, id, w);
  }

  lemma AfterRunNotified<R>(c: Core<nat, R>, id: nat, w: Waker)
    requires IsNotified(c.thread, id)
    ensures var (c', turn) := AfterRun(c, id, w); Balanced(c, c', Taken(turn))
  {
    var (e, r) := PollListener(c.thread, id, w);
    PollHolds(c.thread, id, w);
  }

  lemma AfterRunDropped<R>(c: Core<nat, R>, id: nat, w: Waker)
    requires !IsNotified(c.thread, id)
    ensures var (c', turn) := AfterRun(c, id, w); Balanced(c, c', Taken(turn))
  {
    var (e, r) := PollListener(c.thread, id, w);
    PollAndDropHolds(c.thread, id, w);
  }

  lemma AfterRunBalanced<R>(c: Core<nat, R>, id: nat, w: Waker)
    ensures var (c', turn) := AfterRun(c, id, w); Balanced(c, c', Taken(turn))
  {
    if IsNotified(c.thread, id) {
      AfterRunNotified(c, id, w);
    } else {
      AfterRunDropped(c, id, w);
    }
  }

  lemma ScheduleBalanced<R>(c: Core<nat, R>, r: R)
    ensures Balanced(ScheduleHere(c, r), c, [r])
  {
    HandingNotifies(c.thread, r);
    if |c.thread.notified| == 0 && |c.thread.waiting| > 0 {
      HandBalanced(c, r);
    } else {
      assert ScheduleHere(c, r) == c.(local := c.local + [r]);
    }
  }

  lemma HandBalanced<R>(c: Core<nat, R>, r: R)
    requires |c.thread.waiting| > 0
    ensures Balanced(c.(thread := NotifyFirst(c.thread, Some(r), false)), c, [r])
  {
    NotifyFirstHolds(c.thread, Some(r), false);
  }

  lemma TakeConserved<R>(s: State<R>, s': State<R>, run: seq<R>)
    requires Conserved(s) && Balanced(s.core, s'.core, run)
    requires s'.scheduled == s.scheduled && s'.lost == s.lost && s'.taken == s.taken + run
    ensures Conserved(s')
  {
    assert multiset(s'.taken) == multiset(s.taken) + multiset(run);
  }

  lemma AddConserved<R>(s: State<R>, s': State<R>, r: R)
    requires Conserved(s) && Balanced(s'.core, s.core, [r])
    requires s'.scheduled == s.scheduled + [r] && s'.lost == s.lost && s'.taken == s.taken
    ensures Conserved(s')
  {
    assert multiset(s'.scheduled) == multiset(s.scheduled) + multiset([r]);
  }

  lemma LoseConserved<R>(s: State<R>, s': State<R>, l: seq<R>)
    requires Conserved(s) && Balanced(s.core, s'.core, l)
    requires s'.scheduled == s.scheduled && s'.lost == s.lost + l && s'.taken == s.taken
    ensures Conserved(s')
  {
    assert multiset(s'.lost) == multiset(s.lost) + multiset(l);
  }

  lemma PollConserved<R>(s: State<R>, id: nat, w: Waker)
    requires Conserved(s) && Listed(s)
    ensures Conserved(Step(s, PollTick(id, w)))
  {
    assert Step(s, PollTick(id, w)) == StepPoll(s, id, w);
    Members(s.core.thread);
    if id in s.tickers && s.tickers[id].phase == Idle {
      TopBalanced(s.core, id, s.tickers[id].main, w);
      TakeConserved(s, StepPoll(s, id, w), Taken(TickTop(s.core, id, s.tickers[id].main, w).2));
    } else if id in s.tickers && s.tickers[id].phase == Parked {
      ResumeBalanced(s.core, id, s.tickers[id].main, w);
      TakeConserved(s, StepPoll(s, id, w), Taken(TickResume(s.core, id, s.tickers[id].main, w).2));
    }
  }

  lemma PopRemoteConserved<R>(s: State<R>, s': State<R>, slot: Option<Waker>)
    requires Conserved(s) && |s.core.remote| > 0
    requires s'.core == s.core.(remote := s.core.remote[1..], slot := slot)
    requires s'.scheduled == s.scheduled && s'.lost == s.lost && s'.taken == s.taken + [s.core.remote[0]]
    ensures Conserved(s')
  {
    PopRemote(s.core, slot);
    TakeConserved(s, s', [s.core.remote[0]]);
  }

  lemma PoppingConserved<R>(s: State<R>, id: nat)
    requires Conserved(s) && id in s.tickers && s.tickers[id].phase == Popping
    ensures Conserved(StepMain(s, id))
  {
    if |s.core.remote| > 0 {
      PopRemoteConserved(s, StepMain(s, id), s.core.slot);
    } else {
      StillConserved(s, StepMain(s, id));
    }
  }

  lemma RecheckingConserved<R>(s: State<R>, id: nat)
    requires Conserved(s) && id in s.tickers && s.tickers[id].phase == Rechecking
    ensures Conserved(StepMain(s, id))
  {
    if |s.core.remote| > 0 {
      PopRemoteConserved(s, StepMain(s, id), None);
    } else {
      assert StepMain(s, id).taken == s.taken;
      StillConserved(s, StepMain(s, id));
    }
  }

  lemma MainConserved<R>(s: State<R>, id: nat)
    requires Conserved(s)
    ensures Conserved(Step(s, MainStep(id)))
  {
    assert Step(s, MainStep(id)) == StepMain(s, id);
    if id in s.tickers && s.tickers[id].phase == Popping {
      PoppingConserved(s, id);
    } else if id in s.tickers && s.tickers[id].phase == Rechecking {
      RecheckingConserved(s, id);
    } else {
      StillConserved(s, StepMain(s, id));
    }
  }

  lemma StillConserved<R>(s: State<R>, s': State<R>)
    requires Conserved(s)
    requires s'.core.local == s.core.local && s'.core.remote == s.core.remote && s'.core.thread == s.core.thread
    requires s'.scheduled == s.scheduled && s'.lost == s.lost && s'.taken == s.taken
    ensures Conserved(s')
  {
  }

  lemma RunEndsConserved<R>(s: State<R>, id: nat)
    requires Conserved(s)
    ensures Conserved(Step(s, RunEnds(id)))
  {
    assert Step(s, RunEnds(id)) == StepRunEnds(s, id);
    if id in s.tickers && s.tickers[id].phase == Running {
      AfterRunBalanced(s.core, id, s.tickers[id].waker);
      TakeConserved(s, StepRunEnds(s, id), Taken(AfterRun(s.core, id, s.tickers[id].waker).1));
    }
  }

  lemma TryTickConserved<R>(s: State<R>)
    requires Conserved(s)
    ensures Conserved(Step(s, TryTickNow))
  {
    assert Step(s, TryTickNow) == StepTryTick(s);
    var s' := StepTryTick(s);
    if |s.core.local| > 0 {
      PopLocal(s.core);
      TakeConserved(s, s', [s.core.local[0]]);
    } else if |s.core.remote| > 0 {
      PopRemoteConserved(s, s', s.core.slot);
    }
  }

  lemma CancelBalanced<R>(c: Core<nat, R>, id: nat)
    ensures Balanced(c, CancelTick(c, id), LostBy(c.thread, id))
  {
    DropHolds(c.thread, id);
  }

  lemma DropTickConserved<R>(s: State<R>, id: nat)
    requires Conserved(s)
    ensures Conserved(Step(s, DropTick(id)))
  {
    assert Step(s, DropTick(id)) == StepDrop(s, id);
    if id in s.tickers && s.tickers[id].phase == Parked {
      CancelBalanced(s.core, id);
      LoseConserved(s, StepDrop(s, id), LostBy(s.core.thread, id));
    }
  }

  lemma LeaveBalanced<R>(c: Core<nat, R>, main: bool)
    ensures Balanced(c, DropTicker(c, main), [])
  {
    BareHolds(c.thread, 1);
  }

  lemma LoseTickerConserved<R>(s: State<R>, id: nat)
    requires Conserved(s)
    ensures Conserved(Step(s, LoseTicker(id)))
  {
    assert Step(s, LoseTicker(id)) == StepLose(s, id);
    if id in s.tickers && s.tickers[id].phase == Idle {
      LeaveBalanced(s.core, s.tickers[id].main);
    }
  }

  lemma PusherWakesConserved<R>(s: State<R>)
    requires Conserved(s)
    ensures Conserved(Step(s, PusherWakes))
  {
    assert Step(s, PusherWakes) == StepPusherWakes(s);
    StillConserved(s, StepPusherWakes(s));
  }

  lemma TryTickWakesConserved<R>(s: State<R>)
    requires Conserved(s)
    ensures Conserved(Step(s, TryTickWakes))
  {
    assert Step(s, TryTickWakes) == StepTryTickWakes(s);
    StillConserved(s, StepTryTickWakes(s));
  }

  lemma ScheduleConserved<R>(s: State<R>, r: R)
    requires Conserved(s)
    ensures Conserved(Step(s, Schedule(r)))
  {
    assert Step(s, Schedule(r)) == StepSchedule(s, r);
    ScheduleBalanced(s.core, r);
    AddConserved(s, StepSchedule(s, r), r);
  }

  lemma PushConserved<R>(s: State<R>, r: R)
    requires Conserved(s)
    ensures Conserved(Step(s, PushFrom(r)))
  {
    assert Step(s, PushFrom(r)) == StepPush(s, r);
    AddConserved(s, StepPush(s, r), r);
  }

  lemma NewConserved<R>(s: State<R>, id: nat)
    requires Conserved(s)
    ensures Conserved(Step(s, NewTicker(id)))
  {
    assert Step(s, NewTicker(id)) == StepNew(s, id);
    StillConserved(s, StepNew(s, id));
  }

  lemma StepConserved<R>(s: State<R>, a: Action<R>)
    requires Conserved(s) && Listed(s)
    ensures Conserved(Step(s, a))
  {
    match a
    case NewTicker(id) => NewConserved(s, id);
    case PollTick(id, w) => PollConserved(s, id, w);
    case MainStep(id) => MainConserved(s, id);
    case RunEnds(id) => RunEndsConserved(s, id);
    case DropTick(id) => DropTickConserved(s, id);
    case LoseTicker(id) => LoseTickerConserved(s, id);
    case Schedule(r) => ScheduleConserved(s, r);
    case PushFrom(r) => PushConserved(s, r);
    case PusherWakes => PusherWakesConserved(s);
    case TryTickNow => TryTickConserved(s);
    case TryTickWakes => TryTickWakesConserved(s);
  }

  // ----- who is in the list

  predicate MustListen(p: Phase) { p.Popping? || p.Registering? || p.Rechecking? || p.Parked? }

  predicate MayListen(p: Phase) { MustListen(p) || p.Running? }

  ghost predicate Listed<R>(s: State<R>) {
    && Wf(s.core.thread) && |s.core.thread.notified| <= 1
    && (forall id :: id in Order(s.core.thread) ==> id in s.tickers && MayListen(s.tickers[id].phase))
    && (forall id :: id in s.tickers && MustListen(s.tickers[id].phase) ==> id in Order(s.core.thread))
  }

  ghost predicate OthersStay(q': seq<nat>, q: seq<nat>, id: nat) {
    forall x :: x != id ==> (x in q' <==> x in q)
  }

  /** The list after a turn of ticker `id`. */
  ghost predicate Placed<R>(c: Core<nat, R>, c': Core<nat, R>, id: nat, p: Phase) {
    && Wf(c'.thread) && |c'.thread.notified| <= 1
    && OthersStay(Order(c'.thread), Order(c.thread), id)
    && (MustListen(p) ==> id in Order(c'.thread))
    && (id in Order(c'.thread) ==> MayListen(p))
  }

  lemma PlaceListed<R>(s: State<R>, c: Core<nat, R>, id: nat, t: Ticker)
    requires Listed(s) && id in s.tickers && Placed(s.core, c, id, t.phase)
    ensures Listed(s.(core := c, tickers := s.tickers[id := t]))
  {
  }

  lemma PopPlaced<R>(c: Core<nat, R>, id: nat)
    requires Wf(c.thread) && |c.thread.notified| <= 1 && id !in Order(c.thread) && |c.local| > 0
    ensures Placed(c, c.(local := c.local[1..], thread := Notify(c.thread, Bare<R>(1))), id, Finishing)
  {
    NotifyFacts(c.thread, Bare<R>(1));
  }

  lemma JoinPlaced<R>(c: Core<nat, R>, c': Core<nat, R>, id: nat, p: Phase)
    requires |c.thread.notified| <= 1 && MustListen(p)
    requires Wf(c'.thread) && c'.thread.notified == c.thread.notified && Order(c'.thread) == Order(c.thread) + [id]
    ensures Placed(c, c', id, p)
  {
  }

  lemma TopPlaced<R>(c: Core<nat, R>, id: nat, main: bool, w: Waker)
    requires Wf(c.thread) && |c.thread.notified| <= 1 && id !in Order(c.thread)
    ensures var (c', _, turn) := TickTop(c, id, main, w); Placed(c, c', id, PhaseAfter(turn))
  {
    if |c.local| > 0 {
      PopPlaced(c, id);
    } else {
      Members(c.thread);
      PollPending(c.thread, id, w);
      var (c', _, turn) := TickTop(c, id, main, w);
      JoinPlaced(c, c', id, PhaseAfter(turn));
    }
  }

  lemma ResumePlaced<R>(c: Core<nat, R>, id: nat, main: bool, w: Waker)
    requires Wf(c.thread) && |c.thread.notified| <= 1 && id in Order(c.thread)
    ensures var (c', _, turn) := TickResume(c, id, main, w); Placed(c, c', id, PhaseAfter(turn))
  {
    Members(c.thread);
    if IsNotified(c.thread, id) {
      PollReady(c.thread, id, w);
      TopPlaced(c.(thread := PollListener(c.thread, id, w).0), id, main, w);
    } else {
      PollPending(c.thread, id, w);
    }
  }

  lemma DropAsleep<R>(e: EventState<nat, Option<R>>, id: nat)
    requires Wf(e) && !IsNotified(e, id) && id in Order(e)
    ensures var e' := DropListener(e, id);
            Wf(e') && Minus(Order(e'), Order(e), id) && e'.notified == e.notified && |e'.waiting| == |e.waiting| - 1
  {
    DropFacts(e, id);
    DropCount(e, id);
  }

  /** A listener polled and dropped at once leaves the list as it was, but for itself. */
  lemma PollAndDrop<R>(e: EventState<nat, Option<R>>, id: nat, w: Waker)
    requires Wf(e) && !IsNotified(e, id)
    ensures var e' := DropListener(PollListener(e, id, w).0, id);
            Wf(e') && Minus(Order(e'), Order(e), id) && e'.notified == e.notified && |e'.waiting| <= |e.waiting|
  {
    PollPending(e, id, w);
    var e1 := PollListener(e, id, w).0;
    assert |e1.waiting| <= |e.waiting| + 1 by {
      assert |Order(e1)| <= |Order(e)| + 1;
    }
    DropAsleep(e1, id);
  }

  lemma AfterRunPlaced<R>(c: Core<nat, R>, id: nat, w: Waker)
    requires Wf(c.thread) && |c.thread.notified| <= 1
    ensures var (c', turn) := AfterRun(c, id, w);
            && Placed(c, c', id, PhaseAfter(turn)) && id !in Order(c'.thread)
            && |c'.thread.waiting| <= |c.thread.waiting|
  {
    if IsNotified(c.thread, id) {
      PollReady(c.thread, id, w);
    } else {
      PollSleeps(c.thread, id, w);
      PollAndDrop(c.thread, id, w);
    }
  }

  lemma PollListed<R>(s: State<R>, id: nat, w: Waker)
    requires Listed(s)
    ensures Listed(Step(s, PollTick(id, w)))
  {
    if id in s.tickers && s.tickers[id].phase == Idle {
      TopPlaced(s.core, id, s.tickers[id].main, w);
      var (c, main, turn) := TickTop(s.core, id, s.tickers[id].main, w);
      PlaceListed(s, c, id, Ticker(main, PhaseAfter(turn), w, s.tickers[id].mark));
    } else if id in s.tickers && s.tickers[id].phase == Parked {
      ResumePlaced(s.core, id, s.tickers[id].main, w);
      var (c, main, turn) := TickResume(s.core, id, s.tickers[id].main, w);
      PlaceListed(s, c, id, Ticker(main, PhaseAfter(turn), w, s.tickers[id].mark));
    }
  }

  lemma MainListed<R>(s: State<R>, id: nat)
    requires Listed(s)
    ensures Listed(Step(s, MainStep(id)))
  {
    var s' := StepMain(s, id);
    if id in s.tickers {
      PlaceListed(s, s'.core, id, s'.tickers[id]);
    }
  }

  lemma RunEndsListed<R>(s: State<R>, id: nat)
    requires Listed(s)
    ensures Listed(Step(s, RunEnds(id)))
  {
    if id in s.tickers && s.tickers[id].phase == Running {
      AfterRunPlaced(s.core, id, s.tickers[id].waker);
      PlaceListed(s, StepRunEnds(s, id).core, id, StepRunEnds(s, id).tickers[id]);
    }
  }

  lemma DropTickListed<R>(s: State<R>, id: nat)
    requires Listed(s)
    ensures Listed(Step(s, DropTick(id)))
  {
    DropKeeps(s.core.thread, id);
  }

  lemma LoseTickerListed<R>(s: State<R>, id: nat)
    requires Listed(s)
    ensures Listed(Step(s, LoseTicker(id)))
  {
    NotifyFacts(s.core.thread, Bare<R>(1));
  }

  lemma ThreadListed<R>(s: State<R>, s': State<R>)
    requires Listed(s) && s'.tickers == s.tickers
    requires Order(s'.core.thread) == Order(s.core.thread) && |s'.core.thread.notified| <= 1
    ensures Listed(s')
  {
  }

  lemma ScheduleListed<R>(s: State<R>, r: R)
    requires Listed(s)
    ensures Listed(Step(s, Schedule(r)))
  {
    NotifyFacts(s.core.thread, Handing(r));
    ThreadListed(s, StepSchedule(s, r));
  }

  lemma TryTickListed<R>(s: State<R>)
    requires Listed(s)
    ensures Listed(Step(s, TryTickNow))
  {
    NotifyFacts(s.core.thread, Bare<R>(1));
    ThreadListed(s, StepTryTick(s));
  }

  lemma NewListed<R>(s: State<R>, id: nat)
    requires Listed(s)
    ensures Listed(Step(s, NewTicker(id)))
  {
  }

  lemma StepListed<R>(s: State<R>, a: Action<R>)
    requires Listed(s)
    ensures Listed(Step(s, a))
  {
    match a
    case NewTicker(id) => NewListed(s, id);
    case PollTick(id, w) => PollListed(s, id, w);
    case MainStep(id) => MainListed(s, id);
    case RunEnds(id) => RunEndsListed(s, id);
    case DropTick(id) => DropTickListed(s, id);
    case LoseTicker(id) => LoseTickerListed(s, id);
    case Schedule(r) => ScheduleListed(s, r);
    case PushFrom(r) => ThreadListed(s, Step(s, PushFrom(r)));
    case PusherWakes => ThreadListed(s, Step(s, PusherWakes));
    case TryTickNow => TryTickListed(s);
    case TryTickWakes => ThreadListed(s, Step(s, TryTickWakes));
  }

  // ----- the mainstream role

  predicate InMain(p: Phase) { p.Popping? || p.Registering? || p.Rechecking? }

  /** The flag is set exactly while one ticker has the role, and only that one is in the mainstream
      part of a poll. */
  ghost predicate Roles<R>(s: State<R>) {
    && (s.core.listening <==> exists id :: id in s.tickers && s.tickers[id].main)
    && (forall a, b :: a in s.tickers && b in s.tickers && s.tickers[a].main && s.tickers[b].main ==> a == b)
    && (forall id :: id in s.tickers && InMain(s.tickers[id].phase) ==> s.tickers[id].main)
  }

  predicate KeptOrTaken(listening: bool, main: bool, listening': bool, main': bool) {
    if listening' == listening then main' == main else listening' && main'
  }

  /** Ticker `id` keeps its role, or takes it up while nobody has it. */
  lemma ChangeRoles<R>(s: State<R>, s': State<R>, id: nat, t: Ticker)
    requires Roles(s) && id in s.tickers && s'.tickers == s.tickers[id := t] && (InMain(t.phase) ==> t.main)
    requires KeptOrTaken(s.core.listening, s.tickers[id].main, s'.core.listening, t.main)
    ensures Roles(s')
  {
    if s'.core.listening {
      var a := if t.main then id else var b :| b in s.tickers && s.tickers[b].main; b;
      assert s'.tickers[a].main;
    }
    if s'.core.listening != s.core.listening {
      assert forall a :: a in s'.tickers && s'.tickers[a].main ==> a == id;
    }
  }

  lemma TopRole<R>(c: Core<nat, R>, id: nat, main: bool, w: Waker)
    requires main ==> c.listening
    ensures var (c', main', turn) := TickTop(c, id, main, w);
            && KeptOrTaken(c.listening, main, c'.listening, main')
            && (InMain(PhaseAfter(turn)) ==> main') && (main' ==> PhaseAfter(turn) != Parked)
            && c'.slot == c.slot && c'.wakes == c.wakes && c'.remote == c.remote
  {
  }

  lemma ResumeRole<R>(c: Core<nat, R>, id: nat, main: bool, w: Waker)
    requires main ==> c.listening
    ensures var (c', main', turn) := TickResume(c, id, main, w);
            && KeptOrTaken(c.listening, main, c'.listening, main')
            && (InMain(PhaseAfter(turn)) ==> main') && (main' ==> PhaseAfter(turn) != Parked)
            && c'.slot == c.slot && c'.wakes == c.wakes && c'.remote == c.remote
  {
    if IsNotified(c.thread, id) {
      TopRole(c.(thread := PollListener(c.thread, id, w).0), id, main, w);
    }
  }

  lemma PollRoles<R>(s: State<R>, id: nat, w: Waker)
    requires Roles(s)
    ensures Roles(Step(s, PollTick(id, w)))
  {
    if id in s.tickers && s.tickers[id].phase == Idle {
      TopRole(s.core, id, s.tickers[id].main, w);
      ChangeRoles(s, StepPoll(s, id, w), id, StepPoll(s, id, w).tickers[id]);
    } else if id in s.tickers && s.tickers[id].phase == Parked {
      ResumeRole(s.core, id, s.tickers[id].main, w);
      ChangeRoles(s, StepPoll(s, id, w), id, StepPoll(s, id, w).tickers[id]);
    }
  }

  lemma LoseTickerRoles<R>(s: State<R>, id: nat)
    requires Roles(s)
    ensures Roles(Step(s, LoseTicker(id)))
  {
    if id in s.tickers && s.tickers[id].phase == Idle && !s.tickers[id].main && s.core.listening {
      var b :| b in s.tickers && s.tickers[b].main;
      assert (s.tickers - {id})[b].main;
    }
  }

  lemma NewTickerRoles<R>(s: State<R>, id: nat)
    requires Roles(s)
    ensures Roles(Step(s, NewTicker(id)))
  {
    if id !in s.tickers && s.core.listening {
      var b :| b in s.tickers && s.tickers[b].main;
      assert StepNew(s, id).tickers[b].main;
    }
  }

  lemma SameTicker<R>(s: State<R>, id: nat)
    requires id in s.tickers
    ensures s.tickers[id := s.tickers[id]] == s.tickers
  {
  }

  lemma SameRoles<R>(s: State<R>, s': State<R>)
    requires Roles(s) && s'.tickers == s.tickers && s'.core.listening == s.core.listening
    ensures Roles(s')
  {
  }

  lemma MainRoles<R>(s: State<R>, id: nat)
    requires Roles(s)
    ensures Roles(Step(s, MainStep(id)))
  {
    if id in s.tickers {
      SameTicker(s, id);
      ChangeRoles(s, StepMain(s, id), id, StepMain(s, id).tickers[id]);
    }
  }

  /** The end of a run touches neither the role nor the mainstream queue. */
  lemma RunEndsKeeps<R>(s: State<R>, id: nat)
    requires id in s.tickers
    ensures var s' := StepRunEnds(s, id);
            && id in s'.tickers && s'.tickers == s.tickers[id := s'.tickers[id]] && s'.pushing == s.pushing
            && s'.core == s.core.(thread := s'.core.thread)
            && s'.tickers[id] == s.tickers[id].(phase := s'.tickers[id].phase)
            && (s'.tickers[id] == s.tickers[id] || s'.tickers[id].phase == Idle || s'.tickers[id].phase == Finishing)
  {
    SameTicker(s, id);
  }

  lemma RunEndsRoles<R>(s: State<R>, id: nat)
    requires Roles(s)
    ensures Roles(Step(s, RunEnds(id)))
  {
    assert Step(s, RunEnds(id)) == StepRunEnds(s, id);
    if id in s.tickers {
      RunEndsKeeps(s, id);
      ChangeRoles(s, StepRunEnds(s, id), id, StepRunEnds(s, id).tickers[id]);
    }
  }

  lemma DropTickRoles<R>(s: State<R>, id: nat)
    requires Roles(s)
    ensures Roles(Step(s, DropTick(id)))
  {
    if id in s.tickers {
      SameTicker(s, id);
      ChangeRoles(s, StepDrop(s, id), id, StepDrop(s, id).tickers[id]);
    }
  }

  lemma StepRoles<R>(s: State<R>, a: Action<R>)
    requires Roles(s)
    ensures Roles(Step(s, a))
  {
    match a
    case NewTicker(id) => NewTickerRoles(s, id);
    case PollTick(id, w) => PollRoles(s, id, w);
    case MainStep(id) => MainRoles(s, id);
    case RunEnds(id) => RunEndsRoles(s, id);
    case DropTick(id) => DropTickRoles(s, id);
    case LoseTicker(id) => LoseTickerRoles(s, id);
    case Schedule(r) => SameRoles(s, Step(s, Schedule(r)));
    case PushFrom(r) => SameRoles(s, Step(s, PushFrom(r)));
    case PusherWakes => SameRoles(s, Step(s, PusherWakes));
    case TryTickNow => SameRoles(s, Step(s, TryTickNow));
    case TryTickWakes => SameRoles(s, Step(s, TryTickWakes));
  }

  // ----- register, then look again

  /** The mainstream waker was called with the ticker's waker since the ticker registered it. */
  ghost predicate Fired(wakes: seq<Waker>, t: Ticker) {
    exists i :: t.mark <= i < |wakes| && wakes[i] == t.waker
  }

  ghost predicate Covered<R>(c: Core<nat, R>, pushing: nat, t: Ticker) {
    && t.mark <= |c.wakes|
    && (t.main && t.phase == Rechecking ==> Fired(c.wakes, t) || c.slot == Some(t.waker))
    && (t.main && t.phase == Parked ==>
          Fired(c.wakes, t) || (c.slot == Some(t.waker) && (|c.remote| > 0 ==> pushing > 0)))
  }

  ghost predicate Roused<R>(s: State<R>) {
    forall id :: id in s.tickers ==> Covered(s.core, s.pushing, s.tickers[id])
  }

  lemma WakeCovers<R>(c: Core<nat, R>, pushing: nat, t: Ticker, less: nat)
    requires Covered(c, pushing, t)
    ensures Covered(WakeMain(c), less, t)
  {
    var c' := WakeMain(c);
    if Fired(c.wakes, t) {
      var i :| t.mark <= i < |c.wakes| && c.wakes[i] == t.waker;
      assert c'.wakes[i] == t.waker;
    } else if c.slot == Some(t.waker) {
      assert c'.wakes[|c.wakes|] == t.waker;
    }
  }

  lemma WakeRouses<R>(s: State<R>)
    requires Roused(s)
    ensures Roused(Step(s, PusherWakes)) && Roused(Step(s, TryTickWakes))
  {
    forall id | id in s.tickers
      ensures Covered(WakeMain(s.core), s.pushing, s.tickers[id])
      ensures s.pushing > 0 ==> Covered(WakeMain(s.core), s.pushing - 1, s.tickers[id])
    {
      WakeCovers(s.core, s.pushing, s.tickers[id], s.pushing);
      if s.pushing > 0 {
        WakeCovers(s.core, s.pushing, s.tickers[id], s.pushing - 1);
      }
    }
  }

  lemma PollRouses<R>(s: State<R>, id: nat, w: Waker)
    requires Roused(s) && Roles(s)
    ensures Roused(Step(s, PollTick(id, w)))
  {
    if id in s.tickers && s.tickers[id].phase == Idle {
      TopRole(s.core, id, s.tickers[id].main, w);
    } else if id in s.tickers && s.tickers[id].phase == Parked {
      ResumeRole(s.core, id, s.tickers[id].main, w);
    }
  }

  lemma MainRouses<R>(s: State<R>, id: nat)
    requires Roused(s) && Roles(s)
    ensures Roused(Step(s, MainStep(id)))
  {
    if id in s.tickers && InMain(s.tickers[id].phase) {
      var s' := StepMain(s, id);
      forall a | a in s'.tickers
        ensures Covered(s'.core, s'.pushing, s'.tickers[a])
      {
        assert Covered(s.core, s.pushing, s.tickers[a]);
        assert a != id ==> !s.tickers[a].main;
      }
    }
  }

  /** The waker stays, and nothing was queued without somebody about to wake. */
  lemma SlotRouses<R>(s: State<R>, s': State<R>)
    requires Roused(s) && s'.core.slot == s.core.slot && s'.core.wakes == s.core.wakes
    requires |s'.core.remote| > 0 ==> s'.pushing > 0 || (|s.core.remote| > 0 && s.pushing == 0)
    requires forall id :: id in s'.tickers ==>
               (id in s.tickers && s'.tickers[id] == s.tickers[id])
               || (s'.tickers[id].mark <= |s.core.wakes| && (s'.tickers[id].phase == Idle || s'.tickers[id].phase == Finishing))
    ensures Roused(s')
  {
    forall id | id in s'.tickers
      ensures Covered(s'.core, s'.pushing, s'.tickers[id])
    {
      assert id in s.tickers ==> Covered(s.core, s.pushing, s.tickers[id]);
    }
  }

  lemma LoseTickerRouses<R>(s: State<R>, id: nat)
    requires Roused(s) && Roles(s)
    ensures Roused(Step(s, LoseTicker(id)))
  {
    forall x | x in StepLose(s, id).tickers
      ensures Covered(StepLose(s, id).core, s.pushing, s.tickers[x])
    {
      assert Covered(s.core, s.pushing, s.tickers[x]);
    }
  }

  lemma RunEndsRouses<R>(s: State<R>, id: nat)
    requires Roused(s)
    ensures Roused(Step(s, RunEnds(id)))
  {
    assert Step(s, RunEnds(id)) == StepRunEnds(s, id);
    if id in s.tickers {
      assert Covered(s.core, s.pushing, s.tickers[id]);
      RunEndsKeeps(s, id);
      SlotRouses(s, StepRunEnds(s, id));
    }
  }

  lemma DropTickRouses<R>(s: State<R>, id: nat)
    requires Roused(s)
    ensures Roused(Step(s, DropTick(id)))
  {
    assert Step(s, DropTick(id)) == StepDrop(s, id);
    if id in s.tickers {
      assert Covered(s.core, s.pushing, s.tickers[id]);
      SlotRouses(s, StepDrop(s, id));
    }
  }

  lemma StepRoused<R>(s: State<R>, a: Action<R>)
    requires Roused(s) && Roles(s)
    ensures Roused(Step(s, a))
  {
    match a
    case NewTicker(id) => SlotRouses(s, Step(s, NewTicker(id)));
    case PollTick(id, w) => PollRouses(s, id, w);
    case MainStep(id) => MainRouses(s, id);
    case RunEnds(id) => RunEndsRouses(s, id);
    case DropTick(id) => DropTickRouses(s, id);
    case LoseTicker(id) => LoseTickerRouses(s, id);
    case Schedule(r) => SlotRouses(s, Step(s, Schedule(r)));
    case PushFrom(r) => SlotRouses(s, Step(s, PushFrom(r)));
    case PusherWakes => WakeRouses(s);
    case TryTickNow => SlotRouses(s, Step(s, TryTickNow));
    case TryTickWakes => WakeRouses(s);
  }

  // ----- what holds in every run

  ghost predicate Inv<R>(s: State<R>) { Conserved(s) && Listed(s) && Roles(s) && Roused(s) }

  lemma {:induction false} RunKeeps<R>(s: State<R>, acts: seq<Action<R>>)
    requires Inv(s)
    ensures Inv(Run(s, acts))
    decreases |acts|
  {
    if |acts| > 0 {
      StepConserved(s, acts[0]);
      StepListed(s, acts[0]);
      StepRoles(s, acts[0]);
      StepRoused(s, acts[0]);
      RunKeeps(Step(s, acts[0]), acts[1..]);
    }
  }

  /** Every scheduled runnable is in exactly one place, and was taken to be run at most once for
      each time it was scheduled. At most one ticker is notified. */
  lemma RunnablesAreConserved<R>(acts: seq<Action<R>>)
    ensures var s := Run(Init<R>(), acts);
            && multiset(s.scheduled) == multiset(s.taken) + multiset(s.core.local) + multiset(s.core.remote)
                                        + multiset(Held(s.core.thread.notified)) + multiset(s.lost)
            && |s.core.thread.notified| <= 1
  {
    RunKeeps(Init<R>(), acts);
    var s := Run(Init<R>(), acts);
    assert Conserved(s);
  }

  lemma OthersLoseNothing<R>(s: State<R>, a: Action<R>)
    requires !a.DropTick?
    ensures Step(s, a).lost == s.lost
  {
  }

  lemma DropTickLoses<R>(s: State<R>, id: nat)
    requires Listed(s)
    ensures var nobody := id in s.tickers && s.tickers[id].phase == Parked && |s.core.thread.waiting| == 0;
            Step(s, DropTick(id)).lost == s.lost + if nobody then ItemOf(TagOf(s.core.thread, id)) else []
  {
    LossExactly(s.core.thread, id);
  }

  /** A runnable is discarded exactly when a pending `tick` is dropped whose listener holds it, and
      no un-notified listener is left to take it. */
  lemma LossesExactly<R>(acts: seq<Action<R>>, a: Action<R>)
    ensures var s := Run(Init<R>(), acts);
            var nobody := a.DropTick? && a.id in s.tickers && s.tickers[a.id].phase == Parked && |s.core.thread.waiting| == 0;
            Step(s, a).lost == s.lost + (if nobody then ItemOf(TagOf(s.core.thread, a.id)) else [])
  {
    RunKeeps(Init<R>(), acts);
    var s := Run(Init<R>(), acts);
    if a.DropTick? {
      DropTickLoses(s, a.id);
    } else {
      OthersLoseNothing(s, a);
    }
  }

  /** `is_mainstream_listening` is set exactly while one live ticker has the role, and never two do. */
  lemma OneMainstreamTicker<R>(acts: seq<Action<R>>)
    ensures var s := Run(Init<R>(), acts);
            && (s.core.listening <==> exists id :: id in s.tickers && s.tickers[id].main)
            && (forall a, b :: a in s.tickers && b in s.tickers && s.tickers[a].main && s.tickers[b].main ==> a == b)
  {
    RunKeeps(Init<R>(), acts);
  }

  predicate Housed<R>(c: Core<nat, R>) { c.slot.Some? ==> c.listening }

  lemma StepHoused<R>(s: State<R>, a: Action<R>)
    requires Roles(s) && Housed(s.core)
    ensures Housed(Step(s, a).core)
  {
    match a
    case PollTick(id, w) =>
      assert Step(s, a) == StepPoll(s, id, w);
      if id in s.tickers {
        TopRole(s.core, id, s.tickers[id].main, w);
        ResumeRole(s.core, id, s.tickers[id].main, w);
      }
    case MainStep(id) => assert Step(s, a) == StepMain(s, id);
    case RunEnds(id) => if id in s.tickers { RunEndsKeeps(s, id); }
    case _ =>
  }

  lemma {:induction false} RunHoused<R>(s: State<R>, acts: seq<Action<R>>)
    requires Inv(s) && Housed(s.core)
    ensures Housed(Run(s, acts).core)
    decreases |acts|
  {
    if |acts| > 0 {
      StepConserved(s, acts[0]);
      StepListed(s, acts[0]);
      StepRoles(s, acts[0]);
      StepRoused(s, acts[0]);
      StepHoused(s, acts[0]);
      RunHoused(Step(s, acts[0]), acts[1..]);
    }
  }

  /** No waker is left behind: one is registered with the mainstream queue only while some live ticker
      has the role. */
  lemma NoWakerLeftBehind<R>(acts: seq<Action<R>>)
    ensures var s := Run(Init<R>(), acts); s.core.slot.Some? ==> exists id :: id in s.tickers && s.tickers[id].main
  {
    RunKeeps(Init<R>(), acts);
    RunHoused(Init<R>(), acts);
  }

  /** Whatever the interleaving with pushers: while the mainstream ticker is parked and the
      mainstream queue is not empty, its waker was called since its latest poll registered it, or some
      pusher has pushed and is about to wake. */
  lemma MainstreamIsNotForgotten<R>(acts: seq<Action<R>>, id: nat)
    ensures var s := Run(Init<R>(), acts);
            id in s.tickers && s.tickers[id].main && s.tickers[id].phase == Parked && |s.core.remote| > 0 ==>
              Fired(s.core.wakes, s.tickers[id]) || s.pushing > 0
  {
    RunKeeps(Init<R>(), acts);
    var s := Run(Init<R>(), acts);
    if id in s.tickers {
      assert Covered(s.core, s.pushing, s.tickers[id]);
    }
  }

  // ----- both queues are first in, first out

  /** What the action appends to the mainstream queue and to the local queue. */
  function PushedBy<R>(a: Action<R>): seq<R> { if a.PushFrom? then [a.r] else [] }

  function QueuedBy<R>(s: State<R>, a: Action<R>): seq<R> {
    if a.Schedule? && |Step(s, a).core.local| > |s.core.local| then [a.r] else []
  }

  /** The runnables the action takes to run. */
  function TakenBy<R>(s: State<R>, a: Action<R>): seq<R> {
    if |Step(s, a).taken| >= |s.taken| then Step(s, a).taken[|s.taken|..] else []
  }

  /** What it takes from the mainstream queue and from the local queue. */
  function PoppedBy<R>(s: State<R>, a: Action<R>): seq<R> {
    if |Step(s, a).core.remote| < |s.core.remote| then TakenBy(s, a) else []
  }

  function DequeuedBy<R>(s: State<R>, a: Action<R>): seq<R> {
    if |Step(s, a).core.local| < |s.core.local| then TakenBy(s, a) else []
  }

  function Pushed<R>(acts: seq<Action<R>>): seq<R> {
    if |acts| == 0 then [] else PushedBy(acts[0]) + Pushed(acts[1..])
  }

  function Popped<R>(s: State<R>, acts: seq<Action<R>>): seq<R>
    decreases |acts|
  {
    if |acts| == 0 then [] else PoppedBy(s, acts[0]) + Popped(Step(s, acts[0]), acts[1..])
  }

  function Queued<R>(s: State<R>, acts: seq<Action<R>>): seq<R>
    decreases |acts|
  {
    if |acts| == 0 then [] else QueuedBy(s, acts[0]) + Queued(Step(s, acts[0]), acts[1..])
  }

  function Dequeued<R>(s: State<R>, acts: seq<Action<R>>): seq<R>
    decreases |acts|
  {
    if |acts| == 0 then [] else DequeuedBy(s, acts[0]) + Dequeued(Step(s, acts[0]), acts[1..])
  }

  ghost predicate Queues<R>(s: State<R>, a: Action<R>) {
    var s' := Step(s, a);
    && s.core.remote + PushedBy(a) == PoppedBy(s, a) + s'.core.remote
    && s.core.local + QueuedBy(s, a) == DequeuedBy(s, a) + s'.core.local
  }

  /** `q'` is `q`, or its front was taken to run. */
  ghost predicate FrontTaken<R>(q: seq<R>, q': seq<R>, taken: seq<R>, taken': seq<R>) {
    q' == q || (|q| > 0 && q' == q[1..] && taken' == taken + [q[0]])
  }

  lemma FrontIs<R>(q: seq<R>, q': seq<R>, taken: seq<R>, taken': seq<R>)
    requires FrontTaken(q, q', taken, taken')
    ensures |q'| < |q| ==> |taken'| == |taken| + 1 && q == taken'[|taken|..] + q'
    ensures |q'| >= |q| ==> q' == q
  {
  }

  lemma PopQueues<R>(s: State<R>, a: Action<R>)
    requires !a.PushFrom? && !a.Schedule?
    requires FrontTaken(s.core.remote, Step(s, a).core.remote, s.taken, Step(s, a).taken)
    requires FrontTaken(s.core.local, Step(s, a).core.local, s.taken, Step(s, a).taken)
    ensures Queues(s, a)
  {
    var s' := Step(s, a);
    FrontIs(s.core.remote, s'.core.remote, s.taken, s'.taken);
    FrontIs(s.core.local, s'.core.local, s.taken, s'.taken);
  }

  lemma TopPops<R>(c: Core<nat, R>, id: nat, main: bool, w: Waker)
    ensures var (c', _, turn) := TickTop(c, id, main, w);
            c'.remote == c.remote
            && if |c.local| > 0 then c'.local == c.local[1..] && turn == RunsLast(c.local[0]) else c'.local == c.local
  {
  }

  lemma ResumePops<R>(c: Core<nat, R>, id: nat, main: bool, w: Waker)
    ensures var (c', _, turn) := TickResume(c, id, main, w);
            c'.remote == c.remote
            && (c'.local == c.local || (|c.local| > 0 && c'.local == c.local[1..] && turn == RunsLast(c.local[0])))
  {
    TopPops(c.(thread := PollListener(c.thread, id, w).0), id, main, w);
  }

  lemma PollQueues<R>(s: State<R>, id: nat, w: Waker)
    ensures Queues(s, PollTick(id, w))
  {
    assert Step(s, PollTick(id, w)) == StepPoll(s, id, w);
    if id in s.tickers {
      TopPops(s.core, id, s.tickers[id].main, w);
      ResumePops(s.core, id, s.tickers[id].main, w);
    }
    PopQueues(s, PollTick(id, w));
  }

  lemma MainQueues<R>(s: State<R>, id: nat)
    ensures Queues(s, MainStep(id))
  {
    assert Step(s, MainStep(id)) == StepMain(s, id);
    PopQueues(s, MainStep(id));
  }

  lemma TryTickQueues<R>(s: State<R>)
    ensures Queues(s, TryTickNow)
  {
    assert Step(s, TryTickNow) == StepTryTick(s);
    PopQueues(s, TryTickNow);
  }

  lemma ScheduleQueuesOne<R>(s: State<R>, r: R)
    ensures Queues(s, Schedule(r))
  {
    assert Step(s, Schedule(r)) == StepSchedule(s, r);
    HandingNotifies(s.core.thread, r);
  }

  lemma PushQueues<R>(s: State<R>, r: R)
    ensures Queues(s, PushFrom(r))
  {
    assert Step(s, PushFrom(r)) == StepPush(s, r);
  }

  lemma OthersQueue<R>(s: State<R>, a: Action<R>)
    requires a.NewTicker? || a.RunEnds? || a.DropTick? || a.LoseTicker? || a.PusherWakes? || a.TryTickWakes?
    ensures Queues(s, a)
  {
    if a.RunEnds? && a.id in s.tickers {
      RunEndsKeeps(s, a.id);
    }
    PopQueues(s, a);
  }

  lemma StepQueues<R>(s: State<R>, a: Action<R>)
    ensures Queues(s, a)
  {
    match a
    case PollTick(id, w) => PollQueues(s, id, w);
    case MainStep(id) => MainQueues(s, id);
    case Schedule(r) => ScheduleQueuesOne(s, r);
    case PushFrom(r) => PushQueues(s, r);
    case TryTickNow => TryTickQueues(s);
    case _ => OthersQueue(s, a);
  }

  lemma {:induction false} RunQueues<R>(s: State<R>, acts: seq<Action<R>>)
    ensures s.core.remote + Pushed(acts) == Popped(s, acts) + Run(s, acts).core.remote
    ensures s.core.local + Queued(s, acts) == Dequeued(s, acts) + Run(s, acts).core.local
    decreases |acts|
  {
    if |acts| > 0 {
      var a, rest, s' := acts[0], acts[1..], Step(s, acts[0]);
      StepQueues(s, a);
      RunQueues(s', rest);
      QueueChain(s.core.remote, PushedBy(a), PoppedBy(s, a), s'.core.remote,
                 Pushed(rest), Popped(s', rest), Run(s', rest).core.remote);
      QueueChain(s.core.local, QueuedBy(s, a), DequeuedBy(s, a), s'.core.local,
                 Queued(s', rest), Dequeued(s', rest), Run(s', rest).core.local);
    }
  }

  /** Whoever takes from them: what was taken from the mainstream queue, in order, and what is in it make
      up what other threads pushed; and so for the local queue and what was put into it. */
  lemma QueuesAreFifo<R>(acts: seq<Action<R>>)
    ensures var s0, s := Init<R>(), Run(Init<R>(), acts);
            Popped(s0, acts) + s.core.remote == Pushed(acts) && Dequeued(s0, acts) + s.core.local == Queued(s0, acts)
  {
    var s0 := Init<R>();
    RunQueues(s0, acts);
    assert s0.core.remote + Pushed(acts) == Pushed(acts) && s0.core.local + Queued(s0, acts) == Queued(s0, acts);
  }

  // ----- what single actions do

  /** A runnable scheduled on the thread goes into the tag of the first waiting ticker if there is one and
      nobody is notified, and to the end of the local queue otherwise. */
  lemma SchedulesExactly<R>(acts: seq<Action<R>>, r: R)
    ensures var s := Run(Init<R>(), acts); var e, c' := s.core.thread, Step(s, Schedule(r)).core;
            if |e.notified| == 0 && |e.waiting| > 0
            then c'.local == s.core.local && c'.thread.waiting == e.waiting[1..]
                 && c'.thread.notified == [Slot(e.waiting[0].id, Note(Some(r), false))]
            else c' == s.core.(local := s.core.local + [r])
  {
    HandingNotifies(Run(Init<R>(), acts).core.thread, r);
  }

  /** `try_tick` takes from the mainstream queue only when the local one is empty, and then a wake follows. */
  lemma TryTicksExactly<R>(acts: seq<Action<R>>)
    ensures var s := Run(Init<R>(), acts); var s', c := Step(s, TryTickNow), s.core;
            if |c.local| > 0
            then s'.taken == s.taken + [c.local[0]] && s'.waking == s.waking
                 && s'.core == c.(local := c.local[1..], thread := s'.core.thread)
            else if |c.remote| > 0
            then s'.taken == s.taken + [c.remote[0]] && s'.waking == s.waking + 1
                 && s'.core == c.(remote := c.remote[1..])
            else s' == s
  {
    assert Step(Run(Init<R>(), acts), TryTickNow) == StepTryTick(Run(Init<R>(), acts));
  }

  /** What a poll of a `tick` does. A new or notified one runs the runnable in its tag if there is one, else
      the front of the local queue; if there is nothing, it takes the mainstream role if that is free and
      waits, and one that is not notified just waits; the mainstream ticker turns to its queue. */
  lemma TicksExactly<R>(acts: seq<Action<R>>, id: nat, w: Waker)
    ensures var s := Run(Init<R>(), acts);
            id in s.tickers && (s.tickers[id].phase == Idle || s.tickers[id].phase == Parked) ==>
              Ticks(s, Step(s, PollTick(id, w)), id, w)
  {
    RunKeeps(Init<R>(), acts);
    var s := Run(Init<R>(), acts);
    if id in s.tickers && (s.tickers[id].phase == Idle || s.tickers[id].phase == Parked) {
      PollTicks(s, id, w);
    }
  }

  ghost predicate Ticks<R>(s: State<R>, s': State<R>, id: nat, w: Waker)
    requires id in s.tickers
  {
    var t, c, c' := s.tickers[id], s.core, s'.core;
    var tries, tag := t.phase == Idle || IsNotified(c.thread, id), TagOf(c.thread, id);
    var main := t.main || (tries && tag.None? && |c.local| == 0 && !c.listening);
    && c' == c.(thread := c'.thread, local := c'.local, listening := c.listening || main)
    && id in s'.tickers && s'.tickers == s.tickers[id := Ticker(main, s'.tickers[id].phase, w, t.mark)]
    && (if tries && tag.Some? then
          s'.taken == s.taken + [tag.value] && c'.local == c.local && s'.tickers[id].phase == Running
        else if tries && |c.local| > 0 then
          s'.taken == s.taken + [c.local[0]] && c'.local == c.local[1..] && s'.tickers[id].phase == Finishing
        else
          s'.taken == s.taken && c'.local == c.local
          && s'.tickers[id].phase == (if main then Popping else Parked) && id in Ids(c'.thread.waiting))
  }

  lemma TopIs<R>(c: Core<nat, R>, id: nat, main: bool, w: Waker)
    requires Wf(c.thread) && id !in Order(c.thread) && |c.local| == 0
    ensures var (c', main', turn) := TickTop(c, id, main, w);
            && main' == (main || !c.listening) && turn == (if main' then Consults else Parks)
            && c' == c.(listening := true, thread := c'.thread) && id in Ids(c'.thread.waiting)
  {
    Members(c.thread);
    PollPending(c.thread, id, w);
  }

  lemma IdleTicks<R>(s: State<R>, id: nat, w: Waker)
    requires Listed(s) && Roles(s) && id in s.tickers && s.tickers[id].phase == Idle
    ensures Ticks(s, StepPoll(s, id, w), id, w)
  {
    Members(s.core.thread);
    assert s.tickers[id].main ==> s.core.listening;
    assert s.taken + [] == s.taken;
    if |s.core.local| == 0 {
      TopIs(s.core, id, s.tickers[id].main, w);
    }
  }

  lemma NotifiedTicks<R>(s: State<R>, id: nat, w: Waker)
    requires Listed(s) && Roles(s) && id in s.tickers && s.tickers[id].phase == Parked && IsNotified(s.core.thread, id)
    ensures Ticks(s, StepPoll(s, id, w), id, w)
  {
    var e := s.core.thread;
    PollReady(e, id, w);
    assert s.tickers[id].main ==> s.core.listening;
    assert s.taken + [] == s.taken;
    if |s.core.local| == 0 {
      TopIs(s.core.(thread := PollListener(e, id, w).0), id, s.tickers[id].main, w);
    }
  }

  lemma AsleepTicks<R>(s: State<R>, id: nat, w: Waker)
    requires Listed(s) && Roles(s) && id in s.tickers && s.tickers[id].phase == Parked && !IsNotified(s.core.thread, id)
    ensures Ticks(s, StepPoll(s, id, w), id, w)
  {
    PollPending(s.core.thread, id, w);
    assert s.tickers[id].main ==> s.core.listening;
    assert s.taken + [] == s.taken;
  }

  lemma PollTicks<R>(s: State<R>, id: nat, w: Waker)
    requires Listed(s) && Roles(s) && id in s.tickers && (s.tickers[id].phase == Idle || s.tickers[id].phase == Parked)
    ensures Ticks(s, Step(s, PollTick(id, w)), id, w)
  {
    assert Step(s, PollTick(id, w)) == StepPoll(s, id, w);
    if s.tickers[id].phase == Idle {
      IdleTicks(s, id, w);
    } else if IsNotified(s.core.thread, id) {
      NotifiedTicks(s, id, w);
    } else {
      AsleepTicks(s, id, w);
    }
  }

  /** What follows a run within a tick: the runnable in the tag of its listener, if it was notified with one
      meanwhile, is run too; and in any case the listener is out of the list. */
  lemma RunEndsExactly<R>(acts: seq<Action<R>>, id: nat)
    ensures var s := Run(Init<R>(), acts); var s', tag := Step(s, RunEnds(id)), TagOf(s.core.thread, id);
            id in s.tickers && s.tickers[id].phase == Running ==>
              && id in s'.tickers && id !in Order(s'.core.thread)
              && s'.taken == s.taken + ItemOf(tag) && s'.tickers[id].phase == (if tag.Some? then Finishing else Idle)
  {
    RunKeeps(Init<R>(), acts);
    var s := Run(Init<R>(), acts);
    if id in s.tickers && s.tickers[id].phase == Running {
      RunEndsIs(s, id);
    }
  }

  lemma RunEndsIs<R>(s: State<R>, id: nat)
    requires Listed(s) && id in s.tickers && s.tickers[id].phase == Running
    ensures var s', tag := Step(s, RunEnds(id)), TagOf(s.core.thread, id);
            && id in s'.tickers && id !in Order(s'.core.thread)
            && s'.taken == s.taken + ItemOf(tag) && s'.tickers[id].phase == (if tag.Some? then Finishing else Idle)
  {
    var e, w := s.core.thread, s.tickers[id].waker;
    assert Step(s, RunEnds(id)) == StepRunEnds(s, id);
    AfterRunPlaced(s.core, id, w);
    if IsNotified(e, id) {
      PollReady(e, id, w);
    } else {
      PollSleeps(e, id, w);
    }
  }

  /** Whenever a runnable is taken from the local queue while tickers wait, one of them is notified
      afterwards. */
  lemma PopsRouse<R>(acts: seq<Action<R>>, a: Action<R>)
    ensures var s := Run(Init<R>(), acts); var s' := Step(s, a);
            |s'.core.local| < |s.core.local| && |s.core.thread.waiting| > 0 ==> |s'.core.thread.notified| > 0
  {
    RunKeeps(Init<R>(), acts);
    StepPopRouses(Run(Init<R>(), acts), a);
  }

  lemma TopPopRouses<R>(c: Core<nat, R>, id: nat, main: bool, w: Waker)
    ensures |c.local| > 0 && |c.thread.waiting| > 0 ==> |TickTop(c, id, main, w).0.thread.notified| > 0
  {
    NotifyFacts(c.thread, Bare<R>(1));
  }

  lemma PollPopRouses<R>(s: State<R>, id: nat, w: Waker)
    requires Listed(s)
    ensures var s' := StepPoll(s, id, w);
            |s'.core.local| < |s.core.local| && |s.core.thread.waiting| > 0 ==> |s'.core.thread.notified| > 0
  {
    if id in s.tickers {
      var main, e := s.tickers[id].main, s.core.thread;
      TopPopRouses(s.core, id, main, w);
      if IsNotified(e, id) {
        PollReady(e, id, w);
        TopPopRouses(s.core.(thread := PollListener(e, id, w).0), id, main, w);
      } else {
        PollSleeps(e, id, w);
      }
    }
  }

  lemma OthersPopNothing<R>(s: State<R>, a: Action<R>)
    requires !a.PollTick? && !a.TryTickNow?
    ensures |Step(s, a).core.local| >= |s.core.local|
  {
    if a.RunEnds? && a.id in s.tickers {
      RunEndsKeeps(s, a.id);
    }
  }

  lemma StepPopRouses<R>(s: State<R>, a: Action<R>)
    requires Listed(s)
    ensures |Step(s, a).core.local| < |s.core.local| && |s.core.thread.waiting| > 0 ==>
              |Step(s, a).core.thread.notified| > 0
  {
    if a.PollTick? {
      PollPopRouses(s, a.id, a.w);
      assert Step(s, a) == StepPoll(s, a.id, a.w);
    } else if a.TryTickNow? {
      assert Step(s, a) == StepTryTick(s);
      NotifyFacts(s.core.thread, Bare<R>(1));
    } else {
      OthersPopNothing(s, a);
    }
  }

  // ----- the wakers of the tickers

  /** The poll of a `tick` takes place: the ticker is between ticks or pending. */
  predicate Polls<R>(s: State<R>, a: Action<R>) {
    a.PollTick? && a.id in s.tickers && (s.tickers[a.id].phase == Idle || s.tickers[a.id].phase == Parked)
  }

  /** The waker of each ticker's latest poll. */
  function Later<R>(s: State<R>, latest: map<nat, Waker>, a: Action<R>): map<nat, Waker> {
    if Polls(s, a) then latest[a.id := a.w] else latest
  }

  function Latest<R>(s: State<R>, latest: map<nat, Waker>, acts: seq<Action<R>>): map<nat, Waker>
    decreases |acts|
  {
    if |acts| == 0 then latest else Latest(Step(s, acts[0]), Later(s, latest, acts[0]), acts[1..])
  }

  /** A ticker within a tick goes by the waker of its latest poll. */
  ghost predicate Known<R>(s: State<R>, latest: map<nat, Waker>) {
    forall id :: id in s.tickers && s.tickers[id].phase != Idle ==> id in latest && s.tickers[id].waker == latest[id]
  }

  lemma TopTends<R>(c: Core<nat, R>, id: nat, main: bool, w: Waker, latest: map<nat, Waker>)
    requires Wf(c.thread) && Alert(c.thread, latest) && id !in Order(c.thread)
    ensures Tended(c.thread, TickTop(c, id, main, w).0.thread, latest[id := w])
  {
    LoopTended(c.thread, id, w, latest);
    NotifyTended(c.thread, Bare<R>(1), latest[id := w]);
  }

  lemma ResumeTends<R>(c: Core<nat, R>, id: nat, main: bool, w: Waker, latest: map<nat, Waker>)
    requires Wf(c.thread) && Alert(c.thread, latest) && id in Order(c.thread)
    ensures Tended(c.thread, TickResume(c, id, main, w).0.thread, latest[id := w])
  {
    var e1, later := PollListener(c.thread, id, w).0, latest[id := w];
    PollTended(c.thread, id, w, latest);
    if IsNotified(c.thread, id) {
      PollReady(c.thread, id, w);
      TopTends(c.(thread := e1), id, main, w, later);
      assert later[id := w] == later;
      SameWaiting(c.thread, e1, TickTop(c.(thread := e1), id, main, w).0.thread, later);
    } else {
      PollSleeps(c.thread, id, w);
    }
  }

  lemma PollTends<R>(s: State<R>, id: nat, w: Waker, latest: map<nat, Waker>)
    requires Listed(s) && Alert(s.core.thread, latest) && Polls(s, PollTick(id, w))
    ensures Tended(s.core.thread, StepPoll(s, id, w).core.thread, latest[id := w])
  {
    if s.tickers[id].phase == Idle {
      TopTends(s.core, id, s.tickers[id].main, w, latest);
    } else {
      ResumeTends(s.core, id, s.tickers[id].main, w, latest);
    }
  }

  lemma RunEndsTends<R>(s: State<R>, id: nat, latest: map<nat, Waker>)
    requires Listed(s) && Alert(s.core.thread, latest) && Known(s, latest)
    ensures Tended(s.core.thread, StepRunEnds(s, id).core.thread, latest)
  {
    var e := s.core.thread;
    Asleep(e, e, latest);
    if id in s.tickers && s.tickers[id].phase == Running {
      var w := s.tickers[id].waker;
      assert latest[id := w] == latest;
      PollTended(e, id, w, latest);
      if !IsNotified(e, id) {
        PollSleeps(e, id, w);
        PollAndDropTended(e, id, w, latest);
      }
    }
  }

  lemma LoseTickerTends<R>(s: State<R>, id: nat, latest: map<nat, Waker>)
    requires Listed(s) && Alert(s.core.thread, latest)
    ensures Tended(s.core.thread, Step(s, LoseTicker(id)).core.thread, latest)
    ensures Tended(s.core.thread, Step(s, TryTickNow).core.thread, latest)
  {
    Asleep(s.core.thread, s.core.thread, latest);
    NotifyTended(s.core.thread, Bare<R>(1), latest);
    assert Step(s, LoseTicker(id)) == StepLose(s, id) && Step(s, TryTickNow) == StepTryTick(s);
  }

  lemma ScheduleTends<R>(s: State<R>, r: R, latest: map<nat, Waker>)
    requires Listed(s) && Alert(s.core.thread, latest)
    ensures Tended(s.core.thread, Step(s, Schedule(r)).core.thread, latest)
  {
    NotifyTended(s.core.thread, Handing(r), latest);
    assert Step(s, Schedule(r)) == StepSchedule(s, r);
  }

  lemma DropTickTends<R>(s: State<R>, id: nat, latest: map<nat, Waker>)
    requires Listed(s) && Alert(s.core.thread, latest)
    ensures Tended(s.core.thread, Step(s, DropTick(id)).core.thread, latest)
  {
    Asleep(s.core.thread, s.core.thread, latest);
    DropTended(s.core.thread, id, latest);
    assert Step(s, DropTick(id)) == StepDrop(s, id);
  }

  lemma StepTends<R>(s: State<R>, a: Action<R>, latest: map<nat, Waker>)
    requires Listed(s) && Alert(s.core.thread, latest) && Known(s, latest)
    ensures Tended(s.core.thread, Step(s, a).core.thread, Later(s, latest, a))
  {
    Asleep(s.core.thread, s.core.thread, latest);
    match a
    case PollTick(id, w) =>
      if Polls(s, a) { PollTends(s, id, w, latest); }
      assert Step(s, a) == StepPoll(s, id, w);
    case RunEnds(id) =>
      RunEndsTends(s, id, latest);
      assert Step(s, a) == StepRunEnds(s, id);
    case DropTick(id) => DropTickTends(s, id, latest);
    case LoseTicker(id) => LoseTickerTends(s, id, latest);
    case Schedule(r) => ScheduleTends(s, r, latest);
    case TryTickNow => LoseTickerTends(s, 0, latest);
    case _ => assert Step(s, a).core.thread == s.core.thread;
  }

  lemma StepKnown<R>(s: State<R>, a: Action<R>, latest: map<nat, Waker>)
    requires Known(s, latest)
    ensures Known(Step(s, a), Later(s, latest, a))
  {
    if a.RunEnds? && a.id in s.tickers {
      RunEndsKeeps(s, a.id);
    }
  }

  lemma {:induction false} RunTends<R>(s: State<R>, latest: map<nat, Waker>, acts: seq<Action<R>>)
    requires Inv(s) && Alert(s.core.thread, latest) && Known(s, latest)
    ensures Alert(Run(s, acts).core.thread, Latest(s, latest, acts))
    ensures Known(Run(s, acts), Latest(s, latest, acts))
    decreases |acts|
  {
    if |acts| > 0 {
      var a := acts[0];
      StepTends(s, a, latest);
      StepKnown(s, a, latest);
      StepConserved(s, a);
      StepListed(s, a);
      StepRoles(s, a);
      StepRoused(s, a);
      RunTends(Step(s, a), Later(s, latest, a), acts[1..]);
    }
  }

  /** In every run a waiting ticker holds a waker like that of its latest poll, what an action wakes
      through the event are the tickers it newly notifies, each by its own such waker, and the waker a
      ticker registers with the mainstream queue is that of its latest poll too. */
  lemma WakesExactly<R>(acts: seq<Action<R>>, a: Action<R>, id: nat)
    ensures var s, latest := Run(Init<R>(), acts), Latest(Init<R>(), map[], acts);
            && Alert(s.core.thread, latest)
            && Called(s.core.thread, Step(s, a).core.thread, Later(s, latest, a))
            && (id in s.tickers && s.tickers[id].phase == Registering ==>
                  id in latest && Step(s, MainStep(id)).core.slot == Some(latest[id]))
            && (id in s.tickers && s.tickers[id].phase != Idle ==> id in latest && s.tickers[id].waker == latest[id])
  {
    RunKeeps(Init<R>(), acts);
    RunTends(Init<R>(), map[], acts);
    var s, latest := Run(Init<R>(), acts), Latest(Init<R>(), map[], acts);
    StepTends(s, a, latest);
    if id in s.tickers && s.tickers[id].phase == Registering {
      Registers(s, id, latest);
    }
  }

  lemma Registers<R>(s: State<R>, id: nat, latest: map<nat, Waker>)
    requires Known(s, latest) && id in s.tickers && s.tickers[id].phase == Registering
    ensures id in latest && Step(s, MainStep(id)).core.slot == Some(latest[id])
  {
    assert Step(s, MainStep(id)) == StepMain(s, id);
  }

  // ----- how many tickers the natural claims survive

  predicate Within<R>(s: State<R>, acts: seq<Action<R>>, limit: nat)
    decreases |acts|
  {
    |s.tickers| <= limit && (|acts| == 0 || Within(Step(s, acts[0]), acts[1..], limit))
  }

  ghost predicate Reaches<R>(acts: seq<Action<R>>, s: State<R>, limit: nat) {
    Within(Init<R>(), acts, limit) && Run(Init<R>(), acts) == s
  }

  /** Some run with at most `limit` tickers alive at a time ends in `s`. */
  ghost predicate Reachable<R(!new)>(s: State<R>, limit: nat) {
    exists acts: seq<Action<R>> :: Reaches(acts, s, limit)
  }

  /** Runnables are queued, tickers wait, and none of them is notified. */
  predicate Stalled<R>(s: State<R>) {
    |s.core.local| > 0 && |s.core.thread.waiting| > 0 && |s.core.thread.notified| == 0
  }

  /** Tickers wait, none of them is notified, and nobody looks at the mainstream queue. */
  predicate Orphaned<R>(s: State<R>) {
    !s.core.listening && |s.core.thread.waiting| > 0 && |s.core.thread.notified| == 0
  }

  /** Every ticker is parked, no push or wake is under way: nothing more happens by itself. */
  predicate Still<R>(s: State<R>) {
    s.pushing == 0 && s.waking == 0 && forall id :: id in s.tickers ==> s.tickers[id].phase == Parked
  }

  predicate Stranded<R>(s: State<R>) { Stalled(s) && Still(s) }

  predicate Deserted<R>(s: State<R>) { Orphaned(s) && Still(s) }

  predicate Quiet<R>(s: State<R>) { |s.core.thread.waiting| > 0 ==> |s.core.local| == 0 }

  predicate Attended<R>(s: State<R>) { |s.core.thread.waiting| > 0 ==> s.core.listening }

  lemma Few<R>(s: State<R>)
    requires Listed(s)
    ensures |Order(s.core.thread)| <= |s.tickers|
    ensures forall id :: id in s.tickers && s.tickers[id].phase == Idle ==> |Order(s.core.thread)| <= |s.tickers| - 1
  {
    DistinctFits(Order(s.core.thread), s.tickers.Keys);
    forall id | id in s.tickers && s.tickers[id].phase == Idle
      ensures |Order(s.core.thread)| <= |s.tickers| - 1
    {
      DistinctFits(Order(s.core.thread), s.tickers.Keys - {id});
    }
  }

  lemma RunEndsFew<R>(s: State<R>, id: nat)
    requires Listed(s)
    ensures Quiet(s) ==> Quiet(Step(s, RunEnds(id)))
    ensures Attended(s) ==> Attended(Step(s, RunEnds(id)))
  {
    assert Step(s, RunEnds(id)) == StepRunEnds(s, id);
    if id in s.tickers && s.tickers[id].phase == Running {
      AfterRunPlaced(s.core, id, s.tickers[id].waker);
    }
  }

  lemma DropTickFew<R>(s: State<R>, id: nat)
    requires Listed(s)
    ensures Quiet(s) ==> Quiet(Step(s, DropTick(id)))
    ensures Attended(s) ==> Attended(Step(s, DropTick(id)))
  {
    assert Step(s, DropTick(id)) == StepDrop(s, id);
    DropKeeps(s.core.thread, id);
  }

  lemma TryTickFew<R>(s: State<R>)
    requires Listed(s)
    ensures Quiet(s) ==> Quiet(Step(s, TryTickNow))
    ensures Attended(s) ==> Attended(Step(s, TryTickNow))
  {
    assert Step(s, TryTickNow) == StepTryTick(s);
    NotifyFacts(s.core.thread, Bare<R>(1));
  }

  lemma ScheduleFew<R>(s: State<R>, r: R)
    requires Listed(s)
    ensures |s.tickers| <= 1 && Quiet(s) ==> Quiet(Step(s, Schedule(r)))
    ensures Attended(s) ==> Attended(Step(s, Schedule(r)))
  {
    assert Step(s, Schedule(r)) == StepSchedule(s, r);
    Few(s);
    HandingNotifies(s.core.thread, r);
  }

  lemma LoseTickerFew<R>(s: State<R>, id: nat)
    requires Listed(s)
    ensures Quiet(s) ==> Quiet(Step(s, LoseTicker(id)))
    ensures |s.tickers| <= 2 && Attended(s) ==> Attended(Step(s, LoseTicker(id)))
  {
    assert Step(s, LoseTicker(id)) == StepLose(s, id);
    Few(s);
    NotifyFacts(s.core.thread, Bare<R>(1));
  }

  lemma StepQuiet<R>(s: State<R>, a: Action<R>)
    requires Listed(s) && |s.tickers| <= 1 && Quiet(s)
    ensures Quiet(Step(s, a))
  {
    match a
    case NewTicker(id) => assert Quiet(Step(s, NewTicker(id)));
    case PollTick(id, w) => PollQuiet(s, id, w);
    case MainStep(id) => assert Quiet(Step(s, MainStep(id)));
    case RunEnds(id) => RunEndsFew(s, id);
    case DropTick(id) => DropTickFew(s, id);
    case LoseTicker(id) => LoseTickerFew(s, id);
    case Schedule(r) => ScheduleFew(s, r);
    case PushFrom(r) => assert Quiet(Step(s, PushFrom(r)));
    case PusherWakes => assert Quiet(Step(s, PusherWakes));
    case TryTickNow => TryTickFew(s);
    case TryTickWakes => assert Quiet(Step(s, TryTickWakes));
  }

  lemma PollQuiet<R>(s: State<R>, id: nat, w: Waker)
    requires Listed(s) && |s.tickers| <= 1 && Quiet(s)
    ensures Quiet(Step(s, PollTick(id, w)))
  {
    Few(s);
    if id in s.tickers && s.tickers[id].phase == Idle {
      NotifyFacts(s.core.thread, Bare<R>(1));
    } else if id in s.tickers && s.tickers[id].phase == Parked {
      Members(s.core.thread);
      if IsNotified(s.core.thread, id) {
        PollReady(s.core.thread, id, w);
        NotifyFacts(PollListener(s.core.thread, id, w).0, Bare<R>(1));
      } else {
        PollPending(s.core.thread, id, w);
      }
    }
  }

  lemma PollAttended<R>(s: State<R>, id: nat, w: Waker)
    requires Listed(s) && Attended(s)
    ensures Attended(Step(s, PollTick(id, w)))
  {
    if id in s.tickers && s.tickers[id].phase == Idle {
      NotifyFacts(s.core.thread, Bare<R>(1));
    } else if id in s.tickers && s.tickers[id].phase == Parked {
      Members(s.core.thread);
      if IsNotified(s.core.thread, id) {
        PollReady(s.core.thread, id, w);
        NotifyFacts(PollListener(s.core.thread, id, w).0, Bare<R>(1));
      } else {
        PollPending(s.core.thread, id, w);
      }
    }
  }

  lemma StepAttended<R>(s: State<R>, a: Action<R>)
    requires Listed(s) && |s.tickers| <= 2 && Attended(s)
    ensures Attended(Step(s, a))
  {
    match a
    case NewTicker(id) => assert Attended(Step(s, NewTicker(id)));
    case PollTick(id, w) => PollAttended(s, id, w);
    case MainStep(id) => assert Attended(Step(s, MainStep(id)));
    case RunEnds(id) => RunEndsFew(s, id);
    case DropTick(id) => DropTickFew(s, id);
    case LoseTicker(id) => LoseTickerFew(s, id);
    case Schedule(r) => ScheduleFew(s, r);
    case PushFrom(r) => assert Attended(Step(s, PushFrom(r)));
    case PusherWakes => assert Attended(Step(s, PusherWakes));
    case TryTickNow => TryTickFew(s);
    case TryTickWakes => assert Attended(Step(s, TryTickWakes));
  }

  lemma {:induction false} FewKeep<R>(s: State<R>, acts: seq<Action<R>>, limit: nat)
    requires Listed(s) && Within(s, acts, limit)
    ensures limit <= 1 && Quiet(s) ==> Quiet(Run(s, acts))
    ensures limit <= 2 && Attended(s) ==> Attended(Run(s, acts))
    decreases |acts|
  {
    if |acts| > 0 {
      StepListed(s, acts[0]);
      if limit <= 1 && Quiet(s) { StepQuiet(s, acts[0]); }
      if limit <= 2 && Attended(s) { StepAttended(s, acts[0]); }
      FewKeep(Step(s, acts[0]), acts[1..], limit);
    }
  }

  lemma FewTickers<R(!new)>(s: State<R>, limit: nat)
    requires Reachable(s, limit)
    ensures limit <= 1 ==> !Stalled(s)
    ensures limit <= 2 ==> !Orphaned(s)
  {
    var acts: seq<Action<R>> :| Reaches(acts, s, limit);
    FewKeep(Init<R>(), acts, limit);
  }

  lemma {:induction false} Extend<R>(s: State<R>, acts: seq<Action<R>>, a: Action<R>, limit: nat)
    requires Within(s, acts, limit) && |Step(Run(s, acts), a).tickers| <= limit
    ensures Run(s, acts + [a]) == Step(Run(s, acts), a) && Within(s, acts + [a], limit)
    decreases |acts|
  {
    if |acts| == 0 {
      assert acts + [a] == [a];
      assert Run(Step(s, a), []) == Step(s, a);
    } else {
      assert (acts + [a])[1..] == acts[1..] + [a];
      Extend(Step(s, acts[0]), acts[1..], a, limit);
    }
  }

  lemma Onward<R(!new)>(s: State<R>, a: Action<R>, limit: nat) returns (s': State<R>)
    requires Reachable(s, limit) && |Step(s, a).tickers| <= limit
    ensures s' == Step(s, a) && Reachable(s', limit)
  {
    s' := Step(s, a);
    var acts: seq<Action<R>> :| Reaches(acts, s, limit);
    Extend(Init<R>(), acts, a, limit);
    assert Reaches(acts + [a], s', limit);
  }

  const W := Waker(0, 0, 0)

  function Sleeper(id: nat): Slot<nat, Option<Waker>> { Slot(id, Some(W)) }

  /** A new ticker that finds nothing, the mainstream role taken, parks at the end of the list. */
  lemma Joins<R(!new)>(s: State<R>, id: nat, limit: nat) returns (s': State<R>)
    requires Reachable(s, limit) && |s.tickers| < limit && id !in s.tickers && id !in Order(s.core.thread)
    requires s.core.listening && |s.core.local| == 0
    ensures Reachable(s', limit)
    ensures s' == s.(core := s.core.(thread := s.core.thread.(waiting := s.core.thread.waiting + [Sleeper(id)])),
                     tickers := s.tickers[id := Ticker(false, Parked, W, 0)])
  {
    var s1 := Onward(s, NewTicker(id), limit);
    PollNew(s.core.thread, id, W);
    assert |s1.tickers[id := Ticker(false, Parked, W, 0)]| == |s1.tickers|;
    s' := Onward(s1, PollTick(id, W), limit);
    assert s'.tickers == s.tickers[id := Ticker(false, Parked, W, 0)];
  }

  // Single steps, on the states the counterexamples pass through.

  lemma HandsOver<R>(c: Core<nat, R>, r: R)
    requires |c.thread.notified| == 0 && |c.thread.waiting| > 0
    ensures ScheduleHere(c, r) == c.(thread := NotifyFirst(c.thread, Some(r), false))
  {
    HandingNotifies(c.thread, r);
  }

  lemma ScheduleHands<R>(s: State<R>, r: R)
    requires |s.core.thread.notified| == 0 && |s.core.thread.waiting| > 0
    ensures Step(s, Schedule(r)) == s.(core := s.core.(thread := NotifyFirst(s.core.thread, Some(r), false)),
                                       scheduled := s.scheduled + [r])
  {
    HandsOver(s.core, r);
  }

  lemma ScheduleQueues<R>(s: State<R>, r: R)
    requires |s.core.thread.notified| > 0
    ensures Step(s, Schedule(r)) == s.(core := s.core.(local := s.core.local + [r]), scheduled := s.scheduled + [r])
  {
    HandingNotifies(s.core.thread, r);
  }

  lemma AfterRunReturns<R>(c: Core<nat, R>, id: nat, w: Waker)
    requires id !in Order(c.thread)
    ensures AfterRun(c, id, w) == (c, Returns)
  {
    PollAndDropNew(c.thread, id, w);
  }

  lemma RunReturns<R>(s: State<R>, id: nat)
    requires id in s.tickers && s.tickers[id].phase == Running && id !in Order(s.core.thread)
    ensures Step(s, RunEnds(id)) == s.(tickers := s.tickers[id := s.tickers[id].(phase := Idle)])
  {
    var t := s.tickers[id];
    AfterRunReturns(s.core, id, t.waker);
    assert s.taken + [] == s.taken;
    assert StepRunEnds(s, id) == After(s, id, t, s.core, Returns);
    assert Step(s, RunEnds(id)) == StepRunEnds(s, id);
  }

  lemma MainLeaves<R>(s: State<R>, id: nat)
    requires id in s.tickers && s.tickers[id].phase == Idle && s.tickers[id].main && |s.core.thread.notified| > 0
    ensures Step(s, LoseTicker(id)) == s.(core := s.core.(slot := None, listening := false), tickers := s.tickers - {id})
  {
  }

  lemma TopLeads<R>(c: Core<nat, R>, id: nat, w: Waker)
    requires |c.local| == 0 && !c.listening && id !in Order(c.thread)
    ensures TickTop(c, id, false, w)
         == (c.(listening := true, thread := c.thread.(waiting := c.thread.waiting + [Slot(id, Some(w))])), true, Consults)
  {
    PollNew(c.thread, id, w);
  }

  lemma FirstPoll<R(!new)>(s1: State<R>, limit: nat) returns (s2: State<R>)
    requires Reachable(s1, limit) && limit >= 1 && s1.tickers == map[0 := Ticker(false, Idle, Waker(0, 0, 0), 0)]
    requires s1.core == Core(Empty(), [], [], None, false, [])
    ensures Reachable(s2, limit) && s2 == s1.(core := s2.core, tickers := map[0 := Ticker(true, Popping, W, 0)])
    ensures s2.core == Core(EventState([], [Sleeper(0)], []), [], [], None, true, [])
  {
    TopLeads(s1.core, 0, W);
    var t := Ticker(true, Popping, W, 0);
    assert s1.tickers[0 := t] == map[0 := t];
    assert s1.taken + [] == s1.taken;
    s2 := Onward(s1, PollTick(0, W), limit);
  }

  /** The first ticker takes the mainstream role, registers and parks. */
  lemma FirstJoins<R(!new)>(limit: nat) returns (s: State<R>)
    requires limit >= 1
    ensures Reachable(s, limit)
    ensures s.core == Core(EventState([], [Sleeper(0)], []), [], [], Some(W), true, [])
    ensures s.tickers == map[0 := Ticker(true, Parked, W, 0)]
    ensures s.pushing == s.waking == 0 && s.lost == []
  {
    assert Reaches([], Init<R>(), limit);
    var s1 := Onward(Init<R>(), NewTicker(0), limit);
    var s2 := FirstPoll(s1, limit);
    s := MainParks(s2, limit);
  }

  /** The mainstream ticker finds nothing, registers, finds nothing again and parks. */
  lemma MainParks<R(!new)>(s2: State<R>, limit: nat) returns (s: State<R>)
    requires Reachable(s2, limit) && 0 in s2.tickers && |s2.tickers| <= limit
    requires s2.tickers[0] == Ticker(true, Popping, W, 0) && |s2.core.remote| == |s2.core.wakes| == 0
    ensures Reachable(s, limit)
    ensures s == s2.(core := s2.core.(slot := Some(W)), tickers := s2.tickers[0 := Ticker(true, Parked, W, 0)])
  {
    var s3 := Onward(s2, MainStep(0), limit);
    assert s3 == s2.(tickers := s2.tickers[0 := Ticker(true, Registering, W, 0)]);
    assert Step(s3, MainStep(0)).tickers == s2.tickers[0 := Ticker(true, Rechecking, W, 0)];
    var s4 := Onward(s3, MainStep(0), limit);
    assert Step(s4, MainStep(0)).tickers == s2.tickers[0 := Ticker(true, Parked, W, 0)];
    s := Onward(s4, MainStep(0), limit);
  }

  lemma HeadGone<R>(e: EventState<nat, Option<R>>)
    requires Wf(e) && |e.notified| > 0
    ensures e.notified[0].id !in Order(e.(notified := e.notified[1..]))
  {
    var id, e' := e.notified[0].id, e.(notified := e.notified[1..]);
    assert Order(e)[0] == id;
    assert Order(e') == Order(e)[1..];
  }

  /** The head of the list is notified with a runnable and runs it. */
  lemma HeadGoes<R(!new)>(s: State<R>, id: nat, r: R, limit: nat) returns (s': State<R>)
    requires Reachable(s, limit) && id in s.tickers && s.tickers[id].phase == Parked && |s.tickers| <= limit
    requires |s.core.thread.notified| > 0 && s.core.thread.notified[0] == Slot(id, Note(Some(r), false))
    ensures Reachable(s', limit)
    ensures s' == s.(core := s.core.(thread := s.core.thread.(notified := s.core.thread.notified[1..])),
                     tickers := s.tickers[id := s.tickers[id].(phase := Running, waker := W)], taken := s.taken + [r])
  {
    s' := Onward(s, PollTick(id, W), limit);
  }

  /** Its run ends and it returns. */
  lemma RunStops<R(!new)>(s: State<R>, id: nat, limit: nat) returns (s': State<R>)
    requires Reachable(s, limit) && id in s.tickers && s.tickers[id].phase == Running && |s.tickers| <= limit
    requires id !in Order(s.core.thread)
    ensures Reachable(s', limit) && s' == s.(tickers := s.tickers[id := s.tickers[id].(phase := Idle)])
  {
    RunReturns(s, id);
    s' := Onward(s, RunEnds(id), limit);
  }

  lemma HeadRuns<R(!new)>(s: State<R>, id: nat, r: R, limit: nat) returns (s': State<R>)
    requires Reachable(s, limit) && id in s.tickers && s.tickers[id].phase == Parked && |s.tickers| <= limit
    requires |s.core.thread.notified| > 0 && s.core.thread.notified[0] == Slot(id, Note(Some(r), false))
    requires Wf(s.core.thread)
    ensures Reachable(s', limit)
    ensures s' == s.(core := s.core.(thread := s.core.thread.(notified := s.core.thread.notified[1..])),
                     tickers := s.tickers[id := s.tickers[id].(phase := Idle, waker := W)], taken := s.taken + [r])
  {
    var s1 := HeadGoes(s, id, r, limit);
    HeadGone(s.core.thread);
    s' := RunStops(s1, id, limit);
    assert s'.tickers == s.tickers[id := s.tickers[id].(phase := Idle, waker := W)];
  }

  /** The mainstream ticker, between ticks, ticks again and parks at the end of the list. */
  lemma MainReturns<R(!new)>(s: State<R>, limit: nat) returns (s': State<R>)
    requires Reachable(s, limit) && 0 in s.tickers && s.tickers[0] == Ticker(true, Idle, W, 0) && |s.tickers| <= limit
    requires s.core.listening && s.core.local == s.core.remote == [] && s.core.wakes == [] && 0 !in Order(s.core.thread)
    ensures Reachable(s', limit)
    ensures s' == s.(core := s.core.(slot := Some(W),
                                     thread := s.core.thread.(waiting := s.core.thread.waiting + [Sleeper(0)])),
                     tickers := s.tickers[0 := Ticker(true, Parked, W, 0)])
  {
    PollNew(s.core.thread, 0, W);
    var s1 := Onward(s, PollTick(0, W), limit);
    s' := MainParks(s1, limit);
    assert s'.tickers == s.tickers[0 := Ticker(true, Parked, W, 0)];
  }

  /** A ticker without the role is dropped between ticks, unnoticed. */
  lemma Leaves<R(!new)>(s: State<R>, id: nat, limit: nat) returns (s': State<R>)
    requires Reachable(s, limit) && id in s.tickers && |s.tickers| <= limit
    requires s.tickers[id].phase == Idle && !s.tickers[id].main
    ensures Reachable(s', limit) && s' == s.(tickers := s.tickers - {id})
  {
    assert |s.tickers - {id}| <= |s.tickers|;
    s' := Onward(s, LoseTicker(id), limit);
  }

  /** Two tickers park, the mainstream one first in the list. */
  lemma TwoPark<R(!new)>(limit: nat) returns (s: State<R>)
    requires limit >= 2
    ensures Reachable(s, limit) && s.pushing == s.waking == 0
    ensures s.core == Core(EventState([], [Sleeper(0), Sleeper(1)], []), [], [], Some(W), true, [])
    ensures s.tickers == map[0 := Ticker(true, Parked, W, 0), 1 := Ticker(false, Parked, W, 0)]
  {
    var s1 := FirstJoins<R>(limit);
    assert Order(s1.core.thread) == [0];
    s := Joins(s1, 1, limit);
  }

  /** With two tickers: the mainstream one parks behind the other. Two runnables are scheduled, one
      goes to the head, one to the queue; the head runs, ends and is dropped. What is left is the
      mainstream ticker, parked beside the queue. */
  lemma TwoTickersStrand<R(!new)>(limit: nat, r: R) returns (s: State<R>)
    requires limit >= 2
    ensures Reachable(s, limit) && Stranded(s)
  {
    var s2 := TwoPark<R>(limit);
    var s5 := FirstGoesBack(s2, r, limit);
    s := SecondStrands(s5, r, limit);
  }

  lemma FirstGoesBack<R(!new)>(s2: State<R>, r: R, limit: nat) returns (s5: State<R>)
    requires Reachable(s2, limit) && limit >= 2
    requires s2.core == Core(EventState([], [Sleeper(0), Sleeper(1)], []), [], [], Some(W), true, [])
    requires s2.tickers == map[0 := Ticker(true, Parked, W, 0), 1 := Ticker(false, Parked, W, 0)]
    ensures Reachable(s5, limit) && s5.core.thread.notified == [] && s5.core.thread.waiting == [Sleeper(1), Sleeper(0)]
    ensures s5.tickers == s2.tickers && s5.core.local == [] && s5.pushing == s2.pushing && s5.waking == s2.waking
  {
    ScheduleHands(s2, r);
    var s3 := Onward(s2, Schedule(r), limit);
    assert Order(s3.core.thread) == [0, 1];
    var s4 := HeadRuns(s3, 0, r, limit);
    assert Order(s4.core.thread) == [1];
    s5 := MainReturns(s4, limit);
  }

  lemma SecondStrands<R(!new)>(s5: State<R>, r: R, limit: nat) returns (s: State<R>)
    requires Reachable(s5, limit) && limit >= 2 && s5.pushing == s5.waking == 0 && s5.core.local == []
    requires s5.core.thread.notified == [] && s5.core.thread.waiting == [Sleeper(1), Sleeper(0)]
    requires s5.tickers == map[0 := Ticker(true, Parked, W, 0), 1 := Ticker(false, Parked, W, 0)]
    ensures Reachable(s, limit) && Stranded(s)
  {
    ScheduleHands(s5, r);
    var s6 := Onward(s5, Schedule(r), limit);
    ScheduleQueues(s6, r);
    var s7 := Onward(s6, Schedule(r), limit);
    assert Order(s7.core.thread) == [1, 0];
    var s8 := HeadRuns(s7, 1, r, limit);
    s := Leaves(s8, 1, limit);
  }

  /** With three tickers: the mainstream ticker runs a runnable that schedules another one, which goes
      to the second ticker; the first then ends, and its notification is not needed, the second being
      notified already; the second runs and ends. The third is parked, and nobody has the role. */
  lemma ThreeTickersDesert<R(!new)>(limit: nat, r: R) returns (s: State<R>)
    requires limit >= 3
    ensures Reachable(s, limit) && Deserted(s)
  {
    var s3 := ThreePark<R>(limit);
    var s5 := FirstOfThree(s3, r, limit);
    s := HandoverFails(s5, r, limit);
  }

  lemma FirstOfThree<R(!new)>(s3: State<R>, r: R, limit: nat) returns (s5: State<R>)
    requires Reachable(s3, limit) && |s3.tickers| <= limit && 0 in s3.tickers && s3.tickers[0] == Ticker(true, Parked, W, 0)
    requires s3.core.thread.notified == [] && |s3.core.thread.waiting| > 0 && s3.core.thread.waiting[0] == Sleeper(0)
    ensures Reachable(s5, limit) && s5.tickers == s3.tickers[0 := Ticker(true, Running, W, 0)]
    ensures s5.core.thread.notified == [] && s5.core.thread.waiting == s3.core.thread.waiting[1..]
    ensures s5.pushing == s3.pushing && s5.waking == s3.waking
  {
    ScheduleHands(s3, r);
    var s4 := Onward(s3, Schedule(r), limit);
    s5 := HeadGoes(s4, 0, r, limit);
  }

  lemma ThreePark<R(!new)>(limit: nat) returns (s: State<R>)
    requires limit >= 3
    ensures Reachable(s, limit)
    ensures s.core == Core(EventState([], [Sleeper(0), Sleeper(1), Sleeper(2)], []), [], [], Some(W), true, [])
    ensures |s.tickers| == 3 && s.tickers.Keys == {0, 1, 2} && s.tickers[0] == Ticker(true, Parked, W, 0)
    ensures s.tickers[1] == s.tickers[2] == Ticker(false, Parked, W, 0)
    ensures s.pushing == s.waking == 0
  {
    var s1 := FirstJoins<R>(limit);
    assert Order(s1.core.thread) == [0];
    var s2 := Joins(s1, 1, limit);
    assert Order(s2.core.thread) == [0, 1];
    s := Joins(s2, 2, limit);
  }

  lemma HandoverFails<R(!new)>(s4: State<R>, r: R, limit: nat) returns (s: State<R>)
    requires Reachable(s4, limit) && limit >= 3 && |s4.tickers| == 3 && s4.pushing == s4.waking == 0
    requires s4.tickers.Keys == {0, 1, 2} && s4.tickers[0] == Ticker(true, Running, W, 0)
    requires s4.tickers[1] == s4.tickers[2] == Ticker(false, Parked, W, 0)
    requires s4.core.thread.notified == [] && s4.core.thread.waiting == [Sleeper(1), Sleeper(2)]
    ensures Reachable(s, limit) && Deserted(s)
  {
    ScheduleHands(s4, r);
    var s5 := Onward(s4, Schedule(r), limit);
    assert Order(s5.core.thread) == [1, 2];
    var s6 := RunStops(s5, 0, limit);
    MainLeaves(s6, 0);
    assert |s6.tickers - {0}| <= |s6.tickers|;
    var s7 := Onward(s6, LoseTicker(0), limit);
    var s8 := HeadRuns(s7, 1, r, limit);
    s := Leaves(s8, 1, limit);
  }

  lemma PollAndDropNew<R>(e: EventState<nat, Option<R>>, id: nat, w: Waker)
    requires id !in Order(e)
    ensures PollListener(e, id, w).1 == Pending && DropListener(PollListener(e, id, w).0, id) == e
  {
    PollNew(e, id, w);
    Members(e);
    var e1 := PollListener(e, id, w).0;
    PosConcat(Ids(e.waiting), [id], id);
    assert Ids(e1.waiting) == Ids(e.waiting) + [id];
    assert Without(e1.waiting, |e.waiting|) == e.waiting;
  }

  /** One `tick` is pending, a runnable is handed to it, and it is dropped: the runnable is gone, with
      the ticker alive. */
  lemma LosingRun<R(!new)>(limit: nat, r: R) returns (s: State<R>)
    requires limit >= 1
    ensures Reachable(s, limit) && s.lost == [r] && |s.tickers| == 1
  {
    var s1 := FirstJoins<R>(limit);
    ScheduleHands(s1, r);
    var s2 := Onward(s1, Schedule(r), limit);
    assert Ids(s2.core.thread.notified)[0] == 0;
    LossExactly(s2.core.thread, 0);
    s := Onward(s2, DropTick(0), limit);
  }

  /** No ticker sleeps beside a queued runnable, with nobody notified, if and only if at most one
      ticker is alive at a time; and no ticker waits while nobody is notified and nobody has the
      mainstream role, if and only if at most two are. Beyond these numbers such a state is more than
      a passing one: it can be reached with every ticker parked and nothing under way. */
  lemma TickersExactly<R(!new)>(limit: nat, r: R)
    ensures limit <= 1 <==> forall s: State<R> :: Reachable(s, limit) ==> !Stalled(s)
    ensures limit <= 1 <==> forall s: State<R> :: Reachable(s, limit) ==> !Stranded(s)
    ensures limit <= 2 <==> forall s: State<R> :: Reachable(s, limit) ==> !Orphaned(s)
    ensures limit <= 2 <==> forall s: State<R> :: Reachable(s, limit) ==> !Deserted(s)
  {
    forall s: State<R> | Reachable(s, limit)
      ensures limit <= 1 ==> !Stalled(s)
      ensures limit <= 2 ==> !Orphaned(s)
    {
      FewTickers(s, limit);
    }
    if limit > 1 {
      var s := TwoTickersStrand(limit, r);
    }
    if limit > 2 {
      var s := ThreeTickersDesert(limit, r);
    }
  }

  /** A poll of a parked ticker from its start to its end, with nobody else acting. */
  function WholePoll<R>(s: State<R>, id: nat, w: Waker): State<R> {
    StepMain(StepMain(StepMain(StepPoll(s, id, w), id), id), id)
  }

  lemma MainFindsNothing<R>(s: State<R>, id: nat)
    requires id in s.tickers && s.tickers[id].phase == Popping && |s.core.remote| == 0
    ensures var s' := StepMain(StepMain(StepMain(s, id), id), id);
            && s'.core == s.core.(slot := Some(s.tickers[id].waker))
            && s'.tickers == s.tickers[id := s.tickers[id].(phase := Parked, mark := |s.core.wakes|)]
            && s'.pushing == s.pushing && s'.waking == s.waking
  {
    var t := s.tickers[id];
    var s1 := StepMain(s, id);
    assert s1 == s.(tickers := s.tickers[id := t.(phase := Registering)]);
    var s2 := StepMain(s1, id);
    assert s2.tickers == s.tickers[id := t.(phase := Rechecking, mark := |s.core.wakes|)];
    assert StepMain(s2, id).tickers == s.tickers[id := t.(phase := Parked, mark := |s.core.wakes|)];
  }

  lemma WholePollSleeps<R>(s: State<R>, id: nat, w: Waker)
    requires Listed(s) && Still(s) && id in s.tickers && |s.core.thread.notified| == 0
    requires s.tickers[id].main ==> |s.core.remote| == 0
    ensures var s' := WholePoll(s, id, w);
            && Still(s') && |s'.core.thread.notified| == 0 && |s'.core.thread.waiting| == |s.core.thread.waiting|
            && s'.core.local == s.core.local && s'.core.listening == s.core.listening
  {
    var t, s1 := s.tickers[id], StepPoll(s, id, w);
    SleepsOn(s, id, w);
    if t.main {
      MainFindsNothing(s1, id);
    } else {
      assert StepMain(s1, id) == s1;
    }
  }

  /** Nor does a poll help: whichever ticker is polled, all are parked again afterwards, with nobody
      notified, beside the same queue (unless the mainstream queue has something to run) or without
      a mainstream ticker. */
  lemma PollsDoNotHelp<R>(acts: seq<Action<R>>, id: nat, w: Waker)
    ensures var s := Run(Init<R>(), acts); var s' := WholePoll(s, id, w);
            id in s.tickers ==>
              && (Stranded(s) && |s.core.remote| == 0 ==> Stranded(s') && s'.core.local == s.core.local)
              && (Deserted(s) ==> Deserted(s'))
  {
    RunKeeps(Init<R>(), acts);
    var s := Run(Init<R>(), acts);
    if id in s.tickers && ((Stranded(s) && |s.core.remote| == 0) || Deserted(s)) {
      WholePollSleeps(s, id, w);
    }
  }

  /** The poll of a sleeping ticker leaves its listener asleep. */
  lemma SleepsOn<R>(s: State<R>, id: nat, w: Waker)
    requires Listed(s) && id in s.tickers && s.tickers[id].phase == Parked && |s.core.thread.notified| == 0
    ensures var s', t := StepPoll(s, id, w), s.tickers[id];
            && |s'.core.thread.notified| == 0 && |s'.core.thread.waiting| == |s.core.thread.waiting|
            && s' == s.(core := s.core.(thread := s'.core.thread),
                        tickers := s.tickers[id := t.(phase := if t.main then Popping else Parked, waker := w)])
  {
    Members(s.core.thread);
    PollSleeps(s.core.thread, id, w);
  }

}

module ExecutorObject {
  import opened Prelude
  import opened Notifications
  import opened EventModel
  import opened HeldItems
  import EventList
  import M = ExecutorModel

  /** The state of an executor. `mainQueue` and `mainWaker` are shared with other threads: each method
      that touches them is one atomic operation of theirs. */
  class Executor<R> {
    const threadWaker: EventList.Event<Option<R>>
    var taskQueue: seq<R>
    var isMainstreamListening: bool
    var mainQueue: seq<R>
    var mainWaker: Option<Waker>
    /** Every `wake` of the mainstream waker so far. */
    ghost var mainWakes: seq<Waker>

    ghost predicate Valid()
      reads this, threadWaker, threadWaker.listeners
    {
      threadWaker.Valid()
    }

    ghost function Core(): M.Core<EventList.Listener<Option<R>>, R>
      reads this, threadWaker
    {
      M.Core(threadWaker.model, taskQueue, mainQueue, mainWaker, isMainstreamListening, mainWakes)
    }

    constructor ()
      ensures Valid() && Core() == M.Core(EventModel.Empty(), [], [], None, false, [])
    {
      threadWaker := new EventList.Event<Option<R>>();
      taskQueue, isMainstreamListening := [], false;
      mainQueue, mainWaker, mainWakes := [], None, [];
    }

    /** `schedule` on the thread of the executor. */
    method ScheduleHere(r: R)
      requires Valid()
      modifies this`taskQueue, threadWaker, threadWaker.listeners
      ensures Valid() && threadWaker.listeners == old(threadWaker.listeners)
      ensures Core() == M.ScheduleHere(old(Core()), r)
    {
      var n, rest := threadWaker.Notify(Handing(r));
      if rest.calls == 0 {
        taskQueue := taskQueue + [r];
      }
    }

    /** `schedule` elsewhere, first half. */
    method Push(r: R)
      requires Valid()
      modifies this`mainQueue
      ensures Valid() && Core() == M.Push(old(Core()), r)
    {
      mainQueue := mainQueue + [r];
    }

    /** `schedule` elsewhere, second half; also the end of a `try_tick` on the mainstream queue. */
    method WakeMain()
      requires Valid()
      modifies this`mainWaker, this`mainWakes
      ensures Valid() && Core() == M.WakeMain(old(Core()))
    {
      if mainWaker.Some? {
        mainWaker, mainWakes := None, mainWakes + [mainWaker.value];
      }
    }

    method PopLocal() returns (r: Option<R>)
      requires Valid()
      modifies this`taskQueue, threadWaker, threadWaker.listeners
      ensures Valid() && threadWaker.listeners == old(threadWaker.listeners)
      ensures r.None? <==> |old(taskQueue)| == 0
      ensures r.None? ==> Core() == old(Core()) && threadWaker.model == old(threadWaker.model)
      ensures r.Some? ==>
                && r.value == old(taskQueue[0])
                && Core() == old(Core()).(local := old(taskQueue[1..]), thread := Notify(old(threadWaker.model), Bare<R>(1)))
    {
      if |taskQueue| == 0 {
        return None;
      }
      r, taskQueue := Some(taskQueue[0]), taskQueue[1..];
      var n, rest := threadWaker.Notify(Bare<R>(1));
    }

    /** `try_tick` up to the run of the runnable, both of its steps in a row: one from the mainstream
        queue is followed by a wake. */
    method TryTick() returns (r: Option<R>)
      requires Valid()
      modifies this, threadWaker, threadWaker.listeners
      ensures Valid() && threadWaker.listeners == old(threadWaker.listeners)
      ensures var (c, next) := M.TryTick(old(Core()));
              r == next && Core() == if r.Some? && |old(taskQueue)| == 0 then M.WakeMain(c) else c
    {
      r := PopLocal();
      if r.None? && |mainQueue| > 0 {
        r, mainQueue := Some(mainQueue[0]), mainQueue[1..];
        WakeMain();
      }
    }
  }

  class Ticker<R> {
    const executor: Executor<R>
    var isMainstream: bool

    ghost predicate Valid()
      reads this, executor, executor.threadWaker, executor.threadWaker.listeners
    {
      executor.Valid()
    }

    constructor (executor: Executor<R>)
      requires executor.Valid()
      ensures this.executor == executor && !isMainstream && Valid()
    {
      this.executor := executor;
      isMainstream := false;
    }

    /** Poll the listener; a ready one is out of the list. */
    method AwaitTag(l: EventList.Listener<Option<R>>, w: Waker) returns (r: Poll<Option<R>>)
      requires Valid() && l in executor.threadWaker.listeners
      modifies executor.threadWaker, executor.threadWaker.listeners
      ensures Valid() && executor.threadWaker.listeners == old(executor.threadWaker.listeners)
      ensures executor.Core() == old(executor.Core()).(thread := PollListener(old(executor.threadWaker.model), l, w).0)
      ensures r == PollListener(old(executor.threadWaker.model), l, w).1
      ensures r.Ready? <==> IsNotified(old(executor.threadWaker.model), l)
      ensures r.Ready? ==> !IsNotified(executor.threadWaker.model, l)
      ensures r.Ready? ==> DropListener(executor.threadWaker.model, l) == executor.threadWaker.model
    {
      executor.threadWaker.Tidy(l, w);
      r := executor.threadWaker.Poll(l, w);
      Members(executor.threadWaker.model);
    }

    /** The top of the loop of `tick`: a local runnable, or else the mainstream role if it is free. */
    method PopOrLead() returns (r: Option<R>)
      requires Valid()
      modifies this, executor, executor.threadWaker, executor.threadWaker.listeners
      ensures Valid() && executor.threadWaker.listeners == old(executor.threadWaker.listeners)
      ensures r.Some? <==> |old(executor.taskQueue)| > 0
      ensures r.Some? ==>
                && r.value == old(executor.taskQueue[0]) && isMainstream == old(isMainstream)
                && executor.Core() == old(executor.Core()).(
                     local := old(executor.taskQueue[1..]), thread := Notify(old(executor.threadWaker.model), Bare<R>(1)))
      ensures r.None? ==>
                && executor.Core() == old(executor.Core()).(listening := true)
                && isMainstream == old(isMainstream || !executor.isMainstreamListening)
    {
      r := executor.PopLocal();
      if r.None? && !executor.isMainstreamListening {
        executor.isMainstreamListening := true;
        isMainstream := true;
      }
    }

    /** One poll of a `tick` future with listener `l`, suspended at `at`, up to the run of a runnable
        or the poll of the mainstream queue. */
    method PollTick(l: EventList.Listener<Option<R>>, at: Point, w: Waker) returns (turn: M.Turn<R>)
      requires Valid() && l in executor.threadWaker.listeners && (at == Start ==> !l.inList)
      modifies this, executor, executor.threadWaker, executor.threadWaker.listeners
      ensures Valid() && executor.threadWaker.listeners == old(executor.threadWaker.listeners)
      ensures (executor.Core(), isMainstream, turn)
           == if at == Start then M.TickTop(old(executor.Core()), l, old(isMainstream), w)
              else M.TickResume(old(executor.Core()), l, old(isMainstream), w)
    {
      var here := at;
      executor.threadWaker.Tidy(l, w);
      ghost var outcome := if at == Start then M.TickTop(executor.Core(), l, isMainstream, w)
                           else M.TickResume(executor.Core(), l, isMainstream, w);
      while true
        invariant Valid() && executor.threadWaker.listeners == old(executor.threadWaker.listeners)
        invariant here == Await ==> at == Await && executor.Core() == old(executor.Core()) && isMainstream == old(isMainstream)
        invariant here == Start ==> !IsNotified(executor.threadWaker.model, l)
        invariant here == Start ==> M.TickTop(executor.Core(), l, isMainstream, w) == outcome
        decreases here == Await
      {
        if here == Start {
          var r := PopOrLead();
          if r.Some? {
            return M.RunsLast(r.value);
          }
        }
        var r := AwaitTag(l, w);
        if r.Pending? {
          return if isMainstream then M.Consults else M.Parks;
        }
        if r.value.Some? {
          return M.Runs(r.value.value);
        }
        here := Start;
      }
    }

    /** One pop of the mainstream queue within a poll; `registered` tells whether the waker is set. */
    method PopMain(registered: bool) returns (turn: M.Turn<R>)
      requires Valid()
      modifies executor`mainQueue, executor`mainWaker
      ensures Valid() && (executor.Core(), turn) == M.MainPop(old(executor.Core()), registered)
    {
      if |executor.mainQueue| > 0 {
        turn := M.Runs(executor.mainQueue[0]);
        executor.mainQueue := executor.mainQueue[1..];
        if registered {
          executor.mainWaker := None;
        }
      } else {
        turn := if registered then M.Parks else M.Consults;
      }
    }

    method RegisterMain(w: Waker)
      requires Valid()
      modifies executor`mainWaker
      ensures Valid() && executor.Core() == M.MainRegister(old(executor.Core()), w)
    {
      executor.mainWaker := Some(w);
    }

    /** After a run: one more poll of the listener, which is then dropped. */
    method AfterRun(l: EventList.Listener<Option<R>>, w: Waker) returns (turn: M.Turn<R>)
      requires Valid() && l in executor.threadWaker.listeners
      modifies executor.threadWaker, executor.threadWaker.listeners
      ensures Valid() && executor.threadWaker.listeners == old(executor.threadWaker.listeners)
      ensures (executor.Core(), turn) == M.AfterRun(old(executor.Core()), l, w)
    {
      var r := AwaitTag(l, w);
      executor.threadWaker.Drop(l);
      turn := if r.Ready? && r.value.Some? then M.RunsLast(r.value.value) else M.Returns;
    }

    /** A pending `tick` future is dropped. */
    method CancelTick(l: EventList.Listener<Option<R>>)
      requires Valid() && l in executor.threadWaker.listeners
      modifies executor.threadWaker, executor.threadWaker.listeners
      ensures Valid() && executor.threadWaker.listeners == old(executor.threadWaker.listeners)
      ensures executor.Core() == M.CancelTick(old(executor.Core()), l)
    {
      executor.threadWaker.Drop(l);
    }

    /** `Drop` of a ticker: the mainstream one gives up its role and wakes another. */
    method Drop()
      requires Valid()
      modifies executor, executor.threadWaker, executor.threadWaker.listeners
      ensures Valid() && executor.threadWaker.listeners == old(executor.threadWaker.listeners)
      ensures executor.Core() == M.DropTicker(old(executor.Core()), isMainstream)
    {
      if isMainstream {
        executor.mainWaker := None;
        executor.isMainstreamListening := false;
        var n, rest := executor.threadWaker.Notify(Bare<R>(1));
      }
    }
  }
}
