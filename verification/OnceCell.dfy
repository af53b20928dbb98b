/** `src/lock/once_cell.rs`: a slot written once, by one initialiser at a time. */
module OnceCellModel {
  import opened Prelude
  import opened Notifications
  import opened EventModel
  import opened EventWakes

  /** Initialisers sleep on `active`, plain waiters on `passive`. */
  datatype Core<Id, V> = Core(active: EventState<Id, ()>, passive: EventState<Id, ()>, writing: bool, data: Option<V>)

  const ONE := Plain(1, ())
  const EVERYONE := Plain(USIZE_MAX, ()).Additional()

  /** What a poll of `get_or_try_init` comes to: it sleeps, it owns the write guard and runs its
      setter, or it returns the stored value. */
  datatype Progress = Sleeps | Writes | Gets

  /** The loop from its top, the listener not in the list. */
  function Try<Id(==), V>(c: Core<Id, V>, id: Id, w: Waker): (Core<Id, V>, Progress) {
    if c.data.Some? then (c, Gets)
    else if c.writing then (c.(active := PollListener(c.active, id, w).0), Sleeps)
    else (c.(writing := true), Writes)
  }

  /** A poll of `get_or_try_init` that has not taken its setter yet. */
  function PollInit<Id(==), V>(c: Core<Id, V>, id: Id, at: Point, w: Waker): (Core<Id, V>, Progress) {
    if at == Start then Try(c, id, w)
    else
      var (e, r) := PollListener(c.active, id, w);
      if r.Pending? then (c.(active := e), Sleeps) else Try(c.(active := e), id, w)
  }

  /** The drop of the write guard: after an error, after a cancellation, and at the end of a write. */
  function Unwrite<Id, V>(c: Core<Id, V>): Core<Id, V> {
    c.(writing := false, active := Notify(c.active, ONE))
  }

  /** The setter of the writing call is done. */
  function Store<Id, V>(c: Core<Id, V>, v: V): Core<Id, V> {
    Unwrite(Core(Notify(c.active, EVERYONE), Notify(c.passive, EVERYONE), c.writing, Some(v)))
  }

  /** A poll of `set`: its setter is done at once. */
  function PollSet<Id(==), V>(c: Core<Id, V>, id: Id, at: Point, w: Waker, v: V): (Core<Id, V>, Progress) {
    var (c', p) := PollInit(c, id, at, w);
    if p == Writes then (Store(c', v), Writes) else (c', p)
  }

  /** The loop of `wait` from its condition, the listener not in the list; does it return? */
  function Check<Id(==), V>(c: Core<Id, V>, id: Id, w: Waker): (Core<Id, V>, bool) {
    if c.data.Some? then (c, true) else (c.(passive := PollListener(c.passive, id, w).0), false)
  }

  function PollWait<Id(==), V>(c: Core<Id, V>, id: Id, at: Point, w: Waker): (Core<Id, V>, bool) {
    if at == Start then Check(c, id, w)
    else
      var (e, r) := PollListener(c.passive, id, w);
      if r.Pending? then (c.(passive := e), false) else Check(c.(passive := e), id, w)
  }

  // ----- every run

  /** A call in flight. `setter` and `value` are the options the code unwraps. */
  datatype Call<V> =
    | Init(at: Point, setter: bool)
    | Writing
    | Set(at: Point, value: Option<V>)
    | Wait(at: Point)

  datatype Result<V> = Got(v: V) | Failed | SetOk | SetErr(v: V) | Waited | Cancelled

  /** `offers` are the values handed to `set`, `results` how calls ended; `panicked` tells whether
      an empty option was unwrapped. */
  datatype State<V> = State(
    core: Core<nat, V>, calls: map<nat, Call<V>>, offers: map<nat, V>, results: map<nat, Result<V>>, panicked: bool)

  datatype Action<V> =
    | StartInit(id: nat)
    | StartSet(id: nat, v: V)
    | StartWait(id: nat)
    | Poll(id: nat, w: Waker)
    | SetterOk(id: nat, v: V)
    | SetterErr(id: nat)
    | Cancel(id: nat)

  function Start0<V>(): State<V> { State(Core(Empty(), Empty(), false, None), map[], map[], map[], false) }

  /** Call ids are not used twice; the address space leaves room for fewer than `usize::MAX` calls. */
  predicate MayStart<V>(s: State<V>, id: nat) {
    id !in s.calls && id !in s.results && |s.calls| + 1 < USIZE_MAX
  }

  function Finish<V>(s: State<V>, id: nat, r: Result<V>): State<V> {
    s.(calls := s.calls - {id}, results := s.results[id := r])
  }

  function AfterInit<V>(s: State<V>, id: nat, setter: bool, c: Core<nat, V>, p: Progress): State<V> {
    match p
    case Sleeps => s.(core := c, calls := s.calls[id := Init(Await, setter)])
    case Writes => s.(core := c, calls := s.calls[id := Writing], panicked := s.panicked || !setter)
    case Gets => if c.data.Some? then Finish(s.(core := c), id, Got(c.data.value)) else s
  }

  function AfterSet<V>(s: State<V>, id: nat, v: V, c: Core<nat, V>, p: Progress): State<V> {
    match p
    case Sleeps => s.(core := c, calls := s.calls[id := Set(Await, Some(v))])
    case Writes => Finish(s.(core := c), id, SetOk)
    case Gets => Finish(s.(core := c), id, SetErr(v))
  }

  function Step<V>(s: State<V>, a: Action<V>): State<V> {
    match a
    case StartInit(id) => if MayStart(s, id) then s.(calls := s.calls[id := Init(Start, true)]) else s
    case StartSet(id, v) =>
      if MayStart(s, id) then s.(calls := s.calls[id := Set(Start, Some(v))], offers := s.offers[id := v]) else s
    case StartWait(id) => if MayStart(s, id) then s.(calls := s.calls[id := Wait(Start)]) else s
    case Poll(id, w) =>
      if id !in s.calls then s
      else (
        match s.calls[id]
        case Init(at, setter) =>
          var (c, p) := PollInit(s.core, id, at, w);
          AfterInit(s, id, setter, c, p)
        case Writing => s
        case Set(at, None) => s.(panicked := true)
        case Set(at, Some(v)) =>
          var (c, p) := PollSet(s.core, id, at, w, v);
          AfterSet(s, id, v, c, p)
        case Wait(at) =>
          var (c, done) := PollWait(s.core, id, at, w);
          if done then Finish(s.(core := c), id, Waited) else s.(core := c, calls := s.calls[id := Wait(Await)]))
    case SetterOk(id, v) =>
      if id in s.calls && s.calls[id].Writing? then Finish(s.(core := Store(s.core, v)), id, Got(v)) else s
    case SetterErr(id) =>
      if id in s.calls && s.calls[id].Writing? then Finish(s.(core := Unwrite(s.core)), id, Failed) else s
    case Cancel(id) =>
      if id !in s.calls then s
      else if s.calls[id].Writing? then Finish(s.(core := Unwrite(s.core)), id, Cancelled)
      else if s.calls[id].Wait? then
        Finish(s.(core := s.core.(passive := DropListener(s.core.passive, id))), id, Cancelled)
      else
        Finish(s.(core := s.core.(active := DropListener(s.core.active, id))), id, Cancelled)
  }

  function Run<V>(s: State<V>, acts: seq<Action<V>>): State<V>
    decreases |acts|
  {
    if |acts| == 0 then s else Run(Step(s, acts[0]), acts[1..])
  }

  predicate OnActive<V>(call: Call<V>) { (call.Init? || call.Set?) && call.at == Await }

  predicate OnPassive<V>(call: Call<V>) { call.Wait? && call.at == Await }

  /** Who is in which list. */
  ghost predicate Listed<V>(s: State<V>) {
    && Wf(s.core.active) && Wf(s.core.passive) && |s.calls| < USIZE_MAX
    && (forall id :: id in Order(s.core.active) <==> id in s.calls && OnActive(s.calls[id]))
    && (forall id :: id in Order(s.core.passive) <==> id in s.calls && OnPassive(s.calls[id]))
  }

  /** The write flag is the guard of the one writing call. */
  ghost predicate Guarded<V>(s: State<V>) {
    && (s.core.writing <==> exists id :: id in s.calls && s.calls[id].Writing?)
    && (forall a, b :: a in s.calls && b in s.calls && s.calls[a].Writing? && s.calls[b].Writing? ==> a == b)
    && (s.core.data.Some? ==> !s.core.writing)
  }

  predicate Rousing<V>(c: Core<nat, V>) {
    && (c.data.None? && !c.writing ==> Awake(c.active))
    && (c.data.Some? ==> |c.active.waiting| == 0 && |c.passive.waiting| == 0)
  }

  /** What the finished and the running `set` calls may claim. */
  ghost predicate Linear<V>(s: State<V>) {
    && !s.panicked
    && (forall id :: id in s.calls ==>
          && id !in s.results
          && (s.calls[id].Init? ==> s.calls[id].setter)
          && (s.calls[id].Set? ==> id in s.offers && s.calls[id].value == Some(s.offers[id])))
    && (forall id :: id in s.results ==>
          match s.results[id]
          case Got(v) => s.core.data == Some(v)
          case SetOk => id in s.offers && s.core.data == Some(s.offers[id])
          case SetErr(v) => id in s.offers && v == s.offers[id] && s.core.data.Some?
          case Waited => s.core.data.Some?
          case _ => true)
    && (forall a, b :: a in s.results && b in s.results && s.results[a].SetOk? && s.results[b].SetOk? ==> a == b)
  }

  ghost predicate Inv<V>(s: State<V>) { Listed(s) && Guarded(s) && Rousing(s.core) && Linear(s) }

  // ----- what the operations do to the lists

  ghost predicate Ready<V>(c: Core<nat, V>) { Wf(c.active) && Wf(c.passive) && Rousing(c) }

  lemma UnwriteCore<V>(c: Core<nat, V>)
    requires Wf(c.active) && Wf(c.passive)
    requires c.data.Some? ==> |c.active.waiting| == 0 && |c.passive.waiting| == 0
    ensures Ready(Unwrite(c)) && SameMembers(Order(Unwrite(c).active), Order(c.active))
  {
    NotifyFacts(c.active, ONE);
  }

  lemma StoreCore<V>(c: Core<nat, V>, v: V)
    requires Wf(c.active) && Wf(c.passive) && |Order(c.active)| <= USIZE_MAX && |Order(c.passive)| <= USIZE_MAX
    ensures Ready(Store(c, v)) && Store(c, v).data == Some(v) && !Store(c, v).writing
    ensures SameMembers(Order(Store(c, v).active), Order(c.active))
    ensures SameMembers(Order(Store(c, v).passive), Order(c.passive))
  {
    NotifyEveryone(c.active, EVERYONE);
    NotifyEveryone(c.passive, EVERYONE);
    UnwriteCore(Core(Notify(c.active, EVERYONE), Notify(c.passive, EVERYONE), c.writing, Some(v)));
  }

  /** What a poll of an initialiser does to the cell. */
  ghost predicate Tried<V>(c: Core<nat, V>, id: nat, c': Core<nat, V>, p: Progress) {
    && c'.passive == c.passive && c'.data == c.data && Ready(c')
    && (if p == Sleeps then Plus(Order(c'.active), Order(c.active), id) else Minus(Order(c'.active), Order(c.active), id))
    && (if p == Writes then !c.writing && c'.writing else c'.writing == c.writing)
    && (p == Gets <==> c.data.Some?)
  }

  lemma TryCore<V>(c: Core<nat, V>, id: nat, w: Waker)
    requires Wf(c.active) && Wf(c.passive) && id !in Order(c.active)
    requires c.data.Some? ==> |c.active.waiting| == 0 && |c.passive.waiting| == 0
    ensures var (c', p) := Try(c, id, w); Tried(c, id, c', p)
  {
    Members(c.active);
    if c.data.None? && c.writing {
      PollPending(c.active, id, w);
    }
  }

  lemma InitCore<V>(c: Core<nat, V>, id: nat, at: Point, w: Waker)
    requires Ready(c) && (at == Await <==> id in Order(c.active))
    ensures var (c', p) := PollInit(c, id, at, w); Tried(c, id, c', p)
  {
    Members(c.active);
    if at == Start {
      TryCore(c, id, w);
    } else if IsNotified(c.active, id) {
      PollReady(c.active, id, w);
      TryCore(c.(active := PollListener(c.active, id, w).0), id, w);
    } else {
      PollPending(c.active, id, w);
    }
  }

  lemma WaitCore<V>(c: Core<nat, V>, id: nat, at: Point, w: Waker)
    requires Ready(c) && (at == Await <==> id in Order(c.passive))
    ensures var (c', done) := PollWait(c, id, at, w);
            && c'.active == c.active && c'.data == c.data && c'.writing == c.writing && Ready(c')
            && (done ==> Minus(Order(c'.passive), Order(c.passive), id) && c.data.Some?)
            && (!done ==> Plus(Order(c'.passive), Order(c.passive), id) && c.data.None?)
  {
    Members(c.passive);
    if at == Start {
      if c.data.None? {
        PollPending(c.passive, id, w);
      }
    } else if IsNotified(c.passive, id) {
      PollReady(c.passive, id, w);
      var e := PollListener(c.passive, id, w).0;
      Members(e);
      if c.data.None? {
        PollPending(e, id, w);
      }
    } else {
      PollPending(c.passive, id, w);
    }
  }

  // ----- bookkeeping: one call changes or ends, the others stay

  /** `q'` is `q` with `id` in it or not, as `on` says. */
  ghost predicate Moved(q': seq<nat>, q: seq<nat>, id: nat, on: bool) {
    if on then Plus(q', q, id) else Minus(q', q, id)
  }

  lemma ChangeGuarded<V>(s: State<V>, c: Core<nat, V>, id: nat, call: Call<V>)
    requires Guarded(s) && id in s.calls && !s.calls[id].Writing?
    requires c.data == s.core.data
    requires if call.Writing? then !s.core.writing && c.writing && c.data.None? else c.writing == s.core.writing
    ensures Guarded(s.(core := c, calls := s.calls[id := call]))
  {
    var calls := s.calls[id := call];
    if c.writing {
      var a :| a in calls && calls[a].Writing? by {
        if call.Writing? {
          assert calls[id].Writing?;
        } else {
          var b :| b in s.calls && s.calls[b].Writing?;
          assert calls[b].Writing?;
        }
      }
    }
  }

  /** A call that ends was the writer and leaves the flag clear, or it was not and leaves it alone. */
  lemma FinishGuarded<V>(s: State<V>, c: Core<nat, V>, id: nat, r: Result<V>)
    requires Guarded(s) && id in s.calls && (c.data.Some? ==> !c.writing)
    requires if s.calls[id].Writing? then !c.writing else c.writing == s.core.writing
    ensures Guarded(Finish(s.(core := c), id, r))
  {
    if c.writing {
      var b :| b in s.calls && s.calls[b].Writing?;
      assert (s.calls - {id})[b].Writing?;
    }
  }

  lemma ChangeLinear<V>(s: State<V>, c: Core<nat, V>, id: nat, call: Call<V>)
    requires Linear(s) && id in s.calls && c.data == s.core.data
    requires call.Init? ==> call.setter
    requires call.Set? ==> id in s.offers && call.value == Some(s.offers[id])
    ensures Linear(s.(core := c, calls := s.calls[id := call]))
  {
  }

  /** What a call may return: only a `set` that stores its value into an empty cell returns `Ok`. */
  ghost predicate Honest<V>(s: State<V>, c: Core<nat, V>, id: nat, r: Result<V>) {
    && (s.core.data.Some? ==> c.data == s.core.data)
    && match r
       case Got(v) => c.data == Some(v)
       case SetOk => id in s.offers && s.core.data.None? && c.data == Some(s.offers[id])
       case SetErr(v) => id in s.offers && v == s.offers[id] && c.data.Some?
       case Waited => c.data.Some?
       case _ => true
  }

  lemma FinishLinear<V>(s: State<V>, c: Core<nat, V>, id: nat, r: Result<V>)
    requires Linear(s) && id in s.calls && Honest(s, c, id, r)
    ensures Linear(Finish(s.(core := c), id, r))
  {
  }

  lemma ChangeKeeps<V>(s: State<V>, c: Core<nat, V>, id: nat, call: Call<V>)
    requires Inv(s) && id in s.calls && !s.calls[id].Writing? && Ready(c) && c.data == s.core.data
    requires Moved(Order(c.active), Order(s.core.active), id, OnActive(call))
    requires Moved(Order(c.passive), Order(s.core.passive), id, OnPassive(call))
    requires if call.Writing? then !s.core.writing && c.writing && c.data.None? else c.writing == s.core.writing
    requires call.Init? ==> call.setter
    requires call.Set? ==> id in s.offers && call.value == Some(s.offers[id])
    ensures Inv(s.(core := c, calls := s.calls[id := call]))
  {
    ChangeGuarded(s, c, id, call);
    ChangeLinear(s, c, id, call);
  }

  lemma FinishKeeps<V>(s: State<V>, c: Core<nat, V>, id: nat, r: Result<V>)
    requires Inv(s) && id in s.calls && Ready(c) && (c.data.Some? ==> !c.writing) && Honest(s, c, id, r)
    requires Minus(Order(c.active), Order(s.core.active), id) && Minus(Order(c.passive), Order(s.core.passive), id)
    requires if s.calls[id].Writing? then !c.writing else c.writing == s.core.writing
    ensures Inv(Finish(s.(core := c), id, r))
  {
    FinishGuarded(s, c, id, r);
    FinishLinear(s, c, id, r);
  }

  // ----- every action keeps the invariant

  lemma Fits<V>(s: State<V>)
    requires Listed(s)
    ensures |Order(s.core.active)| <= USIZE_MAX && |Order(s.core.passive)| <= USIZE_MAX
  {
    DistinctFits(Order(s.core.active), s.calls.Keys);
    DistinctFits(Order(s.core.passive), s.calls.Keys);
  }

  lemma StartGuarded<V>(s: State<V>, id: nat, call: Call<V>, offers: map<nat, V>)
    requires Guarded(s) && id !in s.calls && !call.Writing?
    ensures Guarded(s.(calls := s.calls[id := call], offers := offers))
  {
    if s.core.writing {
      var b :| b in s.calls && s.calls[b].Writing?;
      assert s.calls[id := call][b].Writing?;
    }
  }

  lemma StartListed<V>(s: State<V>, id: nat, call: Call<V>, offers: map<nat, V>)
    requires Listed(s) && MayStart(s, id) && !OnActive(call) && !OnPassive(call)
    ensures Listed(s.(calls := s.calls[id := call], offers := offers))
  {
    assert |s.calls[id := call]| == |s.calls| + 1;
  }

  lemma StartLinear<V>(s: State<V>, id: nat, call: Call<V>, offers: map<nat, V>)
    requires Linear(s) && id !in s.calls && id !in s.results && (call.Init? ==> call.setter)
    requires forall x :: x in s.offers && x != id ==> x in offers && offers[x] == s.offers[x]
    requires call.Set? ==> id in offers && call.value == Some(offers[id])
    ensures Linear(s.(calls := s.calls[id := call], offers := offers))
  {
  }

  lemma StartKeeps<V>(s: State<V>, id: nat, call: Call<V>, offers: map<nat, V>)
    requires Inv(s) && MayStart(s, id) && !call.Writing? && call.at == Start && (call.Init? ==> call.setter)
    requires forall x :: x in s.offers && x != id ==> x in offers && offers[x] == s.offers[x]
    requires call.Set? ==> id in offers && call.value == Some(offers[id])
    ensures Inv(s.(calls := s.calls[id := call], offers := offers))
  {
    StartListed(s, id, call, offers);
    StartGuarded(s, id, call, offers);
    StartLinear(s, id, call, offers);
  }

  lemma InitKeeps<V>(s: State<V>, id: nat, w: Waker)
    requires Inv(s) && id in s.calls && s.calls[id].Init?
    ensures Inv(Step(s, Poll(id, w)))
  {
    InitCore(s.core, id, s.calls[id].at, w);
    var (c, p) := PollInit(s.core, id, s.calls[id].at, w);
    assert Tried(s.core, id, c, p);
    assert Step(s, Poll(id, w)) == AfterInit(s, id, true, c, p);
    match p
    case Sleeps => ChangeKeeps(s, c, id, Init(Await, true));
    case Writes => ChangeKeeps(s, c, id, Writing);
    case Gets => FinishKeeps(s, c, id, Got(c.data.value));
  }

  lemma SetStores<V>(s: State<V>, id: nat, c: Core<nat, V>, v: V)
    requires Inv(s) && id in s.calls && s.calls[id].Set? && v == s.calls[id].value.value
    requires Ready(c) && c.passive == s.core.passive && s.core.data.None? && !s.core.writing
    requires Minus(Order(c.active), Order(s.core.active), id)
    ensures Inv(Finish(s.(core := Store(c, v)), id, SetOk))
  {
    Fits(s);
    DistinctFits(Order(c.active), s.calls.Keys);
    StoreCore(c, v);
    FinishKeeps(s, Store(c, v), id, SetOk);
  }

  lemma SetSleeps<V>(s: State<V>, id: nat, c: Core<nat, V>, v: V)
    requires Inv(s) && id in s.calls && s.calls[id].Set? && s.calls[id].value == Some(v) && Ready(c)
    requires c.passive == s.core.passive && c.data == s.core.data && c.writing == s.core.writing
    requires Plus(Order(c.active), Order(s.core.active), id)
    ensures Inv(s.(core := c, calls := s.calls[id := Set(Await, Some(v))]))
  {
    ChangeKeeps(s, c, id, Set(Await, Some(v)));
  }

  lemma SetGets<V>(s: State<V>, id: nat, c: Core<nat, V>, v: V)
    requires Inv(s) && id in s.calls && s.calls[id].Set? && s.calls[id].value == Some(v) && Ready(c)
    requires c.passive == s.core.passive && c.data == s.core.data && c.writing == s.core.writing && c.data.Some?
    requires Minus(Order(c.active), Order(s.core.active), id)
    ensures Inv(Finish(s.(core := c), id, SetErr(v)))
  {
    FinishKeeps(s, c, id, SetErr(v));
  }

  lemma SetKeeps<V>(s: State<V>, id: nat, w: Waker)
    requires Inv(s) && id in s.calls && s.calls[id].Set?
    ensures Inv(Step(s, Poll(id, w)))
  {
    var v := s.calls[id].value.value;
    InitCore(s.core, id, s.calls[id].at, w);
    var (c, p) := PollInit(s.core, id, s.calls[id].at, w);
    assert Tried(s.core, id, c, p);
    assert Step(s, Poll(id, w)) == AfterSet(s, id, v, if p.Writes? then Store(c, v) else c, p);
    match p
    case Sleeps => SetSleeps(s, id, c, v);
    case Writes => SetStores(s, id, c, v);
    case Gets => SetGets(s, id, c, v);
  }

  lemma WaitKeeps<V>(s: State<V>, id: nat, w: Waker)
    requires Inv(s) && id in s.calls && s.calls[id].Wait?
    ensures Inv(Step(s, Poll(id, w)))
  {
    WaitCore(s.core, id, s.calls[id].at, w);
    var (c, done) := PollWait(s.core, id, s.calls[id].at, w);
    if done {
      FinishKeeps(s, c, id, Waited);
    } else {
      ChangeKeeps(s, c, id, Wait(Await));
    }
  }

  lemma StoreKeeps<V>(s: State<V>, id: nat, v: V)
    requires Inv(s) && id in s.calls && s.calls[id].Writing?
    ensures Inv(Finish(s.(core := Store(s.core, v)), id, Got(v)))
  {
    Fits(s);
    StoreCore(s.core, v);
    FinishKeeps(s, Store(s.core, v), id, Got(v));
  }

  lemma UnwriteKeeps<V>(s: State<V>, id: nat, r: Result<V>)
    requires Inv(s) && id in s.calls && s.calls[id].Writing? && (r == Failed || r == Cancelled)
    ensures Inv(Finish(s.(core := Unwrite(s.core)), id, r))
  {
    UnwriteCore(s.core);
    FinishKeeps(s, Unwrite(s.core), id, r);
  }

  lemma CancelWaitKeeps<V>(s: State<V>, id: nat)
    requires Inv(s) && id in s.calls && s.calls[id].Wait?
    ensures Inv(Finish(s.(core := s.core.(passive := DropListener(s.core.passive, id))), id, Cancelled))
  {
    DropKeeps(s.core.passive, id);
    FinishKeeps(s, s.core.(passive := DropListener(s.core.passive, id)), id, Cancelled);
  }

  lemma CancelInitKeeps<V>(s: State<V>, id: nat)
    requires Inv(s) && id in s.calls && (s.calls[id].Init? || s.calls[id].Set?)
    ensures Inv(Finish(s.(core := s.core.(active := DropListener(s.core.active, id))), id, Cancelled))
  {
    DropKeeps(s.core.active, id);
    FinishKeeps(s, s.core.(active := DropListener(s.core.active, id)), id, Cancelled);
  }

  lemma PollKeeps<V>(s: State<V>, id: nat, w: Waker)
    requires Inv(s) && id in s.calls
    ensures Inv(Step(s, Poll(id, w)))
  {
    match s.calls[id]
    case Init(_, _) => InitKeeps(s, id, w);
    case Set(_, _) => SetKeeps(s, id, w);
    case Wait(_) => WaitKeeps(s, id, w);
    case Writing =>
  }

  lemma StartInitKeeps<V>(s: State<V>, id: nat)
    requires Inv(s)
    ensures Inv(Step(s, StartInit(id))) && Inv(Step(s, StartWait(id)))
  {
    if MayStart(s, id) {
      StartKeeps(s, id, Init(Start, true), s.offers);
      StartKeeps(s, id, Wait(Start), s.offers);
    }
  }

  lemma StartSetKeeps<V>(s: State<V>, id: nat, v: V)
    requires Inv(s)
    ensures Inv(Step(s, StartSet(id, v)))
  {
    if MayStart(s, id) {
      StartKeeps(s, id, Set(Start, Some(v)), s.offers[id := v]);
    }
  }

  lemma SetterKeeps<V>(s: State<V>, id: nat, v: V)
    requires Inv(s)
    ensures Inv(Step(s, SetterOk(id, v))) && Inv(Step(s, SetterErr(id)))
  {
    if id in s.calls && s.calls[id].Writing? {
      StoreKeeps(s, id, v);
      UnwriteKeeps(s, id, Failed);
    }
  }

  lemma CancelKeeps<V>(s: State<V>, id: nat)
    requires Inv(s)
    ensures Inv(Step(s, Cancel(id)))
  {
    if id in s.calls {
      match s.calls[id]
      case Writing => UnwriteKeeps(s, id, Cancelled);
      case Wait(_) => CancelWaitKeeps(s, id);
      case _ => CancelInitKeeps(s, id);
    }
  }

  lemma StepKeeps<V>(s: State<V>, a: Action<V>)
    requires Inv(s)
    ensures Inv(Step(s, a))
  {
    match a
    case StartInit(id) => StartInitKeeps(s, id);
    case StartSet(id, v) => StartSetKeeps(s, id, v);
    case StartWait(id) => StartInitKeeps(s, id);
    case Poll(id, w) => if id in s.calls { PollKeeps(s, id, w); }
    case SetterOk(id, v) => SetterKeeps(s, id, v);
    case SetterErr(id) => if id in s.calls && s.calls[id].Writing? { UnwriteKeeps(s, id, Failed); }
    case Cancel(id) => CancelKeeps(s, id);
  }

  lemma {:induction false} RunKeeps<V>(s: State<V>, acts: seq<Action<V>>)
    requires Inv(s)
    ensures Inv(Run(s, acts))
    decreases |acts|
  {
    if |acts| > 0 {
      StepKeeps(s, acts[0]);
      RunKeeps(Step(s, acts[0]), acts[1..]);
    }
  }

  lemma DataStays<V>(s: State<V>, a: Action<V>)
    requires Inv(s) && s.core.data.Some?
    ensures Step(s, a).core.data == s.core.data
  {
    if a.Poll? && a.id in s.calls {
      match s.calls[a.id]
      case Init(at, _) => InitCore(s.core, a.id, at, a.w);
      case Set(at, _) => InitCore(s.core, a.id, at, a.w);
      case Wait(at) => WaitCore(s.core, a.id, at, a.w);
      case Writing =>
    } else if a.SetterOk? && a.id in s.calls && s.calls[a.id].Writing? {
      assert false;
    }
  }

  lemma {:induction false} ValueStaysFrom<V>(s: State<V>, acts: seq<Action<V>>)
    requires Inv(s) && s.core.data.Some?
    ensures Run(s, acts).core.data == s.core.data
    decreases |acts|
  {
    if |acts| > 0 {
      DataStays(s, acts[0]);
      StepKeeps(s, acts[0]);
      ValueStaysFrom(Step(s, acts[0]), acts[1..]);
    }
  }

  // ----- what holds in every run

  /** A stored value never changes, whatever happens afterwards. */
  lemma ValueStays<V>(before: seq<Action<V>>, after: seq<Action<V>>)
    ensures var s := Run(Start0<V>(), before); s.core.data.Some? ==> Run(s, after).core.data == s.core.data
  {
    RunKeeps(Start0<V>(), before);
    if Run(Start0<V>(), before).core.data.Some? {
      ValueStaysFrom(Run(Start0<V>(), before), after);
    }
  }

  /** The write flag is set exactly while one call owns the guard. With nothing stored and nobody
      writing, a non-empty list of initialisers has a notified one, after errors and cancellations
      too. Once a value is stored, every listener is notified. */
  lemma NobodyIsForgotten<V>(acts: seq<Action<V>>)
    ensures var s := Run(Start0<V>(), acts);
            && (s.core.writing <==> exists id :: id in s.calls && s.calls[id].Writing?)
            && (forall a, b :: a in s.calls && b in s.calls && s.calls[a].Writing? && s.calls[b].Writing? ==> a == b)
            && (s.core.data.None? && !s.core.writing && |Order(s.core.active)| > 0 ==> |s.core.active.notified| > 0)
            && (s.core.data.Some? ==> !s.core.writing && |s.core.active.waiting| == |s.core.passive.waiting| == 0)
  {
    RunKeeps(Start0<V>(), acts);
    Members(Run(Start0<V>(), acts).core.active);
  }

  /** A call goes on with its loop at this poll: it is new, or it is notified. */
  predicate Tries(e: EventState<nat, ()>, id: nat, at: Point) { at == Start || IsNotified(e, id) }

  /** How the poll of a `set` ends. It ends when it goes on and finds a value or nobody writing. With a
      value there it answers `Err` with its own and leaves the cell alone; otherwise it stores its
      value and answers `Ok`. */
  ghost predicate SetAnswers<V>(s: State<V>, s': State<V>, id: nat, at: Point) {
    && id in s.offers
    && (id in s'.results <==> Tries(s.core.active, id, at) && (s.core.data.Some? || !s.core.writing))
    && (if id in s'.results && s.core.data.None?
        then s'.results[id] == SetOk && s'.core.data == Some(s.offers[id])
        else s'.core.data == s.core.data)
    && (id in s'.results && s.core.data.Some? ==> s'.results[id] == SetErr(s.offers[id]))
  }

  ghost predicate InitAnswers<V>(s: State<V>, s': State<V>, id: nat, at: Point) {
    && s'.core.data == s.core.data
    && (id in s'.results <==> Tries(s.core.active, id, at) && s.core.data.Some?)
    && (id in s'.results ==> s'.results[id] == Got(s.core.data.value))
    && (id in s'.calls && s'.calls[id].Writing? <==>
          Tries(s.core.active, id, at) && s.core.data.None? && !s.core.writing)
  }

  ghost predicate WaitAnswers<V>(s: State<V>, s': State<V>, id: nat, at: Point) {
    && s'.core.data == s.core.data
    && (id in s'.results <==> Tries(s.core.passive, id, at) && s.core.data.Some?)
    && (id in s'.results ==> s'.results[id] == Waited)
  }

  lemma InitProgress<V>(c: Core<nat, V>, id: nat, at: Point, w: Waker)
    requires Ready(c) && (at == Await <==> id in Order(c.active))
    ensures var (c', p) := PollInit(c, id, at, w);
            && c'.data == c.data
            && p == if !Tries(c.active, id, at) then Sleeps
                    else if c.data.Some? then Gets else if c.writing then Sleeps else Writes
  {
    Members(c.active);
    if IsNotified(c.active, id) {
      PollReady(c.active, id, w);
    } else {
      PollSleeps(c.active, id, w);
    }
  }

  lemma WaitProgress<V>(c: Core<nat, V>, id: nat, at: Point, w: Waker)
    requires Ready(c) && (at == Await <==> id in Order(c.passive))
    ensures var (c', done) := PollWait(c, id, at, w);
            c'.data == c.data && done == (Tries(c.passive, id, at) && c.data.Some?)
  {
    Members(c.passive);
    if IsNotified(c.passive, id) {
      PollReady(c.passive, id, w);
    } else {
      PollSleeps(c.passive, id, w);
    }
  }

  lemma SetPollAnswers<V>(s: State<V>, id: nat, w: Waker)
    requires Inv(s) && id in s.calls && s.calls[id].Set?
    ensures SetAnswers(s, Step(s, Poll(id, w)), id, s.calls[id].at)
  {
    var at, v := s.calls[id].at, s.calls[id].value.value;
    InitProgress(s.core, id, at, w);
    var (c, p) := PollInit(s.core, id, at, w);
    assert Step(s, Poll(id, w)) == AfterSet(s, id, v, if p.Writes? then Store(c, v) else c, p);
  }

  lemma InitPollAnswers<V>(s: State<V>, id: nat, w: Waker)
    requires Inv(s) && id in s.calls && s.calls[id].Init?
    ensures InitAnswers(s, Step(s, Poll(id, w)), id, s.calls[id].at)
  {
    var at := s.calls[id].at;
    InitProgress(s.core, id, at, w);
    var (c, p) := PollInit(s.core, id, at, w);
    assert Step(s, Poll(id, w)) == AfterInit(s, id, true, c, p);
  }

  lemma WaitPollAnswers<V>(s: State<V>, id: nat, w: Waker)
    requires Inv(s) && id in s.calls && s.calls[id].Wait?
    ensures WaitAnswers(s, Step(s, Poll(id, w)), id, s.calls[id].at)
  {
    WaitProgress(s.core, id, s.calls[id].at, w);
  }

  /** What each poll answers, in every run. */
  lemma AnswersExactly<V>(acts: seq<Action<V>>, id: nat, w: Waker)
    ensures var s := Run(Start0<V>(), acts); var s' := Step(s, Poll(id, w));
            id in s.calls ==>
              match s.calls[id]
              case Set(at, _) => SetAnswers(s, s', id, at)
              case Init(at, _) => InitAnswers(s, s', id, at)
              case Wait(at) => WaitAnswers(s, s', id, at)
              case Writing => s' == s
  {
    RunKeeps(Start0<V>(), acts);
    var s := Run(Start0<V>(), acts);
    if id in s.calls {
      match s.calls[id]
      case Set(_, _) => SetPollAnswers(s, id, w);
      case Init(_, _) => InitPollAnswers(s, id, w);
      case Wait(_) => WaitPollAnswers(s, id, w);
      case Writing =>
    }
  }

  /** What the end of a setter answers and stores; after an error or a cancellation one more
      initialiser is notified, if there is one and none is. */
  lemma SettersAnswer<V>(acts: seq<Action<V>>, id: nat, v: V)
    ensures var s := Run(Start0<V>(), acts); var ok, err := Step(s, SetterOk(id, v)), Step(s, SetterErr(id));
            id in s.calls && s.calls[id].Writing? ==>
              && ok.results == s.results[id := Got(v)] && ok.core.data == Some(v)
              && err.results == s.results[id := Failed] && err.core.data == s.core.data
              && Step(s, Cancel(id)) == err.(results := s.results[id := Cancelled])
              && Order(err.core.active) == Order(s.core.active)
              && |err.core.active.notified| == Max(|s.core.active.notified|, Min(1, |Order(s.core.active)|))
              && err.core.passive == s.core.passive
  {
    NotifyFacts(Run(Start0<V>(), acts).core.active, ONE);
  }

  /** Once a value is stored, every pending call ends at its next poll, and as it should: an initialiser
      with the value, a `set` with its own. */
  lemma StoredEndsCalls<V>(acts: seq<Action<V>>, id: nat, w: Waker)
    ensures var s := Run(Start0<V>(), acts); var s' := Step(s, Poll(id, w));
            s.core.data.Some? && id in s.calls ==>
              && id !in s'.calls && id in s'.results && s'.core.data == s.core.data
              && (s.calls[id].Set? ==> id in s.offers && s'.results[id] == SetErr(s.offers[id]))
              && (s.calls[id].Init? ==> s'.results[id] == Got(s.core.data.value))
              && (s.calls[id].Wait? ==> s'.results[id] == Waited)
  {
    RunKeeps(Start0<V>(), acts);
    var s := Run(Start0<V>(), acts);
    if s.core.data.Some? && id in s.calls {
      AnswersExactly(acts, id, w);
      EndsAtOnce(s, id, w);
    }
  }

  lemma EndsAtOnce<V>(s: State<V>, id: nat, w: Waker)
    requires Inv(s) && id in s.calls && s.core.data.Some?
    ensures id !in Step(s, Poll(id, w)).calls && id in Step(s, Poll(id, w)).results
  {
    match s.calls[id]
    case Init(at, _) => InitCore(s.core, id, at, w);
    case Set(at, _) => InitCore(s.core, id, at, w);
    case Wait(at) => WaitCore(s.core, id, at, w);
    case Writing =>
  }

  // ----- without initialisers that store, a stored value is some `set`'s

  ghost predicate Won<V>(s: State<V>) {
    s.core.data.Some? <==> exists id :: id in s.results && s.results[id].SetOk?
  }

  lemma StoredWon<V>(s: State<V>, a: Action<V>)
    requires Inv(s) && Won(s) && s.core.data.Some?
    ensures Won(Step(s, a))
  {
    DataStays(s, a);
    var id :| id in s.results && s.results[id].SetOk?;
    if a.Poll? {
      PollResultsStay(s, a.id, a.w, id);
    } else {
      ResultsStay(s, a, id);
    }
    assert id in Step(s, a).results;
  }

  lemma ResultsStay<V>(s: State<V>, a: Action<V>, id: nat)
    requires id in s.results && id !in s.calls && !a.Poll?
    ensures id in Step(s, a).results && Step(s, a).results[id] == s.results[id]
  {
  }

  lemma PollResultsStay<V>(s: State<V>, call: nat, w: Waker, id: nat)
    requires id in s.results && id !in s.calls
    ensures id in Step(s, Poll(call, w)).results && Step(s, Poll(call, w)).results[id] == s.results[id]
  {
  }

  lemma PollWon<V>(s: State<V>, id: nat, w: Waker)
    requires Inv(s) && id in s.calls && s.core.data.None?
    ensures var s' := Step(s, Poll(id, w)); s'.core.data.Some? ==> id in s'.results && s'.results[id].SetOk?
  {
    match s.calls[id]
    case Set(_, _) => SetPollAnswers(s, id, w);
    case Init(_, _) => InitPollAnswers(s, id, w);
    case Wait(_) => WaitPollAnswers(s, id, w);
    case Writing =>
  }

  lemma NothingStored<V>(s: State<V>, a: Action<V>)
    requires s.core.data.None? && !(a.Poll? && a.id in s.calls) && !a.SetterOk?
    ensures Step(s, a).core.data.None?
  {
  }

  /** Before anything is stored no `set` has returned `Ok`. */
  lemma EmptyWon<V>(s: State<V>)
    requires Linear(s) && s.core.data.None?
    ensures Won(s)
  {
    assert forall id :: id in s.results ==> !s.results[id].SetOk?;
  }

  /** Only a `set` that returns `Ok` puts a value into an empty cell. */
  lemma StepWon<V>(s: State<V>, a: Action<V>)
    requires Inv(s) && Won(s) && !a.SetterOk?
    ensures Won(Step(s, a))
  {
    var s' := Step(s, a);
    if s.core.data.Some? {
      StoredWon(s, a);
    } else if s'.core.data.None? {
      StepKeeps(s, a);
      EmptyWon(s');
    } else if a.Poll? && a.id in s.calls {
      PollWon(s, a.id, a.w);
      assert s'.results[a.id].SetOk?;
    } else {
      NothingStored(s, a);
    }
  }

  lemma {:induction false} RunWon<V>(s: State<V>, acts: seq<Action<V>>)
    requires Inv(s) && Won(s) && forall i :: 0 <= i < |acts| ==> !acts[i].SetterOk?
    ensures Won(Run(s, acts))
    decreases |acts|
  {
    if |acts| > 0 {
      StepWon(s, acts[0]);
      StepKeeps(s, acts[0]);
      RunWon(Step(s, acts[0]), acts[1..]);
    }
  }

  /** While no initialiser's setter succeeds, the cell holds a value exactly when one `set` has returned
      `Ok`, and then just one has, and it is that one's value. */
  lemma OneSetWins<V>(acts: seq<Action<V>>)
    requires forall i :: 0 <= i < |acts| ==> !acts[i].SetterOk?
    ensures var s := Run(Start0<V>(), acts);
            && (s.core.data.Some? <==> exists id :: id in s.results && s.results[id].SetOk?)
            && (forall a, b :: a in s.results && b in s.results && s.results[a].SetOk? && s.results[b].SetOk? ==> a == b)
            && (forall id :: id in s.results && s.results[id].SetOk? ==>
                  id in s.offers && s.core.data == Some(s.offers[id]))
  {
    RunWon(Start0<V>(), acts);
    RunKeeps(Start0<V>(), acts);
  }

  predicate SetEnd<V>(r: Result<V>) { r.SetOk? || r.SetErr? || r.Cancelled? }

  /** A call that was handed a value is a `set`, in flight or ended as one. */
  ghost predicate Answered<V>(s: State<V>) {
    forall id :: id in s.offers ==>
      && (id in s.calls || id in s.results)
      && (id in s.calls ==> s.calls[id].Set?)
      && (id in s.results ==> SetEnd(s.results[id]))
  }

  /** A call moves on, as a `set` if it is one, or ends, as a `set` does if it is one. */
  ghost predicate MovesOn<V>(s: State<V>, s': State<V>, id: nat) {
    && s'.offers == s.offers && id in s.calls
    && (|| (s'.calls == s.calls && s'.results == s.results)
        || (id in s'.calls && s'.calls == s.calls[id := s'.calls[id]] && s'.results == s.results
            && (id in s.offers ==> s'.calls[id].Set?))
        || (id in s'.results && s'.calls == s.calls - {id} && s'.results == s.results[id := s'.results[id]]
            && (id in s.offers ==> SetEnd(s'.results[id]))))
  }

  lemma MovesAnswered<V>(s: State<V>, s': State<V>, id: nat)
    requires Answered(s) && MovesOn(s, s', id)
    ensures Answered(s')
  {
  }

  lemma AfterInitMoves<V>(s: State<V>, id: nat, setter: bool, c: Core<nat, V>, p: Progress)
    requires id in s.calls && id !in s.offers
    ensures MovesOn(s, AfterInit(s, id, setter, c, p), id)
  {
  }

  lemma AfterSetMoves<V>(s: State<V>, id: nat, v: V, c: Core<nat, V>, p: Progress)
    requires id in s.calls
    ensures MovesOn(s, AfterSet(s, id, v, c, p), id)
  {
  }

  lemma PollMoves<V>(s: State<V>, id: nat, w: Waker)
    requires Answered(s) && id in s.calls
    ensures MovesOn(s, Step(s, Poll(id, w)), id)
  {
    match s.calls[id]
    case Init(at, setter) =>
      var (c, p) := PollInit(s.core, id, at, w);
      AfterInitMoves(s, id, setter, c, p);
    case Writing =>
    case Set(at, None) =>
    case Set(at, Some(v)) =>
      var (c, p) := PollSet(s.core, id, at, w, v);
      AfterSetMoves(s, id, v, c, p);
    case Wait(at) =>
      var (c, done) := PollWait(s.core, id, at, w);
      assert Step(s, Poll(id, w)) == if done then Finish(s.(core := c), id, Waited)
                                     else s.(core := c, calls := s.calls[id := Wait(Await)]);
  }

  lemma StartAnswered<V>(s: State<V>, id: nat, v: V)
    requires Answered(s)
    ensures Answered(Step(s, StartInit(id))) && Answered(Step(s, StartSet(id, v))) && Answered(Step(s, StartWait(id)))
  {
  }

  lemma PollAnswered<V>(s: State<V>, id: nat, w: Waker)
    requires Answered(s)
    ensures Answered(Step(s, Poll(id, w)))
  {
    if id in s.calls {
      PollMoves(s, id, w);
      MovesAnswered(s, Step(s, Poll(id, w)), id);
    }
  }

  lemma SetterAnswered<V>(s: State<V>, id: nat, v: V)
    requires Answered(s)
    ensures Answered(Step(s, SetterOk(id, v))) && Answered(Step(s, SetterErr(id)))
  {
    if id in s.calls && s.calls[id].Writing? {
      assert id !in s.offers;
      MovesAnswered(s, Step(s, SetterOk(id, v)), id);
      MovesAnswered(s, Step(s, SetterErr(id)), id);
    }
  }

  lemma CancelAnswered<V>(s: State<V>, id: nat)
    requires Answered(s)
    ensures Answered(Step(s, Cancel(id)))
  {
    if id in s.calls {
      MovesAnswered(s, Step(s, Cancel(id)), id);
    }
  }

  lemma StepAnswered<V>(s: State<V>, a: Action<V>)
    requires Answered(s)
    ensures Answered(Step(s, a))
  {
    match a
    case StartInit(id) => assert Answered(Step(s, StartInit(id)));
    case StartSet(id, v) => StartAnswered(s, id, v);
    case StartWait(id) => assert Answered(Step(s, StartWait(id)));
    case Poll(id, w) => PollAnswered(s, id, w);
    case SetterOk(id, v) => SetterAnswered(s, id, v);
    case SetterErr(id) =>
      if id in s.calls && s.calls[id].Writing? {
        assert id !in s.offers;
        MovesAnswered(s, Step(s, SetterErr(id)), id);
      }
    case Cancel(id) => CancelAnswered(s, id);
  }

  lemma {:induction false} RunAnswers<V>(s: State<V>, acts: seq<Action<V>>)
    requires Answered(s)
    ensures Answered(Run(s, acts))
    decreases |acts|
  {
    if |acts| > 0 {
      StepAnswered(s, acts[0]);
      RunAnswers(Step(s, acts[0]), acts[1..]);
    }
  }

  /** `set` linearises: of all the calls at most one returns `Ok`, and the cell then holds its
      value; every other one that returns gets its own value back, and a `set` returns nothing else
      (or is cancelled). The calls that initialise and return a value agree with the cell. */
  lemma SetLinearises<V>(acts: seq<Action<V>>)
    ensures var s := Run(Start0<V>(), acts);
            && !s.panicked
            && (forall a, b :: a in s.results && b in s.results && s.results[a].SetOk? && s.results[b].SetOk? ==> a == b)
            && (forall id :: id in s.results && s.results[id].SetOk? ==>
                  id in s.offers && s.core.data == Some(s.offers[id]))
            && (forall id :: id in s.results && s.results[id].SetErr? ==>
                  id in s.offers && s.results[id].v == s.offers[id] && s.core.data.Some?)
            && (forall id :: id in s.offers && id in s.results ==> SetEnd(s.results[id]))
            && (forall id :: id in s.results && s.results[id].Got? ==> s.core.data == Some(s.results[id].v))
  {
    RunKeeps(Start0<V>(), acts);
    RunAnswers(Start0<V>(), acts);
  }

  // ----- the wakers

  /** The waker of each call's latest poll. */
  function Later<V>(s: State<V>, latest: map<nat, Waker>, a: Action<V>): map<nat, Waker> {
    if a.Poll? && a.id in s.calls then latest[a.id := a.w] else latest
  }

  function Latest<V>(s: State<V>, latest: map<nat, Waker>, acts: seq<Action<V>>): map<nat, Waker>
    decreases |acts|
  {
    if |acts| == 0 then latest else Latest(Step(s, acts[0]), Later(s, latest, acts[0]), acts[1..])
  }

  ghost predicate AlertCore<V>(c: Core<nat, V>, latest: map<nat, Waker>) {
    Alert(c.active, latest) && Alert(c.passive, latest)
  }

  ghost predicate TendedCore<V>(c: Core<nat, V>, c': Core<nat, V>, latest: map<nat, Waker>) {
    Tended(c.active, c'.active, latest) && Tended(c.passive, c'.passive, latest)
  }

  lemma AsleepCore<V>(c: Core<nat, V>, latest: map<nat, Waker>)
    requires Wf(c.active) && Wf(c.passive) && AlertCore(c, latest)
    ensures TendedCore(c, c, latest)
  {
    Asleep(c.active, c.active, latest);
    Asleep(c.passive, c.passive, latest);
  }

  lemma UnwriteTends<V>(c: Core<nat, V>, latest: map<nat, Waker>)
    requires Wf(c.active) && Wf(c.passive) && AlertCore(c, latest)
    ensures TendedCore(c, Unwrite(c), latest)
  {
    NotifyTended(c.active, ONE, latest);
    Asleep(c.passive, c.passive, latest);
  }

  lemma StoreTends<V>(c: Core<nat, V>, v: V, latest: map<nat, Waker>)
    requires Wf(c.active) && Wf(c.passive) && AlertCore(c, latest)
    requires |Order(c.active)| <= USIZE_MAX && |Order(c.passive)| <= USIZE_MAX
    ensures TendedCore(c, Store(c, v), latest)
  {
    NotifyTended(c.active, EVERYONE, latest);
    NotifyTended(c.passive, EVERYONE, latest);
    NotifyEveryone(c.active, EVERYONE);
    var e := Notify(c.active, EVERYONE);
    assert Notify(e, ONE) == e;
  }

  /** The poll of an initialiser; one that goes on to write leaves the waiting calls as they are. */
  lemma InitTends<V>(c: Core<nat, V>, id: nat, at: Point, w: Waker, latest: map<nat, Waker>)
    requires Ready(c) && Alert(c.active, latest) && (at == Await <==> id in Order(c.active))
    ensures var (c', p) := PollInit(c, id, at, w);
            && Wf(c'.active) && Tended(c.active, c'.active, latest[id := w]) && c'.passive == c.passive
            && (p == Writes ==> c'.active.waiting == c.active.waiting && c'.active.woken == c.active.woken)
  {
    InitCore(c, id, at, w);
    LoopTended(c.active, id, w, latest);
    PollTended(c.active, id, w, latest);
    Members(c.active);
  }

  lemma WaitTends<V>(c: Core<nat, V>, id: nat, at: Point, w: Waker, latest: map<nat, Waker>)
    requires Ready(c) && Alert(c.passive, latest) && (at == Await <==> id in Order(c.passive))
    ensures var (c', _) := PollWait(c, id, at, w);
            c'.active == c.active && Tended(c.passive, c'.passive, latest[id := w])
  {
    LoopTended(c.passive, id, w, latest);
    Members(c.passive);
  }

  /** A poll by a call that is not in the list changes nothing for those that are. */
  lemma StaysAlert(e: EventState<nat, ()>, latest: map<nat, Waker>, id: nat, w: Waker)
    requires Wf(e) && Alert(e, latest) && id !in Order(e)
    ensures Tended(e, e, latest[id := w])
  {
    LoopTended(e, id, w, latest);
  }

  lemma InitPollTends<V>(s: State<V>, id: nat, w: Waker, latest: map<nat, Waker>)
    requires Listed(s) && Rousing(s.core) && AlertCore(s.core, latest) && id in s.calls && s.calls[id].Init?
    ensures TendedCore(s.core, Step(s, Poll(id, w)).core, latest[id := w])
  {
    InitTends(s.core, id, s.calls[id].at, w, latest);
    InitCore(s.core, id, s.calls[id].at, w);
    StaysAlert(s.core.passive, latest, id, w);
  }

  lemma SetTends<V>(c: Core<nat, V>, id: nat, at: Point, w: Waker, v: V, latest: map<nat, Waker>)
    requires Ready(c) && AlertCore(c, latest) && (at == Await <==> id in Order(c.active)) && id !in Order(c.passive)
    requires var c1 := PollInit(c, id, at, w).0; |Order(c1.active)| <= USIZE_MAX && |Order(c1.passive)| <= USIZE_MAX
    ensures TendedCore(c, PollSet(c, id, at, w, v).0, latest[id := w])
  {
    var (c1, p) := PollInit(c, id, at, w);
    InitTends(c, id, at, w, latest);
    StaysAlert(c.passive, latest, id, w);
    if p.Writes? {
      StoreAfterTends(c, c1, v, latest[id := w]);
    }
  }

  lemma SetPollTends<V>(s: State<V>, id: nat, w: Waker, latest: map<nat, Waker>)
    requires Listed(s) && Rousing(s.core) && AlertCore(s.core, latest) && id in s.calls && s.calls[id].Set? && s.calls[id].value.Some?
    ensures TendedCore(s.core, Step(s, Poll(id, w)).core, latest[id := w])
  {
    var at, v := s.calls[id].at, s.calls[id].value.value;
    InitCore(s.core, id, at, w);
    Fits(s);
    InitFits(s, PollInit(s.core, id, at, w).0, id);
    SetTends(s.core, id, at, w, v, latest);
    var (c, p) := PollSet(s.core, id, at, w, v);
    assert Step(s, Poll(id, w)) == AfterSet(s, id, v, c, p);
  }

  /** There are no more calls in the list than in flight. */
  lemma InitFits<V>(s: State<V>, c: Core<nat, V>, id: nat)
    requires Listed(s) && id in s.calls && Wf(c.active) && c.passive == s.core.passive
    requires forall x :: x in Order(c.active) ==> x in Order(s.core.active) || x == id
    ensures |Order(c.active)| <= USIZE_MAX && |Order(c.passive)| <= USIZE_MAX
  {
    DistinctFits(Order(c.active), s.calls.Keys);
    DistinctFits(Order(c.passive), s.calls.Keys);
  }

  lemma StoreAfterTends<V>(c: Core<nat, V>, c1: Core<nat, V>, v: V, latest: map<nat, Waker>)
    requires Wf(c1.active) && Wf(c1.passive) && AlertCore(c1, latest)
    requires |Order(c1.active)| <= USIZE_MAX && |Order(c1.passive)| <= USIZE_MAX
    requires c1.passive == c.passive
    requires c1.active.waiting == c.active.waiting && c1.active.woken == c.active.woken
    ensures TendedCore(c, Store(c1, v), latest)
  {
    StoreTends(c1, v, latest);
  }

  lemma WaitPollTends<V>(s: State<V>, id: nat, w: Waker, latest: map<nat, Waker>)
    requires Listed(s) && Rousing(s.core) && AlertCore(s.core, latest) && id in s.calls && s.calls[id].Wait?
    ensures TendedCore(s.core, Step(s, Poll(id, w)).core, latest[id := w])
  {
    WaitTends(s.core, id, s.calls[id].at, w, latest);
    StaysAlert(s.core.active, latest, id, w);
  }

  lemma PollTends<V>(s: State<V>, id: nat, w: Waker, latest: map<nat, Waker>)
    requires Inv(s) && AlertCore(s.core, latest) && id in s.calls
    ensures TendedCore(s.core, Step(s, Poll(id, w)).core, latest[id := w])
  {
    match s.calls[id]
    case Init(_, _) => InitPollTends(s, id, w, latest);
    case Set(_, _) => SetPollTends(s, id, w, latest);
    case Wait(_) => WaitPollTends(s, id, w, latest);
    case Writing =>
      StaysAlert(s.core.active, latest, id, w);
      StaysAlert(s.core.passive, latest, id, w);
  }

  lemma SettersTend<V>(s: State<V>, id: nat, v: V, latest: map<nat, Waker>)
    requires Inv(s) && AlertCore(s.core, latest)
    ensures TendedCore(s.core, Step(s, SetterOk(id, v)).core, latest)
    ensures TendedCore(s.core, Step(s, SetterErr(id)).core, latest)
  {
    Fits(s);
    AsleepCore(s.core, latest);
    StoreTends(s.core, v, latest);
    UnwriteTends(s.core, latest);
  }

  lemma CancelTends<V>(s: State<V>, id: nat, latest: map<nat, Waker>)
    requires Inv(s) && AlertCore(s.core, latest)
    ensures TendedCore(s.core, Step(s, Cancel(id)).core, latest)
  {
    AsleepCore(s.core, latest);
    if id in s.calls {
      match s.calls[id]
      case Writing => UnwriteTends(s.core, latest);
      case Wait(_) => DropTended(s.core.passive, id, latest);
      case _ => DropTended(s.core.active, id, latest);
    }
  }

  lemma StepTends<V>(s: State<V>, a: Action<V>, latest: map<nat, Waker>)
    requires Inv(s) && AlertCore(s.core, latest)
    ensures TendedCore(s.core, Step(s, a).core, Later(s, latest, a))
  {
    AsleepCore(s.core, latest);
    match a
    case StartInit(id) => assert Step(s, StartInit(id)).core == s.core;
    case StartSet(id, v) => assert Step(s, StartSet(id, v)).core == s.core;
    case StartWait(id) => assert Step(s, StartWait(id)).core == s.core;
    case Poll(id, w) => if id in s.calls { PollTends(s, id, w, latest); }
    case SetterOk(id, v) => SettersTend(s, id, v, latest);
    case SetterErr(id) =>
      UnwriteTends(s.core, latest);
      assert Step(s, SetterErr(id)).core == s.core || Step(s, SetterErr(id)).core == Unwrite(s.core);
    case Cancel(id) => CancelTends(s, id, latest);
  }

  lemma {:induction false} RunTends<V>(s: State<V>, latest: map<nat, Waker>, acts: seq<Action<V>>)
    requires Inv(s) && AlertCore(s.core, latest)
    ensures AlertCore(Run(s, acts).core, Latest(s, latest, acts))
    decreases |acts|
  {
    if |acts| > 0 {
      StepKeeps(s, acts[0]);
      StepTends(s, acts[0], latest);
      RunTends(Step(s, acts[0]), Later(s, latest, acts[0]), acts[1..]);
    }
  }

  /** In every run a call that waits on either event holds a waker like that of its latest poll, and
      what an action wakes are the calls it newly notifies, each by its own such waker. */
  lemma WakesExactly<V>(acts: seq<Action<V>>, a: Action<V>)
    ensures var s, latest := Run(Start0<V>(), acts), Latest(Start0<V>(), map[], acts);
            var c, c', later := s.core, Step(s, a).core, Later(s, latest, a);
            && Alert(c.active, latest) && Alert(c.passive, latest)
            && Called(c.active, c'.active, later) && Called(c.passive, c'.passive, later)
  {
    RunKeeps(Start0<V>(), acts);
    RunTends(Start0<V>(), map[], acts);
    StepTends(Run(Start0<V>(), acts), a, Latest(Start0<V>(), map[], acts));
  }
}

/** The cell as the source has it, over two linked lists. */
module OnceCellObject {
  import opened Prelude
  import opened EventModel
  import EventList
  import M = OnceCellModel

  class OnceCell<V> {
    const active: EventList.Event<()>
    const passive: EventList.Event<()>
    var writing: bool
    var data: Option<V>

    ghost predicate Valid()
      reads this, active, passive, active.listeners, passive.listeners
    {
      && active != passive && active.listeners !! passive.listeners
      && active.Valid() && passive.Valid()
    }

    ghost function Core(): M.Core<EventList.Listener<()>, V>
      reads this, active, passive
    {
      M.Core(active.model, passive.model, writing, data)
    }

    ghost predicate SameListeners(a: set<EventList.Listener<()>>, p: set<EventList.Listener<()>>)
      reads active, passive
    {
      active.listeners == a && passive.listeners == p
    }

    constructor ()
      ensures Valid() && Core() == M.Core(Empty(), Empty(), false, None)
    {
      active := new EventList.Event<()>();
      passive := new EventList.Event<()>();
      writing, data := false, None;
    }

    /** Poll listener `l` of `active`; a ready one is out of the list. */
    method AwaitActive(l: EventList.Listener<()>, w: Waker) returns (r: Poll<()>)
      requires Valid() && l in active.listeners
      modifies this, active, active.listeners
      ensures Valid() && SameListeners(old(active.listeners), old(passive.listeners))
      ensures Core() == old(Core()).(active := PollListener(old(active.model), l, w).0)
      ensures r == PollListener(old(active.model), l, w).1
      ensures r.Ready? <==> IsNotified(old(active.model), l)
      ensures r.Ready? ==> !IsNotified(active.model, l)
    {
      active.Tidy(l, w);
      r := active.Poll(l, w);
    }

    method AwaitPassive(l: EventList.Listener<()>, w: Waker) returns (r: Poll<()>)
      requires Valid() && l in passive.listeners
      modifies this, passive, passive.listeners
      ensures Valid() && SameListeners(old(active.listeners), old(passive.listeners))
      ensures Core() == old(Core()).(passive := PollListener(old(passive.model), l, w).0)
      ensures r == PollListener(old(passive.model), l, w).1
      ensures r.Ready? <==> IsNotified(old(passive.model), l)
      ensures r.Ready? ==> !IsNotified(passive.model, l)
    {
      passive.Tidy(l, w);
      r := passive.Poll(l, w);
    }

    /** One poll of `get_or_try_init` before its setter runs, with listener `l` of `active`. */
    method PollInit(l: EventList.Listener<()>, at: Point, w: Waker) returns (p: M.Progress)
      requires Valid() && l in active.listeners && (at == Start ==> !l.inList)
      modifies this, active, active.listeners
      ensures Valid() && SameListeners(old(active.listeners), old(passive.listeners))
      ensures (Core(), p) == M.PollInit(old(Core()), l, at, w)
    {
      var here := at;
      active.Tidy(l, w);
      while true
        invariant Valid() && SameListeners(old(active.listeners), old(passive.listeners))
        invariant here == Await ==> at == Await && Core() == old(Core())
        invariant here == Start ==> !IsNotified(active.model, l) && M.PollInit(old(Core()), l, at, w) == M.Try(Core(), l, w)
        decreases here == Await
      {
        if here == Start {
          if data.Some? {
            return M.Gets;
          }
          var busy := writing;
          writing := true;
          if !busy {
            return M.Writes;
          }
        }
        var r := AwaitActive(l, w);
        if r.Pending? {
          return M.Sleeps;
        }
        here := Start;
      }
    }

    /** The write guard is dropped. */
    method Unwrite()
      requires Valid()
      modifies this, active, active.listeners
      ensures Valid() && SameListeners(old(active.listeners), old(passive.listeners))
      ensures Core() == M.Unwrite(old(Core()))
    {
      writing := false;
      var n, rest := active.Notify(M.ONE);
    }

    /** The setter returned `v`. */
    method Store(v: V)
      requires Valid()
      modifies this, active, passive, active.listeners, passive.listeners
      ensures Valid() && SameListeners(old(active.listeners), old(passive.listeners))
      ensures Core() == M.Store(old(Core()), v)
    {
      data := Some(v);
      var n, rest := passive.Notify(M.EVERYONE);
      n, rest := active.Notify(M.EVERYONE);
      Unwrite();
    }

    /** One poll of `set(v)`. */
    method PollSet(l: EventList.Listener<()>, at: Point, w: Waker, v: V) returns (p: M.Progress)
      requires Valid() && l in active.listeners && (at == Start ==> !l.inList)
      modifies this, active, passive, active.listeners, passive.listeners
      ensures Valid() && SameListeners(old(active.listeners), old(passive.listeners))
      ensures (Core(), p) == M.PollSet(old(Core()), l, at, w, v)
    {
      p := PollInit(l, at, w);
      if p == M.Writes {
        Store(v);
      }
    }

    /** One poll of `wait`, with listener `l` of `passive`. */
    method PollWait(l: EventList.Listener<()>, at: Point, w: Waker) returns (done: bool)
      requires Valid() && l in passive.listeners && (at == Start ==> !l.inList)
      modifies this, passive, passive.listeners
      ensures Valid() && SameListeners(old(active.listeners), old(passive.listeners))
      ensures (Core(), done) == M.PollWait(old(Core()), l, at, w)
    {
      var suspended := at == Await;
      passive.Tidy(l, w);
      while suspended || data.None?
        invariant Valid() && SameListeners(old(active.listeners), old(passive.listeners))
        invariant suspended ==> at == Await && Core() == old(Core())
        invariant !suspended ==> !IsNotified(passive.model, l) && M.PollWait(old(Core()), l, at, w) == M.Check(Core(), l, w)
        decreases suspended
      {
        var r := AwaitPassive(l, w);
        if r.Pending? {
          return false;
        }
        suspended := false;
      }
      return true;
    }

    /** A sleeping `get_or_try_init` or `set` is dropped; a writing one drops its guard instead. */
    method CancelInit(l: EventList.Listener<()>)
      requires Valid() && l in active.listeners
      modifies this, active, active.listeners
      ensures Valid() && SameListeners(old(active.listeners), old(passive.listeners))
      ensures Core() == old(Core()).(active := DropListener(old(active.model), l))
    {
      active.Drop(l);
    }

    method CancelWait(l: EventList.Listener<()>)
      requires Valid() && l in passive.listeners
      modifies this, passive, passive.listeners
      ensures Valid() && SameListeners(old(active.listeners), old(passive.listeners))
      ensures Core() == old(Core()).(passive := DropListener(old(passive.model), l))
    {
      passive.Drop(l);
    }
  }
}
