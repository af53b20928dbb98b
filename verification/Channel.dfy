/** `src/channel.rs`: a queue of items, and one event whose tags carry items past the queue. */
module ChannelModel {
  import opened Prelude
  import opened Notifications
  import opened EventModel
  import opened EventWakes
  import opened HeldItems

  datatype Core<Id, X> = Core(
    data: seq<X>, closed: bool, senders: nat, receivers: nat, event: EventState<Id, Option<X>>)

  datatype Received<X> = Item(item: X) | Empty | Closed

  /** What a poll of `recv` comes to. */
  datatype Progress<X> = Sleeps | Returns(r: Received<X>)

  /** `Sender::send`; was it accepted? */
  function Send<Id, X>(c: Core<Id, X>, item: X): (Core<Id, X>, bool) {
    if c.closed then (c, false)
    else
      var c1 := c.(event := Notify(c.event, Handing(item)));
      if Growth(c.event, Handing(item)) > 0 then (c1, true) else (c1.(data := c.data + [item]), true)
  }

  function Close<Id, X>(c: Core<Id, X>): Core<Id, X> {
    c.(closed := true, event := Notify(c.event, Bare<X>(USIZE_MAX)))
  }

  function DropSender<Id, X>(c: Core<Id, X>): Core<Id, X>
    requires c.senders > 0
  {
    var c1 := c.(senders := c.senders - 1);
    if c1.senders == 0 then Close(c1) else c1
  }

  function DropReceiver<Id, X>(c: Core<Id, X>): Core<Id, X>
    requires c.receivers > 0
  {
    var c1 := c.(receivers := c.receivers - 1);
    if c1.receivers == 0 then Close(c1) else c1
  }

  /** `Receiver::try_recv`. */
  function TryRecv<Id, X>(c: Core<Id, X>): (Core<Id, X>, Received<X>) {
    if |c.data| > 0 then (c.(data := c.data[1..]), Item(c.data[0]))
    else (c, if c.closed then Closed else Empty)
  }

  /** The loop of `recv` from its top, the listener not in the list, to the next `.await`. */
  function Retry<Id(==), X>(c: Core<Id, X>, id: Id, w: Waker): (Core<Id, X>, Progress<X>) {
    var (c', r) := TryRecv(c);
    if r != Empty then (c', Returns(r)) else (c.(event := PollListener(c.event, id, w).0), Sleeps)
  }

  function PollRecv<Id(==), X>(c: Core<Id, X>, id: Id, at: Point, w: Waker): (Core<Id, X>, Progress<X>) {
    if at == Start then Retry(c, id, w)
    else
      var (e, r) := PollListener(c.event, id, w);
      var c1 := c.(event := e);
      if r.Pending? then (c1, Sleeps)
      else if r.value.Some? then (c1, Returns(Item(r.value.value)))
      else Retry(c1, id, w)
  }

  function CancelRecv<Id(==), X>(c: Core<Id, X>, id: Id): Core<Id, X> {
    c.(event := DropListener(c.event, id))
  }

  // ----- every run

  /** `sent` logs the accepted items, `delivered` those a receive returned, `lost` those that were
      dropped inside a tag. */
  datatype State<X> = State(
    core: Core<nat, X>, calls: map<nat, Point>, sent: seq<X>, delivered: seq<X>, lost: seq<X>)

  datatype Action<X> =
    | SendItem(item: X)
    | TryRecvNow
    | StartRecv(id: nat)
    | PollCall(id: nat, w: Waker)
    | CancelCall(id: nat)
    | CloneSender
    | CloneReceiver
    | LoseSender
    | LoseReceiver

  function Init<X>(): State<X> { State(Core([], false, 1, 1, EventModel.Empty()), map[], [], [], []) }

  function Log<X>(r: Received<X>): seq<X> { if r.Item? then [r.item] else [] }

  function After<X>(s: State<X>, id: nat, c: Core<nat, X>, p: Progress<X>): State<X> {
    if p.Sleeps? then s.(core := c, calls := s.calls[id := Await])
    else s.(core := c, delivered := s.delivered + Log(p.r))
  }

  /** One action; one that is not possible changes nothing. Handles are needed to send, to clone and
      to start a receive. (That a `recv` in flight keeps its receiver alive is not used.) */
  function Step<X>(s: State<X>, a: Action<X>): State<X> {
    match a
    case SendItem(item) =>
      if s.core.senders == 0 then s
      else
        var (c, ok) := Send(s.core, item);
        if ok then s.(core := c, sent := s.sent + [item]) else s
    case TryRecvNow =>
      if s.core.receivers == 0 then s
      else var (c, r) := TryRecv(s.core); s.(core := c, delivered := s.delivered + Log(r))
    case StartRecv(id) =>
      if s.core.receivers == 0 || id in s.calls || |s.calls| + 1 >= USIZE_MAX then s
      else s.(calls := s.calls[id := Start])
    case PollCall(id, w) =>
      if id !in s.calls then s
      else
        var (c, p) := PollRecv(s.core, id, s.calls[id], w);
        After(s.(calls := s.calls - {id}), id, c, p)
    case CancelCall(id) =>
      if id !in s.calls then s
      else s.(core := CancelRecv(s.core, id), calls := s.calls - {id}, lost := s.lost + LostBy(s.core.event, id))
    case CloneSender =>
      if s.core.senders == 0 then s else s.(core := s.core.(senders := s.core.senders + 1))
    case CloneReceiver =>
      if s.core.receivers == 0 then s else s.(core := s.core.(receivers := s.core.receivers + 1))
    case LoseSender => if s.core.senders == 0 then s else s.(core := DropSender(s.core))
    case LoseReceiver => if s.core.receivers == 0 then s else s.(core := DropReceiver(s.core))
  }

  function Run<X>(s: State<X>, acts: seq<Action<X>>): State<X>
    decreases |acts|
  {
    if |acts| == 0 then s else Run(Step(s, acts[0]), acts[1..])
  }

  function Queue<X>(s: State<X>): seq<nat> { Order(s.core.event) }

  function Carried<X>(s: State<X>): seq<X> { Held(s.core.event.notified) }

  /** What is still to be delivered: queued, or in a tag. */
  ghost function Outstanding<X>(c: Core<nat, X>): multiset<X> { multiset(c.data) + multiset(Held(c.event.notified)) }

  ghost predicate Conserved<X>(s: State<X>) {
    multiset(s.sent) == multiset(s.delivered) + Outstanding(s.core) + multiset(s.lost)
  }

  ghost predicate Listed<X>(s: State<X>) {
    && Wf(s.core.event) && |s.calls| < USIZE_MAX
    && (forall id :: id in Queue(s) <==> id in s.calls && s.calls[id] == Await)
  }

  predicate Gated<X>(c: Core<nat, X>) {
    && (c.closed <==> c.senders == 0 || c.receivers == 0)
    && (if c.closed then |c.event.waiting| == 0 else |c.event.notified| <= 1)
  }

  ghost predicate Inv<X>(s: State<X>) { Conserved(s) && Listed(s) && Gated(s.core) }

  lemma CloseOutstanding<X>(c: Core<nat, X>)
    ensures Outstanding(Close(c)) == Outstanding(c)
  {
    BareHolds(c.event, USIZE_MAX);
    assert Close(c).data == c.data && Held(Close(c).event.notified) == Held(c.event.notified);
  }

  lemma DropOutstanding<X>(c: Core<nat, X>)
    ensures c.senders > 0 ==> Outstanding(DropSender(c)) == Outstanding(c)
    ensures c.receivers > 0 ==> Outstanding(DropReceiver(c)) == Outstanding(c)
  {
    if c.senders == 1 {
      CloseOutstanding(c.(senders := 0));
    }
    if c.receivers == 1 {
      CloseOutstanding(c.(receivers := 0));
    }
  }

  lemma CloseListed<X>(s: State<X>, a: Action<X>)
    requires Listed(s) && Gated(s.core) && (a.LoseSender? || a.LoseReceiver?)
    ensures Listed(Step(s, a)) && Gated(Step(s, a).core)
  {
    DistinctFits(Queue(s), s.calls.Keys);
    NotifyEveryone(s.core.event, Bare<X>(USIZE_MAX));
  }

  lemma HandOutstanding<X>(c: Core<nat, X>, item: X)
    requires |c.event.waiting| > 0
    ensures Outstanding(c.(event := NotifyFirst(c.event, Some(item), false))) == Outstanding(c) + multiset([item])
  {
    NotifyFirstHolds(c.event, Some(item), false);
  }

  lemma QueueOutstanding<X>(c: Core<nat, X>, item: X)
    ensures Outstanding(c.(data := c.data + [item])) == Outstanding(c) + multiset([item])
  {
  }

  lemma SendIs<X>(c: Core<nat, X>, item: X)
    requires !c.closed
    ensures Send(c, item) == (if |c.event.notified| == 0 && |c.event.waiting| > 0
                              then c.(event := NotifyFirst(c.event, Some(item), false))
                              else c.(data := c.data + [item]), true)
  {
    HandingNotifies(c.event, item);
  }

  lemma SendOutstanding<X>(c: Core<nat, X>, item: X)
    requires !c.closed
    ensures Outstanding(Send(c, item).0) == Outstanding(c) + multiset([item])
  {
    SendIs(c, item);
    if |c.event.notified| == 0 && |c.event.waiting| > 0 {
      HandOutstanding(c, item);
    } else {
      QueueOutstanding(c, item);
    }
  }

  lemma SendConserved<X>(s: State<X>, item: X)
    requires Conserved(s)
    ensures Conserved(Step(s, SendItem(item)))
  {
    if s.core.senders > 0 && !s.core.closed {
      SendOutstanding(s.core, item);
      AddConserved(s, Step(s, SendItem(item)), item);
    }
  }

  lemma AddConserved<X>(s: State<X>, s': State<X>, item: X)
    requires Conserved(s) && Outstanding(s'.core) == Outstanding(s.core) + multiset([item])
    requires s'.sent == s.sent + [item] && s'.delivered == s.delivered && s'.lost == s.lost
    ensures Conserved(s')
  {
    assert multiset(s'.sent) == multiset(s.sent) + multiset([item]);
  }

  lemma SendListed<X>(s: State<X>, item: X)
    requires Listed(s) && Gated(s.core)
    ensures Listed(Step(s, SendItem(item))) && Gated(Step(s, SendItem(item)).core)
  {
    NotifyFacts(s.core.event, Handing(item));
  }

  ghost predicate Balanced<X>(c: Core<nat, X>, c': Core<nat, X>, p: Progress<X>) {
    Outstanding(c) == Outstanding(c') + multiset(if p.Sleeps? then [] else Log(p.r))
  }

  ghost predicate Progressed<X>(c: Core<nat, X>, id: nat, c': Core<nat, X>, p: Progress<X>) {
    && Wf(c'.event) && Gated(c')
    && (if p.Sleeps? then Plus(Order(c'.event), Order(c.event), id) else Minus(Order(c'.event), Order(c.event), id))
  }

  lemma RetryBalanced<X>(c: Core<nat, X>, id: nat, w: Waker)
    requires !IsNotified(c.event, id)
    ensures var (c', p) := Retry(c, id, w); Balanced(c, c', p)
  {
    if |c.data| > 0 {
      MultisetHead(c.data);
    } else {
      PollSleeps(c.event, id, w);
    }
  }

  lemma RetryProgressed<X>(c: Core<nat, X>, id: nat, w: Waker)
    requires Wf(c.event) && Gated(c) && id !in Order(c.event)
    ensures var (c', p) := Retry(c, id, w); Progressed(c, id, c', p)
  {
    Members(c.event);
    if |c.data| == 0 && !c.closed {
      PollPending(c.event, id, w);
    }
  }

  lemma RecvBalanced<X>(c: Core<nat, X>, id: nat, at: Point, w: Waker)
    requires Wf(c.event) && (at == Await <==> id in Order(c.event))
    ensures var (c', p) := PollRecv(c, id, at, w); Balanced(c, c', p)
  {
    Members(c.event);
    if at == Start {
      RetryBalanced(c, id, w);
    } else if IsNotified(c.event, id) {
      PollReady(c.event, id, w);
      PollHolds(c.event, id, w);
      var (e, r) := PollListener(c.event, id, w);
      Members(e);
      ReadyBalanced(c, c.(event := e), r.value, id, w);
    } else {
      PollSleeps(c.event, id, w);
    }
  }

  lemma ReadyBalanced<X>(c: Core<nat, X>, c1: Core<nat, X>, tag: Option<X>, id: nat, w: Waker)
    requires !IsNotified(c1.event, id) && c1.data == c.data
    requires multiset(Held(c.event.notified)) == multiset(Held(c1.event.notified)) + multiset(ItemOf(tag))
    ensures tag.Some? ==> Balanced(c, c1, Returns(Item(tag.value)))
    ensures tag.None? ==> var (c', p) := Retry(c1, id, w); Balanced(c, c', p)
  {
    if tag.None? {
      RetryBalanced(c1, id, w);
      assert Outstanding(c) == Outstanding(c1);
    }
  }

  lemma RecvProgressed<X>(c: Core<nat, X>, id: nat, at: Point, w: Waker)
    requires Wf(c.event) && Gated(c) && (at == Await <==> id in Order(c.event))
    ensures var (c', p) := PollRecv(c, id, at, w); Progressed(c, id, c', p)
  {
    Members(c.event);
    if at == Start {
      RetryProgressed(c, id, w);
    } else if IsNotified(c.event, id) {
      PollReady(c.event, id, w);
      RetryProgressed(c.(event := PollListener(c.event, id, w).0), id, w);
    } else {
      PollPending(c.event, id, w);
    }
  }

  lemma PollConserved<X>(s: State<X>, id: nat, w: Waker)
    requires Conserved(s) && id in s.calls
    requires var (c, p) := PollRecv(s.core, id, s.calls[id], w); Balanced(s.core, c, p)
    ensures Conserved(Step(s, PollCall(id, w)))
  {
    var (c, p) := PollRecv(s.core, id, s.calls[id], w);
    var s' := After(s.(calls := s.calls - {id}), id, c, p);
    assert Step(s, PollCall(id, w)) == s';
  }

  lemma PollListed<X>(s: State<X>, id: nat, w: Waker)
    requires Listed(s) && id in s.calls
    requires var (c, p) := PollRecv(s.core, id, s.calls[id], w); Progressed(s.core, id, c, p)
    ensures Listed(Step(s, PollCall(id, w)))
  {
    var others := s.calls - {id};
    assert |others| == |s.calls| - 1;
    assert |others[id := Await]| == |others| + 1;
  }

  lemma CancelOutstanding<X>(c: Core<nat, X>, id: nat)
    ensures Outstanding(c) == Outstanding(CancelRecv(c, id)) + multiset(LostBy(c.event, id))
  {
    DropHolds(c.event, id);
  }

  lemma LoseConserved<X>(s: State<X>, s': State<X>, lost: seq<X>)
    requires Conserved(s) && Outstanding(s.core) == Outstanding(s'.core) + multiset(lost)
    requires s'.sent == s.sent && s'.delivered == s.delivered && s'.lost == s.lost + lost
    ensures Conserved(s')
  {
    assert multiset(s'.lost) == multiset(s.lost) + multiset(lost);
  }

  lemma CancelConserved<X>(s: State<X>, id: nat)
    requires Conserved(s)
    ensures Conserved(Step(s, CancelCall(id)))
  {
    if id in s.calls {
      CancelOutstanding(s.core, id);
      LoseConserved(s, Step(s, CancelCall(id)), LostBy(s.core.event, id));
    }
  }

  lemma CancelListed<X>(s: State<X>, id: nat)
    requires Listed(s) && Gated(s.core)
    ensures Listed(Step(s, CancelCall(id))) && Gated(Step(s, CancelCall(id)).core)
  {
    if id in s.calls {
      assert |s.calls - {id}| == |s.calls| - 1;
      DropKeeps(s.core.event, id);
    }
  }

  lemma TryRecvConserved<X>(s: State<X>)
    requires Conserved(s)
    ensures Conserved(Step(s, TryRecvNow))
  {
    if s.core.receivers > 0 && |s.core.data| > 0 {
      var s' := s.(core := s.core.(data := s.core.data[1..]), delivered := s.delivered + [s.core.data[0]]);
      assert Step(s, TryRecvNow) == s';
      MultisetHead(s.core.data);
    } else {
      StillConserved(s, Step(s, TryRecvNow));
    }
  }

  lemma StillConserved<X>(s: State<X>, s': State<X>)
    requires Conserved(s) && s'.core.data == s.core.data && s'.core.event == s.core.event
    requires s'.sent == s.sent && s'.delivered == s.delivered && s'.lost == s.lost
    ensures Conserved(s')
  {
  }

  lemma StartConserved<X>(s: State<X>, id: nat)
    requires Conserved(s)
    ensures Conserved(Step(s, StartRecv(id)))
  {
    StillConserved(s, Step(s, StartRecv(id)));
  }

  lemma RecvConserved<X>(s: State<X>, id: nat, w: Waker)
    requires Conserved(s) && Listed(s)
    ensures Conserved(Step(s, PollCall(id, w)))
  {
    if id in s.calls {
      RecvBalanced(s.core, id, s.calls[id], w);
      PollConserved(s, id, w);
    }
  }

  lemma CloneConserved<X>(s: State<X>)
    requires Conserved(s)
    ensures Conserved(Step(s, CloneSender)) && Conserved(Step(s, CloneReceiver))
  {
    StillConserved(s, Step(s, CloneSender));
    StillConserved(s, Step(s, CloneReceiver));
  }

  lemma LoseSenderConserved<X>(s: State<X>)
    requires Conserved(s)
    ensures Conserved(Step(s, LoseSender))
  {
    if s.core.senders > 0 {
      DropOutstanding(s.core);
    }
  }

  lemma LoseReceiverConserved<X>(s: State<X>)
    requires Conserved(s)
    ensures Conserved(Step(s, LoseReceiver))
  {
    if s.core.receivers > 0 {
      DropOutstanding(s.core);
    }
  }

  lemma StepConserved<X>(s: State<X>, a: Action<X>)
    requires Conserved(s) && Listed(s)
    ensures Conserved(Step(s, a))
  {
    match a
    case SendItem(item) => SendConserved(s, item);
    case TryRecvNow => TryRecvConserved(s);
    case StartRecv(id) => StartConserved(s, id);
    case PollCall(id, w) => RecvConserved(s, id, w);
    case CancelCall(id) => CancelConserved(s, id);
    case CloneSender => CloneConserved(s);
    case CloneReceiver => CloneConserved(s);
    case LoseSender => LoseSenderConserved(s);
    case LoseReceiver => LoseReceiverConserved(s);
  }

  lemma SameListed<X>(s: State<X>, s': State<X>)
    requires Listed(s) && Gated(s.core) && s'.calls == s.calls
    requires s'.core.event == s.core.event && s'.core.closed == s.core.closed
    requires s'.core.senders == 0 <==> s.core.senders == 0
    requires s'.core.receivers == 0 <==> s.core.receivers == 0
    ensures Listed(s') && Gated(s'.core)
  {
  }

  lemma StartListed<X>(s: State<X>, id: nat)
    requires Listed(s) && Gated(s.core)
    ensures Listed(Step(s, StartRecv(id))) && Gated(Step(s, StartRecv(id)).core)
  {
    if id !in s.calls {
      assert |s.calls[id := Start]| == |s.calls| + 1;
    }
  }

  lemma RecvListed<X>(s: State<X>, id: nat, w: Waker)
    requires Listed(s) && Gated(s.core)
    ensures Listed(Step(s, PollCall(id, w))) && Gated(Step(s, PollCall(id, w)).core)
  {
    if id in s.calls {
      RecvProgressed(s.core, id, s.calls[id], w);
      PollListed(s, id, w);
    }
  }

  lemma StepListed<X>(s: State<X>, a: Action<X>)
    requires Listed(s) && Gated(s.core)
    ensures Listed(Step(s, a)) && Gated(Step(s, a).core)
  {
    match a
    case SendItem(item) => SendListed(s, item);
    case TryRecvNow => SameListed(s, Step(s, TryRecvNow));
    case StartRecv(id) => StartListed(s, id);
    case PollCall(id, w) => RecvListed(s, id, w);
    case CancelCall(id) => CancelListed(s, id);
    case CloneSender => SameListed(s, Step(s, CloneSender));
    case CloneReceiver => SameListed(s, Step(s, CloneReceiver));
    case LoseSender => CloseListed(s, LoseSender);
    case LoseReceiver => CloseListed(s, LoseReceiver);
  }

  lemma {:induction false} RunKeeps<X>(s: State<X>, acts: seq<Action<X>>)
    requires Inv(s)
    ensures Inv(Run(s, acts))
    decreases |acts|
  {
    if |acts| > 0 {
      StepConserved(s, acts[0]);
      StepListed(s, acts[0]);
      RunKeeps(Step(s, acts[0]), acts[1..]);
    }
  }

  // ----- what holds in every run

  /** Every accepted item is in exactly one place: delivered, queued, in the tag of a notified
      receiver, or lost. While the channel is open at most one receiver is notified. */
  lemma ItemsAreConserved<X>(acts: seq<Action<X>>)
    ensures var s := Run(Init<X>(), acts);
            && multiset(s.sent) == multiset(s.delivered) + multiset(s.core.data) + multiset(Carried(s)) + multiset(s.lost)
            && (!s.core.closed ==> |s.core.event.notified| <= 1)
  {
    RunKeeps(Init<X>(), acts);
  }

  lemma OthersLoseNothing<X>(s: State<X>, a: Action<X>)
    requires !a.CancelCall?
    ensures Step(s, a).lost == s.lost
  {
  }

  lemma CancelLoses<X>(s: State<X>, id: nat)
    requires Listed(s) && Gated(s.core)
    ensures Step(s, CancelCall(id)).lost
         == s.lost + if |s.core.event.waiting| == 0 then ItemOf(TagOf(s.core.event, id)) else []
  {
    LossExactly(s.core.event, id);
    Members(s.core.event);
  }

  /** An item is lost exactly when a `recv` that holds it is dropped and no un-notified receiver is
      in the list. */
  lemma LossesExactly<X>(acts: seq<Action<X>>, a: Action<X>)
    ensures var s := Run(Init<X>(), acts);
            var nobody := a.CancelCall? && |s.core.event.waiting| == 0;
            Step(s, a).lost == s.lost + (if nobody then ItemOf(TagOf(s.core.event, a.id)) else [])
  {
    RunKeeps(Init<X>(), acts);
    var s := Run(Init<X>(), acts);
    if a.CancelCall? {
      CancelLoses(s, a.id);
    } else {
      OthersLoseNothing(s, a);
    }
  }

  /** The channel is closed exactly when no sender or no receiver is left. From then on every
      listener is notified and every poll of a `recv` returns: an item as long as there is one. */
  lemma ClosedChannelDrains<X>(acts: seq<Action<X>>, id: nat, w: Waker)
    ensures var s := Run(Init<X>(), acts);
            && (s.core.closed <==> s.core.senders == 0 || s.core.receivers == 0)
            && (s.core.closed ==> |s.core.event.waiting| == 0)
            && (s.core.closed && id in s.calls ==>
                  var p := PollRecv(s.core, id, s.calls[id], w).1;
                  p.Returns? && p.r != Empty && (p.r == Closed ==> |s.core.data| == 0 && TagOf(s.core.event, id).None?))
  {
    RunKeeps(Init<X>(), acts);
    var s := Run(Init<X>(), acts);
    if s.core.closed && id in s.calls {
      ClosedRecv(s, id, w);
    }
  }

  lemma ClosedRecv<X>(s: State<X>, id: nat, w: Waker)
    requires Listed(s) && Gated(s.core) && s.core.closed && id in s.calls
    ensures var p := PollRecv(s.core, id, s.calls[id], w).1;
            p.Returns? && p.r != Empty && (p.r == Closed ==> |s.core.data| == 0 && TagOf(s.core.event, id).None?)
  {
    Members(s.core.event);
    if s.calls[id] == Await {
      PollReady(s.core.event, id, w);
    }
  }

  /** How many handles there are after the run if there were `n`, by the clones and drops alone; `sends`
      tells which kind is counted. Without a handle there is nothing to clone or drop. */
  function Handles<X>(n: nat, acts: seq<Action<X>>, sends: bool): nat
    decreases |acts|
  {
    if |acts| == 0 then n
    else if n > 0 && (if sends then acts[0].CloneSender? else acts[0].CloneReceiver?) then Handles(n + 1, acts[1..], sends)
    else if n > 0 && (if sends then acts[0].LoseSender? else acts[0].LoseReceiver?) then Handles(n - 1, acts[1..], sends)
    else Handles(n, acts[1..], sends)
  }

  lemma StepHandles<X>(s: State<X>, a: Action<X>)
    ensures Step(s, a).core.senders == Handles(s.core.senders, [a], true)
    ensures Step(s, a).core.receivers == Handles(s.core.receivers, [a], false)
  {
    assert [a][1..] == [];
  }

  lemma {:induction false} RunHandles<X>(s: State<X>, acts: seq<Action<X>>)
    ensures Run(s, acts).core.senders == Handles(s.core.senders, acts, true)
    ensures Run(s, acts).core.receivers == Handles(s.core.receivers, acts, false)
    decreases |acts|
  {
    if |acts| > 0 {
      StepHandles(s, acts[0]);
      assert [acts[0]][1..] == [];
      RunHandles(Step(s, acts[0]), acts[1..]);
    }
  }

  /** The channel counts its handles right, from the first pair on. */
  lemma HandlesAreCounted<X>(acts: seq<Action<X>>)
    ensures var s := Run(Init<X>(), acts);
            s.core.senders == Handles(1, acts, true) && s.core.receivers == Handles(1, acts, false)
  {
    RunHandles(Init<X>(), acts);
  }

  /** A closed channel stays closed, accepts nothing more, and nobody joins its list. */
  lemma ClosedForGood<X>(before: seq<Action<X>>, acts: seq<Action<X>>)
    requires Run(Init<X>(), before).core.closed
    ensures var s := Run(Init<X>(), before);
            && Run(s, acts).core.closed && Run(s, acts).sent == s.sent
            && forall id :: id in Queue(Run(s, acts)) ==> id in Queue(s)
  {
    RunKeeps(Init<X>(), before);
    ClosedFrom(Run(Init<X>(), before), acts);
  }

  lemma {:induction false} ClosedFrom<X>(s: State<X>, acts: seq<Action<X>>)
    requires Inv(s) && s.core.closed
    ensures Run(s, acts).core.closed && Run(s, acts).sent == s.sent
    ensures forall id :: id in Queue(Run(s, acts)) ==> id in Queue(s)
    decreases |acts|
  {
    if |acts| > 0 {
      StepConserved(s, acts[0]);
      StepListed(s, acts[0]);
      ClosedStep(s, acts[0]);
      ClosedFrom(Step(s, acts[0]), acts[1..]);
    }
  }

  lemma ClosedStep<X>(s: State<X>, a: Action<X>)
    requires Inv(s) && s.core.closed
    ensures Step(s, a).core.closed && Step(s, a).sent == s.sent
    ensures forall id :: id in Queue(Step(s, a)) ==> id in Queue(s)
  {
    var e := s.core.event;
    match a
    case PollCall(id, w) => if id in s.calls { ClosedPoll(s, id, w); }
    case CancelCall(id) => DropKeeps(e, id);
    case LoseSender => NotifyFacts(e, Bare<X>(USIZE_MAX));
    case LoseReceiver => NotifyFacts(e, Bare<X>(USIZE_MAX));
    case _ =>
  }

  lemma ClosedPoll<X>(s: State<X>, id: nat, w: Waker)
    requires Listed(s) && Gated(s.core) && s.core.closed && id in s.calls
    ensures var (c, p) := PollRecv(s.core, id, s.calls[id], w);
            c.closed && p.Returns? && Minus(Order(c.event), Queue(s), id)
  {
    Members(s.core.event);
    RecvProgressed(s.core, id, s.calls[id], w);
    if s.calls[id] == Await {
      PollReady(s.core.event, id, w);
    }
  }

  // ----- the queue is first in, first out, whoever receives

  /** What the action appends to the queue: an item that is sent. */
  function EnqueuedBy<X>(s: State<X>, a: Action<X>): seq<X> {
    if a.SendItem? && |Step(s, a).core.data| > |s.core.data| then [a.item] else []
  }

  /** What the action takes from the queue: an item that is delivered. */
  function DequeuedBy<X>(s: State<X>, a: Action<X>): seq<X> {
    var s' := Step(s, a);
    if |s'.core.data| < |s.core.data| && |s'.delivered| >= |s.delivered| then s'.delivered[|s.delivered|..] else []
  }

  function Enqueued<X>(s: State<X>, acts: seq<Action<X>>): seq<X>
    decreases |acts|
  {
    if |acts| == 0 then [] else EnqueuedBy(s, acts[0]) + Enqueued(Step(s, acts[0]), acts[1..])
  }

  function Dequeued<X>(s: State<X>, acts: seq<Action<X>>): seq<X>
    decreases |acts|
  {
    if |acts| == 0 then [] else DequeuedBy(s, acts[0]) + Dequeued(Step(s, acts[0]), acts[1..])
  }

  ghost predicate Queues<X>(s: State<X>, a: Action<X>) {
    s.core.data + EnqueuedBy(s, a) == DequeuedBy(s, a) + Step(s, a).core.data
  }

  lemma PopQueues<X>(s: State<X>, a: Action<X>)
    requires var s' := Step(s, a);
             || (s'.core.data == s.core.data && !a.SendItem?)
             || (|s.core.data| > 0 && s'.core.data == s.core.data[1..] && s'.delivered == s.delivered + [s.core.data[0]]
                 && !a.SendItem?)
    ensures Queues(s, a)
  {
    if |s.core.data| > 0 {
      assert s.core.data == [s.core.data[0]] + s.core.data[1..];
    }
  }

  lemma SendQueues<X>(s: State<X>, item: X)
    ensures Queues(s, SendItem(item))
  {
    if s.core.senders > 0 && !s.core.closed {
      SendIs(s.core, item);
    }
  }

  lemma RetryPops<X>(c: Core<nat, X>, id: nat, w: Waker)
    ensures var (c', p) := Retry(c, id, w);
            if |c.data| > 0 then c'.data == c.data[1..] && p == Returns(Item(c.data[0])) else c'.data == c.data
  {
  }

  /** Where the front of the queue goes in a poll. */
  lemma RecvPops<X>(c: Core<nat, X>, id: nat, at: Point, w: Waker)
    ensures var (c', p) := PollRecv(c, id, at, w);
            c'.data == c.data || (|c.data| > 0 && c'.data == c.data[1..] && p == Returns(Item(c.data[0])))
  {
    if at == Start {
      RetryPops(c, id, w);
    } else {
      var (e, r) := PollListener(c.event, id, w);
      RetryPops(c.(event := e), id, w);
    }
  }

  lemma RecvQueues<X>(s: State<X>, id: nat, w: Waker)
    ensures Queues(s, PollCall(id, w))
  {
    if id in s.calls {
      var (c, p) := PollRecv(s.core, id, s.calls[id], w);
      RecvPops(s.core, id, s.calls[id], w);
      assert Step(s, PollCall(id, w)) == After(s.(calls := s.calls - {id}), id, c, p);
    }
    PopQueues(s, PollCall(id, w));
  }

  lemma OthersQueue<X>(s: State<X>, a: Action<X>)
    requires !a.SendItem? && !a.PollCall?
    ensures Queues(s, a)
  {
    PopQueues(s, a);
  }

  lemma StepQueues<X>(s: State<X>, a: Action<X>)
    ensures Queues(s, a)
  {
    match a
    case SendItem(item) => SendQueues(s, item);
    case PollCall(id, w) => RecvQueues(s, id, w);
    case _ => OthersQueue(s, a);
  }

  lemma {:induction false} RunQueues<X>(s: State<X>, acts: seq<Action<X>>)
    ensures s.core.data + Enqueued(s, acts) == Dequeued(s, acts) + Run(s, acts).core.data
    decreases |acts|
  {
    if |acts| > 0 {
      var s' := Step(s, acts[0]);
      StepQueues(s, acts[0]);
      RunQueues(s', acts[1..]);
      QueueChain(s.core.data, EnqueuedBy(s, acts[0]), DequeuedBy(s, acts[0]), s'.core.data,
                 Enqueued(s', acts[1..]), Dequeued(s', acts[1..]), Run(s', acts[1..]).core.data);
    }
  }

  /** However many receives there are, of whatever kind: what was taken from the queue, in order, and
      what is in it make up what was put into it. */
  lemma QueueIsFifo<X>(acts: seq<Action<X>>)
    ensures Dequeued(Init<X>(), acts) + Run(Init<X>(), acts).core.data == Enqueued(Init<X>(), acts)
  {
    RunQueues(Init<X>(), acts);
    assert Init<X>().core.data + Enqueued(Init<X>(), acts) == Enqueued(Init<X>(), acts);
  }

  /** An item sent to an open channel goes into the tag of the first waiting receiver if there is one
      and nobody is notified, and to the end of the queue otherwise. */
  lemma SendsExactly<X>(acts: seq<Action<X>>, item: X)
    ensures var s := Run(Init<X>(), acts); var e, s' := s.core.event, Step(s, SendItem(item)); var e' := s'.core.event;
            s.core.senders > 0 && !s.core.closed ==>
              && s'.sent == s.sent + [item]
              && (if |e.notified| == 0 && |e.waiting| > 0
                  then s'.core.data == s.core.data && e'.waiting == e.waiting[1..]
                       && e'.notified == [Slot(e.waiting[0].id, Note(Some(item), false))]
                  else s'.core.data == s.core.data + [item] && e' == e)
  {
    var s := Run(Init<X>(), acts);
    if s.core.senders > 0 && !s.core.closed {
      SendRoutes(s, item);
    }
  }

  lemma SendRoutes<X>(s: State<X>, item: X)
    requires s.core.senders > 0 && !s.core.closed
    ensures var e, s' := s.core.event, Step(s, SendItem(item)); var e' := s'.core.event;
            && s'.sent == s.sent + [item]
            && (if |e.notified| == 0 && |e.waiting| > 0
                then s'.core.data == s.core.data && e'.waiting == e.waiting[1..]
                     && e'.notified == [Slot(e.waiting[0].id, Note(Some(item), false))]
                else s'.core.data == s.core.data + [item] && e' == e)
  {
    SendIs(s.core, item);
  }

  /** What a poll of a `recv` does. A new or notified one returns the item in its tag if there is one,
      else the front of the queue, else that the channel is closed; if there is nothing it waits, and so
      does one that is not notified. */
  lemma ReceivesExactly<X>(acts: seq<Action<X>>, id: nat, w: Waker)
    ensures var s := Run(Init<X>(), acts); var s' := Step(s, PollCall(id, w)); var c, c' := s.core, s'.core;
            id in s.calls ==>
              var tries, tag := s.calls[id] == Start || IsNotified(c.event, id), TagOf(c.event, id);
              && (!tries ==> s' == s.(core := c.(event := c'.event)))
              && (tries && tag.Some? ==>
                    s'.delivered == s.delivered + [tag.value] && c'.data == c.data && id !in s'.calls)
              && (tries && tag.None? && |c.data| > 0 ==>
                    s'.delivered == s.delivered + [c.data[0]] && c'.data == c.data[1..] && id !in s'.calls)
              && (tries && tag.None? && |c.data| == 0 ==>
                    s'.delivered == s.delivered && c'.data == c.data && (id in s'.calls <==> !c.closed))
  {
    RunKeeps(Init<X>(), acts);
    var s := Run(Init<X>(), acts);
    if id in s.calls {
      RecvIs(s, id, w);
    }
  }

  lemma RecvIs<X>(s: State<X>, id: nat, w: Waker)
    requires Listed(s) && id in s.calls
    ensures var s' := Step(s, PollCall(id, w)); var c, c' := s.core, s'.core;
            var tries, tag := s.calls[id] == Start || IsNotified(c.event, id), TagOf(c.event, id);
            && (!tries ==> s' == s.(core := c.(event := c'.event)))
            && (tries && tag.Some? ==>
                  s'.delivered == s.delivered + [tag.value] && c'.data == c.data && id !in s'.calls)
            && (tries && tag.None? && |c.data| > 0 ==>
                  s'.delivered == s.delivered + [c.data[0]] && c'.data == c.data[1..] && id !in s'.calls)
            && (tries && tag.None? && |c.data| == 0 ==>
                  s'.delivered == s.delivered && c'.data == c.data && (id in s'.calls <==> !c.closed))
  {
    var e := s.core.event;
    Members(e);
    var (c, p) := PollRecv(s.core, id, s.calls[id], w);
    assert Step(s, PollCall(id, w)) == After(s.(calls := s.calls - {id}), id, c, p);
    if IsNotified(e, id) {
      PollReady(e, id, w);
      RetryPops(s.core.(event := PollListener(e, id, w).0), id, w);
    } else if s.calls[id] == Start {
      RetryPops(s.core, id, w);
    } else {
      PollSleeps(e, id, w);
      assert (s.calls - {id})[id := Await] == s.calls;
    }
  }

  // ----- the wakers

  /** The waker of each call's latest poll. */
  function Later<X>(s: State<X>, latest: map<nat, Waker>, a: Action<X>): map<nat, Waker> {
    if a.PollCall? && a.id in s.calls then latest[a.id := a.w] else latest
  }

  function Latest<X>(s: State<X>, latest: map<nat, Waker>, acts: seq<Action<X>>): map<nat, Waker>
    decreases |acts|
  {
    if |acts| == 0 then latest else Latest(Step(s, acts[0]), Later(s, latest, acts[0]), acts[1..])
  }

  lemma RecvTends<X>(c: Core<nat, X>, id: nat, at: Point, w: Waker, latest: map<nat, Waker>)
    requires Wf(c.event) && Alert(c.event, latest) && (at == Await <==> id in Order(c.event))
    ensures Tended(c.event, PollRecv(c, id, at, w).0.event, latest[id := w])
  {
    LoopTended(c.event, id, w, latest);
    Members(c.event);
  }

  lemma PollTends<X>(s: State<X>, id: nat, w: Waker, latest: map<nat, Waker>)
    requires Listed(s) && Alert(s.core.event, latest) && id in s.calls
    ensures Tended(s.core.event, Step(s, PollCall(id, w)).core.event, latest[id := w])
  {
    RecvTends(s.core, id, s.calls[id], w, latest);
  }

  lemma StepTends<X>(s: State<X>, a: Action<X>, latest: map<nat, Waker>)
    requires Listed(s) && Alert(s.core.event, latest)
    ensures Tended(s.core.event, Step(s, a).core.event, Later(s, latest, a))
  {
    var e := s.core.event;
    Asleep(e, e, latest);
    match a
    case SendItem(item) => NotifyTended(e, Handing(item), latest);
    case PollCall(id, w) => if id in s.calls { PollTends(s, id, w, latest); }
    case CancelCall(id) => DropTended(e, id, latest);
    case LoseSender => NotifyTended(e, Bare<X>(USIZE_MAX), latest);
    case LoseReceiver => NotifyTended(e, Bare<X>(USIZE_MAX), latest);
    case _ => assert Step(s, a).core.event == e;
  }

  lemma {:induction false} RunTends<X>(s: State<X>, latest: map<nat, Waker>, acts: seq<Action<X>>)
    requires Inv(s) && Alert(s.core.event, latest)
    ensures Alert(Run(s, acts).core.event, Latest(s, latest, acts))
    decreases |acts|
  {
    if |acts| > 0 {
      StepConserved(s, acts[0]);
      StepListed(s, acts[0]);
      StepTends(s, acts[0], latest);
      RunTends(Step(s, acts[0]), Later(s, latest, acts[0]), acts[1..]);
    }
  }

  /** In every run a waiting receive holds a waker like that of its latest poll, and what an action
      wakes are the receives it newly notifies, each by its own such waker. */
  lemma WakesExactly<X>(acts: seq<Action<X>>, a: Action<X>)
    ensures var s, latest := Run(Init<X>(), acts), Latest(Init<X>(), map[], acts);
            && Alert(s.core.event, latest)
            && Called(s.core.event, Step(s, a).core.event, Later(s, latest, a))
  {
    RunKeeps(Init<X>(), acts);
    RunTends(Init<X>(), map[], acts);
    StepTends(Run(Init<X>(), acts), a, Latest(Init<X>(), map[], acts));
  }

  // ----- order, with one receive at a time

  /** No item waits in the queue beside an un-notified receiver. */
  predicate QuietCore<Id, X>(c: Core<Id, X>) { |c.event.waiting| > 0 ==> |c.data| == 0 }

  predicate Quiet<X>(s: State<X>) { QuietCore(s.core) }

  lemma Lone<X>(s: State<X>)
    requires Listed(s) && |s.calls| <= 1
    ensures |s.core.event.notified| + |s.core.event.waiting| <= 1
    ensures forall id :: id in s.calls && s.calls[id] == Start ==> Queue(s) == []
  {
    DistinctFits(Queue(s), s.calls.Keys);
    forall id | id in s.calls && s.calls[id] == Start
      ensures Queue(s) == []
    {
      DistinctFits(Queue(s), s.calls.Keys - {id});
    }
  }

  lemma PollQuiet<X>(s: State<X>, id: nat, w: Waker)
    requires Listed(s) && |s.calls| <= 1 && Quiet(s)
    ensures Quiet(Step(s, PollCall(id, w)))
  {
    if id in s.calls {
      Lone(s);
    }
  }

  lemma SendQuiet<X>(s: State<X>, item: X)
    requires Listed(s) && |s.calls| <= 1 && Quiet(s)
    ensures Quiet(Step(s, SendItem(item)))
  {
    Lone(s);
    HandingNotifies(s.core.event, item);
  }

  lemma CancelQuiet<X>(s: State<X>, id: nat)
    requires Listed(s) && Quiet(s)
    ensures Quiet(Step(s, CancelCall(id)))
  {
    DropKeeps(s.core.event, id);
  }

  lemma LoseQuiet<X>(s: State<X>)
    requires Quiet(s)
    ensures Quiet(Step(s, LoseSender)) && Quiet(Step(s, LoseReceiver))
  {
    NotifyFacts(s.core.event, Bare<X>(USIZE_MAX));
  }

  lemma StepQuiet<X>(s: State<X>, a: Action<X>)
    requires Listed(s) && Gated(s.core) && |s.calls| <= 1 && Quiet(s)
    ensures Quiet(Step(s, a))
  {
    match a
    case SendItem(item) => SendQuiet(s, item);
    case TryRecvNow => assert Quiet(Step(s, TryRecvNow));
    case StartRecv(id) => assert Quiet(Step(s, StartRecv(id)));
    case PollCall(id, w) => PollQuiet(s, id, w);
    case CancelCall(id) => CancelQuiet(s, id);
    case CloneSender => assert Quiet(Step(s, CloneSender));
    case CloneReceiver => assert Quiet(Step(s, CloneReceiver));
    case LoseSender => LoseQuiet(s);
    case LoseReceiver => LoseQuiet(s);
  }

  /** One `recv` at a time, `try_recv` only between them, and no `recv` dropped with an item in hand. */
  predicate Solo<X>(s: State<X>, a: Action<X>) {
    && (a.StartRecv? || a.TryRecvNow? ==> |s.calls| == 0)
    && (a.CancelCall? ==> TagOf(s.core.event, a.id).None?)
  }

  predicate SoloRun<X>(s: State<X>, acts: seq<Action<X>>)
    decreases |acts|
  {
    |acts| == 0 || (Solo(s, acts[0]) && SoloRun(Step(s, acts[0]), acts[1..]))
  }

  ghost predicate Sequential<X>(s: State<X>) { s.delivered + Carried(s) + s.core.data == s.sent }

  ghost predicate InOrder<X>(s: State<X>) {
    && Listed(s) && Gated(s.core) && |s.calls| <= 1 && Quiet(s)
    && Sequential(s)
  }

  lemma LoneHeld<Id, X>(e: EventState<Id, Option<X>>)
    requires |e.notified| <= 1
    ensures Held(e.notified) == if |e.notified| == 0 then [] else ItemOf(e.notified[0].val.tag)
  {
    if |e.notified| == 1 {
      assert e.notified == [e.notified[0]];
    }
  }

  lemma RetryOrder<X>(s: State<X>, id: nat, w: Waker)
    requires |s.core.event.notified| == 0 && s.delivered + s.core.data == s.sent
    ensures var (c, p) := Retry(s.core, id, w); var s' := After(s, id, c, p);
            |c.event.notified| == 0 && s'.delivered + s'.core.data == s'.sent
  {
    if |s.core.data| > 0 {
      assert s.core.data == [s.core.data[0]] + s.core.data[1..];
    }
    PollSleeps(s.core.event, id, w);
  }

  /** The one call is notified: it returns what its tag holds, or it tries again. */
  lemma ReadyIs<X>(s: State<X>, id: nat, w: Waker)
    requires InOrder(s) && id in s.calls && s.calls[id] == Await && IsNotified(s.core.event, id)
    ensures |s.core.event.notified| == 1
    ensures var tag := s.core.event.notified[0].val.tag; var c1 := s.core.(event := s.core.event.(notified := []));
            var (c, p) := if tag.Some? then (c1, Returns(Item(tag.value))) else Retry(c1, id, w);
            Step(s, PollCall(id, w)) == After(s.(calls := s.calls - {id}), id, c, p)
  {
    var e := s.core.event;
    Lone(s);
    assert e.notified[0].id == id;
    PollHead(e, id, w);
    assert e.notified[1..] == [];
  }

  lemma NothingCarried<X>(delivered: seq<X>, carried: seq<X>, data: seq<X>)
    requires carried == []
    ensures delivered + carried + data == delivered + data
  {
    assert delivered + carried == delivered;
  }

  lemma ReadyOrder<X>(s: State<X>, id: nat, w: Waker)
    requires InOrder(s) && id in s.calls && s.calls[id] == Await && IsNotified(s.core.event, id)
    ensures Sequential(Step(s, PollCall(id, w)))
  {
    var s', tag := Step(s, PollCall(id, w)), s.core.event.notified[0].val.tag;
    var s1 := s.(core := s.core.(event := s.core.event.(notified := [])), calls := s.calls - {id});
    ReadyIs(s, id, w);
    LoneHeld(s.core.event);
    if tag.None? {
      NothingCarried(s.delivered, Carried(s), s.core.data);
      RetryOrder(s1, id, w);
    } else {
      assert s' == s1.(delivered := s.delivered + Carried(s));
    }
    NothingCarried(s'.delivered, Carried(s'), s'.core.data);
  }

  lemma PollOrder<X>(s: State<X>, id: nat, w: Waker)
    requires InOrder(s) && id in s.calls
    ensures Sequential(Step(s, PollCall(id, w)))
  {
    Lone(s);
    LoneHeld(s.core.event);
    if s.calls[id] == Start {
      RetryOrder(s.(calls := s.calls - {id}), id, w);
    } else if IsNotified(s.core.event, id) {
      ReadyOrder(s, id, w);
    } else {
      PollSleeps(s.core.event, id, w);
    }
  }

  lemma SendOrder<X>(s: State<X>, item: X)
    requires InOrder(s)
    ensures Sequential(Step(s, SendItem(item)))
  {
    Lone(s);
    var c := s.core;
    if c.senders > 0 && !c.closed {
      SendIs(c, item);
      if |c.event.waiting| > 0 {
        NotifyFirstHolds(c.event, Some(item), false);
        var c' := c.(event := NotifyFirst(c.event, Some(item), false));
        assert Step(s, SendItem(item)) == s.(core := c', sent := s.sent + [item]);
        assert s.core.data == [] && Carried(s) == [];
        NothingCarried(s.delivered, [], []);
        NothingCarried(s.delivered, [], [item]);
      } else {
        assert Step(s, SendItem(item)) == s.(core := c.(data := c.data + [item]), sent := s.sent + [item]);
      }
    } else {
      SameOrder(s, Step(s, SendItem(item)));
    }
  }

  lemma CancelOrder<X>(s: State<X>, id: nat)
    requires InOrder(s) && TagOf(s.core.event, id).None?
    ensures Sequential(Step(s, CancelCall(id)))
  {
    Lone(s);
    SameOrder(s, Step(s, CancelCall(id)));
  }

  lemma PopFront<X>(delivered: seq<X>, data: seq<X>)
    requires |data| > 0
    ensures delivered + [data[0]] + data[1..] == delivered + data
  {
  }

  lemma TryRecvOrder<X>(s: State<X>)
    requires InOrder(s) && |s.calls| == 0
    ensures Sequential(Step(s, TryRecvNow))
  {
    DistinctFits(Queue(s), {});
    LoneHeld(s.core.event);
    var s', data := Step(s, TryRecvNow), s.core.data;
    NothingCarried(s.delivered, Carried(s), data);
    NothingCarried(s'.delivered, Carried(s'), s'.core.data);
    if s.core.receivers > 0 && |data| > 0 {
      assert s' == s.(core := s.core.(data := data[1..]), delivered := s.delivered + [data[0]]);
      PopFront(s.delivered, data);
    } else {
      assert s'.delivered == s.delivered;
    }
  }

  lemma CloseOrder<X>(c: Core<nat, X>)
    ensures c.senders > 0 ==> DropSender(c).data == c.data && Held(DropSender(c).event.notified) == Held(c.event.notified)
    ensures c.receivers > 0 ==> DropReceiver(c).data == c.data && Held(DropReceiver(c).event.notified) == Held(c.event.notified)
  {
    BareHolds(c.event, USIZE_MAX);
  }

  lemma SameOrder<X>(s: State<X>, s': State<X>)
    requires Sequential(s) && Carried(s') == Carried(s) && s'.core.data == s.core.data
    requires s'.sent == s.sent && s'.delivered == s.delivered
    ensures Sequential(s')
  {
  }

  lemma LoseOrder<X>(s: State<X>)
    requires Sequential(s)
    ensures Sequential(Step(s, LoseSender)) && Sequential(Step(s, LoseReceiver))
  {
    CloseOrder(s.core);
    SameOrder(s, Step(s, LoseSender));
    SameOrder(s, Step(s, LoseReceiver));
  }

  lemma StepSequence<X>(s: State<X>, a: Action<X>)
    requires InOrder(s) && Solo(s, a)
    ensures Sequential(Step(s, a))
  {
    match a
    case SendItem(item) => SendOrder(s, item);
    case TryRecvNow => TryRecvOrder(s);
    case StartRecv(id) => SameOrder(s, Step(s, StartRecv(id)));
    case PollCall(id, w) => if id in s.calls { PollOrder(s, id, w); } else { SameOrder(s, Step(s, PollCall(id, w))); }
    case CancelCall(id) => CancelOrder(s, id);
    case CloneSender => SameOrder(s, Step(s, CloneSender));
    case CloneReceiver => SameOrder(s, Step(s, CloneReceiver));
    case LoseSender => LoseOrder(s);
    case LoseReceiver => LoseOrder(s);
  }

  lemma StepOrder<X>(s: State<X>, a: Action<X>)
    requires InOrder(s) && Solo(s, a)
    ensures InOrder(Step(s, a))
  {
    StepListed(s, a);
    StepQuiet(s, a);
    StepSequence(s, a);
  }

  lemma {:induction false} SoloKeepsOrder<X>(s: State<X>, acts: seq<Action<X>>)
    requires InOrder(s) && SoloRun(s, acts)
    ensures InOrder(Run(s, acts))
    decreases |acts|
  {
    if |acts| > 0 {
      StepOrder(s, acts[0]);
      SoloKeepsOrder(Step(s, acts[0]), acts[1..]);
    }
  }

  /** With one receive at a time, and none dropped with an item in hand, items come out in the order
      they went in, none is missing, and none waits in the queue beside a sleeping receiver. */
  lemma SoloReceiveIsFifo<X>(acts: seq<Action<X>>)
    requires SoloRun(Init<X>(), acts)
    ensures var s := Run(Init<X>(), acts);
            && s.delivered + Carried(s) + s.core.data == s.sent
            && (|s.core.event.waiting| > 0 ==> |s.core.data| == 0)
  {
    SoloKeepsOrder(Init<X>(), acts);
  }

  // ----- sleeping beside a queued item, and exactly when it cannot happen

  /** At most `limit` receives are in flight in every state of the run. */
  predicate Within<X>(s: State<X>, acts: seq<Action<X>>, limit: nat)
    decreases |acts|
  {
    |s.calls| <= limit && (|acts| == 0 || Within(Step(s, acts[0]), acts[1..], limit))
  }

  /** Items are queued, receivers wait, and none of them is notified. */
  predicate Stalled<X>(s: State<X>) {
    |s.core.data| > 0 && |s.core.event.waiting| > 0 && |s.core.event.notified| == 0
  }

  lemma {:induction false} WithinOneIsQuiet<X>(s: State<X>, acts: seq<Action<X>>)
    requires Listed(s) && Gated(s.core) && Quiet(s) && Within(s, acts, 1)
    ensures Quiet(Run(s, acts))
    decreases |acts|
  {
    if |acts| > 0 {
      StepListed(s, acts[0]);
      StepQuiet(s, acts[0]);
      WithinOneIsQuiet(Step(s, acts[0]), acts[1..]);
    }
  }

  lemma {:induction false} Extend<X>(s: State<X>, acts: seq<Action<X>>, a: Action<X>, limit: nat)
    requires Within(s, acts, limit) && |Step(Run(s, acts), a).calls| <= limit
    ensures Run(s, acts + [a]) == Step(Run(s, acts), a) && Within(s, acts + [a], limit)
    decreases |acts|
  {
    if |acts| == 0 {
      assert acts + [a] == [a];
      assert Run(Step(s, a), []) == Step(s, a);
    } else {
      assert (acts + [a])[1..] == acts[1..] + [a];
      Extend(Step(s, acts[0]), acts[1..], a, limit);
    }
  }

  /** A receive that finds nothing joins the end of the list. */
  lemma Enters<X>(s: State<X>, id: nat, w: Waker)
    requires id in s.calls && s.calls[id] == Start && id !in Queue(s) && |s.core.data| == 0 && !s.core.closed
    ensures Step(s, PollCall(id, w))
         == s.(core := s.core.(event := s.core.event.(waiting := s.core.event.waiting + [Slot(id, Some(w))])),
               calls := s.calls[id := Await])
  {
    PollNew(s.core.event, id, w);
    assert (s.calls - {id})[id := Await] == s.calls[id := Await];
  }

  lemma Starts<X>(s: State<X>, id: nat)
    requires id !in s.calls && s.core.receivers > 0 && |s.calls| < 2
    ensures Step(s, StartRecv(id)) == s.(calls := s.calls[id := Start])
  {
  }

  /** One more receive starts, finds nothing and waits. */
  lemma Sleeper<X>(before: seq<Action<X>>, id: nat, others: map<nat, Point>) returns (acts: seq<Action<X>>)
    requires Within(Init<X>(), before, 2) && |others| < 2 && id !in others
    requires var s := Run(Init<X>(), before);
             && s.calls == others && id !in Queue(s) && s.core.receivers > 0
             && |s.core.data| == 0 && !s.core.closed
    ensures var s, s', w := Run(Init<X>(), before), Run(Init<X>(), acts), Waker(0, 0, 0);
            && Within(Init<X>(), acts, 2) && s'.calls == others[id := Await]
            && s'.sent == s.sent && s'.lost == s.lost
            && s'.core == s.core.(event := s.core.event.(waiting := s.core.event.waiting + [Slot(id, Some(w))]))
  {
    var s0, w := Init<X>(), Waker(0, 0, 0);
    Starts(Run(s0, before), id);
    assert |others[id := Start]| == |others[id := Await]| == |others| + 1;
    Extend(s0, before, StartRecv(id), 2);
    acts := before + [StartRecv(id)];
    Enters(Run(s0, acts), id, w);
    assert others[id := Start][id := Await] == others[id := Await];
    Extend(s0, acts, PollCall(id, w), 2);
    acts := acts + [PollCall(id, w)];
  }

  /** Two receives wait; the first item notifies one, the second is queued; the notified one
      returns. The other sleeps beside the queued item. */
  lemma TwoReceivesStall<X>(x: X) returns (acts: seq<Action<X>>)
    ensures Within(Init<X>(), acts, 2) && Stalled(Run(Init<X>(), acts))
  {
    acts := Sleeper([], 0, map[]);
    assert Queue(Run(Init<X>(), acts)) == [0];
    acts := Sleeper(acts, 1, map[0 := Await]);
    acts := SendsStall(acts, x);
  }

  /** An item is handed to the only listener, which is then dropped. */
  lemma HandedAndDropped<X>(s: State<X>, x: X, id: nat)
    requires !s.core.closed && s.core.senders > 0 && id in s.calls
    requires s.core.event.notified == [] && |s.core.event.waiting| == 1 && s.core.event.waiting[0].id == id
    ensures var s1 := Step(s, SendItem(x)); var s2 := Step(s1, CancelCall(id));
            && s1.calls == s.calls && |s2.calls| <= |s.calls|
            && s2.sent == s.sent + [x] && s2.lost == s.lost + [x]
            && s2.core == s.core.(event := s2.core.event)
  {
    HandingNotifies(s.core.event, x);
    var e := NotifyFirst(s.core.event, Some(x), false);
    assert Ids(e.notified)[0] == id;
    LossExactly(e, id);
    assert |s.calls - {id}| <= |s.calls|;
  }

  lemma LosingEnd<X>(before: seq<Action<X>>, x: X) returns (acts: seq<Action<X>>)
    requires var s := Run(Init<X>(), before);
             && Within(Init<X>(), before, 2) && s.calls == map[0 := Await] && s.sent == s.lost == []
             && s.core == Core([], false, 1, 1, EventState([], [Slot(0, Some(Waker(0, 0, 0)))], []))
    ensures var s := Run(Init<X>(), acts);
            s.sent == s.lost == [x] && !s.core.closed && s.core.senders == s.core.receivers == 1
  {
    HandedAndDropped(Run(Init<X>(), before), x, 0);
    Extend(Init<X>(), before, SendItem(x), 2);
    acts := before + [SendItem(x)];
    Extend(Init<X>(), acts, CancelCall(0), 2);
    acts := acts + [CancelCall(0)];
  }

  /** One receive waits, an item is sent to it, and it is dropped: the item is gone, with both
      handles alive and the channel open. */
  lemma LosingRun<X>(x: X) returns (acts: seq<Action<X>>)
    ensures var s := Run(Init<X>(), acts);
            s.sent == s.lost == [x] && !s.core.closed && s.core.senders == s.core.receivers == 1
  {
    acts := Sleeper([], 0, map[]);
    acts := LosingEnd(acts, x);
  }

  /** Of two items sent to sleeping receivers the first goes to the head, the second to the queue. */
  lemma TwoSends<X>(s: State<X>, x: X)
    requires !s.core.closed && s.core.senders > 0
    requires |s.core.event.notified| == 0 && |s.core.event.waiting| > 0
    ensures var s' := Step(Step(s, SendItem(x)), SendItem(x));
            && s'.core == s.core.(event := NotifyFirst(s.core.event, Some(x), false), data := s.core.data + [x])
            && s'.calls == s.calls && Step(s, SendItem(x)).calls == s.calls
  {
    HandingNotifies(s.core.event, x);
    HandingNotifies(NotifyFirst(s.core.event, Some(x), false), x);
  }

  lemma SendsStall<X>(before: seq<Action<X>>, x: X) returns (acts: seq<Action<X>>)
    requires Within(Init<X>(), before, 2)
    requires var s := Run(Init<X>(), before); var w := Waker(0, 0, 0);
             && s.core == Core([], false, 1, 1, EventState([], [Slot(0, Some(w)), Slot(1, Some(w))], []))
             && s.calls == map[0 := Await, 1 := Await]
    ensures Within(Init<X>(), acts, 2) && Stalled(Run(Init<X>(), acts))
  {
    var s0, w := Init<X>(), Waker(0, 0, 0);
    TwoSends(Run(s0, before), x);
    Extend(s0, before, SendItem(x), 2);
    Extend(s0, before + [SendItem(x)], SendItem(x), 2);
    acts := before + [SendItem(x)] + [SendItem(x)];
    var s6 := Run(s0, acts);
    PollHead(s6.core.event, 0, w);
    LastPollStalls(s6, w);
    Extend(s0, acts, PollCall(0, w), 2);
    acts := acts + [PollCall(0, w)];
  }

  lemma LastPollStalls<X>(s: State<X>, w: Waker)
    requires 0 in s.calls && s.calls[0] == Await && |s.calls| <= 2 && |s.core.data| > 0
    requires var e := s.core.event;
             |e.notified| == 1 && e.notified[0].id == 0 && e.notified[0].val.tag.Some? && |e.waiting| > 0
    ensures var s' := Step(s, PollCall(0, w)); Stalled(s') && |s'.calls| <= 2
  {
    PollHead(s.core.event, 0, w);
    assert |s.calls - {0}| <= |s.calls|;
  }

  lemma {:induction false} WithinMore<X>(s: State<X>, acts: seq<Action<X>>, limit: nat, more: nat)
    requires Within(s, acts, limit) && limit <= more
    ensures Within(s, acts, more)
    decreases |acts|
  {
    if |acts| > 0 {
      WithinMore(Step(s, acts[0]), acts[1..], limit, more);
    }
  }

  /** With at most `limit` receives in flight the run ends stalled. */
  predicate Stalls<X>(acts: seq<Action<X>>, limit: nat) {
    Within(Init<X>(), acts, limit) && Stalled(Run(Init<X>(), acts))
  }

  lemma WithinOneNeverStalls<X>(acts: seq<Action<X>>, limit: nat)
    requires limit <= 1
    ensures !Stalls(acts, limit)
  {
    if Within(Init<X>(), acts, limit) {
      WithinMore(Init<X>(), acts, limit, 1);
      WithinOneIsQuiet(Init<X>(), acts);
    }
  }

  /** No receiver ever sleeps beside a queued item, with nobody notified, if and only if at most one
      receive is in flight at a time. */
  lemma NeverStallsExactly<X>(limit: nat, x: X)
    ensures limit <= 1 <==> forall acts: seq<Action<X>> :: !Stalls(acts, limit)
  {
    if limit <= 1 {
      forall acts: seq<Action<X>> ensures !Stalls(acts, limit) {
        WithinOneNeverStalls(acts, limit);
      }
    } else {
      var acts := TwoReceivesStall(x);
      WithinMore(Init<X>(), acts, 2, limit);
      assert Stalls(acts, limit);
    }
  }
}

/** The channel as the source has it, over the linked list. */
module ChannelObject {
  import opened Prelude
  import opened Notifications
  import opened EventModel
  import opened HeldItems
  import EventList
  import M = ChannelModel

  class Channel<X> {
    const event: EventList.Event<Option<X>>
    var data: seq<X>
    var closed: bool
    var senders: nat
    var receivers: nat

    ghost predicate Valid()
      reads this, event, event.listeners
    {
      event.Valid()
    }

    ghost function Core(): M.Core<EventList.Listener<Option<X>>, X>
      reads this, event
    {
      M.Core(data, closed, senders, receivers, event.model)
    }

    /** `channel()`: one sender and one receiver. */
    constructor ()
      ensures Valid() && Core() == M.Core([], false, 1, 1, EventModel.Empty())
    {
      event := new EventList.Event<Option<X>>();
      data, closed, senders, receivers := [], false, 1, 1;
    }

    /** The item goes into the tag of a receiver, or to the queue if the tag was not asked for. */
    method Send(item: X) returns (ok: bool)
      requires Valid()
      modifies this, event, event.listeners
      ensures Valid() && event.listeners == old(event.listeners)
      ensures (Core(), ok) == M.Send(old(Core()), item)
    {
      if closed {
        return false;
      }
      var n, rest := event.Notify(Handing(item));
      if rest.calls == 0 {
        data := data + [item];
      }
      return true;
    }

    method CloneSender()
      requires Valid()
      modifies this`senders
      ensures Valid() && Core() == old(Core()).(senders := old(senders) + 1)
    {
      senders := senders + 1;
    }

    method CloneReceiver()
      requires Valid()
      modifies this`receivers
      ensures Valid() && Core() == old(Core()).(receivers := old(receivers) + 1)
    {
      receivers := receivers + 1;
    }

    method DropSender()
      requires Valid() && senders > 0
      modifies this, event, event.listeners
      ensures Valid() && event.listeners == old(event.listeners)
      ensures Core() == M.DropSender(old(Core()))
    {
      senders := senders - 1;
      if senders == 0 {
        closed := true;
        var n, rest := event.Notify(Bare(USIZE_MAX));
      }
    }

    method DropReceiver()
      requires Valid() && receivers > 0
      modifies this, event, event.listeners
      ensures Valid() && event.listeners == old(event.listeners)
      ensures Core() == M.DropReceiver(old(Core()))
    {
      receivers := receivers - 1;
      if receivers == 0 {
        closed := true;
        var n, rest := event.Notify(Bare(USIZE_MAX));
      }
    }

    method TryRecv() returns (r: M.Received<X>)
      requires Valid()
      modifies this`data
      ensures Valid() && (Core(), r) == M.TryRecv(old(Core()))
    {
      if |data| > 0 {
        r := M.Item(data[0]);
        data := data[1..];
      } else {
        r := if closed then M.Closed else M.Empty;
      }
    }

    /** Poll the listener; a ready one is out of the list. */
    method AwaitItem(l: EventList.Listener<Option<X>>, w: Waker) returns (r: Poll<Option<X>>)
      requires Valid() && l in event.listeners
      modifies this, event, event.listeners
      ensures Valid() && event.listeners == old(event.listeners)
      ensures Core() == old(Core()).(event := PollListener(old(event.model), l, w).0)
      ensures r == PollListener(old(event.model), l, w).1
      ensures r.Ready? <==> IsNotified(old(event.model), l)
      ensures r.Ready? ==> !IsNotified(event.model, l)
    {
      event.Tidy(l, w);
      r := event.Poll(l, w);
    }

    /** One poll of a `recv` future with listener `l`, suspended at `at`. */
    method PollRecv(l: EventList.Listener<Option<X>>, at: Point, w: Waker) returns (p: M.Progress<X>)
      requires Valid() && l in event.listeners && (at == Start ==> !l.inList)
      modifies this, event, event.listeners
      ensures Valid() && event.listeners == old(event.listeners)
      ensures (Core(), p) == M.PollRecv(old(Core()), l, at, w)
    {
      var here := at;
      event.Tidy(l, w);
      while true
        invariant Valid() && event.listeners == old(event.listeners)
        invariant here == Await ==> at == Await && Core() == old(Core())
        invariant here == Start ==> !IsNotified(event.model, l) && M.PollRecv(old(Core()), l, at, w) == M.Retry(Core(), l, w)
        decreases here == Await
      {
        if here == Start {
          var r := TryRecv();
          if r != M.Empty {
            return M.Returns(r);
          }
        }
        var r := AwaitItem(l, w);
        if r.Pending? {
          return M.Sleeps;
        }
        if r.value.Some? {
          return M.Returns(M.Item(r.value.value));
        }
        here := Start;
      }
    }

    /** The future of `recv` is dropped before it returned. */
    method CancelRecv(l: EventList.Listener<Option<X>>)
      requires Valid() && l in event.listeners
      modifies this, event, event.listeners
      ensures Valid() && event.listeners == old(event.listeners)
      ensures Core() == M.CancelRecv(old(Core()), l)
    {
      event.Drop(l);
    }
  }
}
