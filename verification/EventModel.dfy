/** The event of `src/event.rs` as a plain value: the notified listeners, then the un-notified
    ones, both in list order. `|notified|` is the length of the notified prefix of the list. */
module EventModel {
  import opened Prelude
  import opened Notifications

  datatype Slot<Id, +V> = Slot(id: Id, val: V)

  datatype Note<+T> = Note(tag: T, additional: bool)

  /** An un-notified entry holds the waker of its last pending poll, if it was polled at all.
      `woken` logs every call of `wake` so far. */
  datatype EventState<Id, +T> = EventState(
    notified: seq<Slot<Id, Note<T>>>,
    waiting: seq<Slot<Id, Option<Waker>>>,
    woken: seq<Waker>)

  function Ids<Id, V>(s: seq<Slot<Id, V>>): (r: seq<Id>)
    ensures |r| == |s|
    ensures forall i :: 0 <= i < |s| ==> r[i] == s[i].id
  {
    seq(|s|, i requires 0 <= i < |s| => s[i].id)
  }

  /** The listeners in list order. */
  function Order<Id, T>(e: EventState<Id, T>): seq<Id> { Ids(e.notified) + Ids(e.waiting) }

  /** No listener is in the list twice. */
  ghost predicate Wf<Id, T>(e: EventState<Id, T>) { Distinct(Order(e)) }

  function Empty<Id, T>(): EventState<Id, T> { EventState([], [], []) }

  // ----- the operations

  function Insert<Id, T>(e: EventState<Id, T>, id: Id): EventState<Id, T> {
    e.(waiting := e.waiting + [Slot(id, None)])
  }

  /** How many listeners `nf` notifies: `count` more of them, or enough to have `count` notified. */
  function Growth<Id, T>(e: EventState<Id, T>, nf: Notification<T>): nat {
    if nf.additional then Min(nf.count, |e.waiting|)
    else if nf.count <= |e.notified| then 0
    else Min(nf.count - |e.notified|, |e.waiting|)
  }

  function WakerOf(w: Option<Waker>): seq<Waker> {
    match w case Some(waker) => [waker] case None => []
  }

  /** Notify the first waiting listener: it gets its tag, and its waker, if any, is called. */
  function NotifyFirst<Id, T>(e: EventState<Id, T>, tag: T, additional: bool): EventState<Id, T>
    requires |e.waiting| > 0
  {
    EventState(
      e.notified + [Slot(e.waiting[0].id, Note(tag, additional))],
      e.waiting[1..],
      e.woken + WakerOf(e.waiting[0].val))
  }

  /** Notify the first `m` waiting listeners with the next `m` tags. */
  function Advance<Id, T>(e: EventState<Id, T>, m: nat, tags: TagSource<T>, additional: bool): EventState<Id, T>
    requires m <= |e.waiting| && tags.CanDraw(m)
    decreases |e.waiting|
  {
    if m == 0 then e
    else var (tag, rest) := tags.NextTag(); Advance(NotifyFirst(e, tag, additional), m - 1, rest, additional)
  }

  /** Notify up to `count` waiting listeners. */
  function Spread<Id, T>(e: EventState<Id, T>, count: nat, tags: TagSource<T>, additional: bool): EventState<Id, T>
    requires tags.CanDraw(count)
  {
    Advance(e, Min(count, |e.waiting|), tags, additional)
  }

  function Notify<Id, T>(e: EventState<Id, T>, nf: Notification<T>): EventState<Id, T>
    requires nf.Valid()
  {
    Advance(e, Growth(e, nf), nf.tags, nf.additional)
  }

  predicate IsNotified<Id(==), T>(e: EventState<Id, T>, id: Id) { id in Ids(e.notified) }

  /** A waiting listener keeps its waker when the new one wakes the same task. */
  function Refresh(held: Option<Waker>, w: Waker): (r: Waker)
    ensures WillWake(r, w)
  {
    if held.Some? && WillWake(held.value, w) then held.value else w
  }

  function Register<Id(==), T>(e: EventState<Id, T>, id: Id, w: Waker): EventState<Id, T> {
    var j := Pos(Ids(e.waiting), id);
    if j == |e.waiting| then e
    else e.(waiting := e.waiting[j := Slot(id, Some(Refresh(e.waiting[j].val, w)))])
  }

  function Remove<Id(==), T>(e: EventState<Id, T>, id: Id): EventState<Id, T> {
    var i := Pos(Ids(e.notified), id);
    var j := Pos(Ids(e.waiting), id);
    if i < |e.notified| then e.(notified := Without(e.notified, i))
    else if j < |e.waiting| then e.(waiting := Without(e.waiting, j))
    else e
  }

  /** Poll listener `id`: a notified one leaves the list with its tag; any other is (inserted and)
      registered. */
  function PollListener<Id(==), T>(e: EventState<Id, T>, id: Id, w: Waker): (EventState<Id, T>, Poll<T>) {
    var i := Pos(Ids(e.notified), id);
    if i < |e.notified| then (Remove(e, id), Ready(e.notified[i].val.tag))
    else (Register(if id in Ids(e.waiting) then e else Insert(e, id), id, w), Pending)
  }

  /** Drop listener `id`: an unconsumed notification goes on to another listener. */
  function DropListener<Id(==), T>(e: EventState<Id, T>, id: Id): EventState<Id, T> {
    var i := Pos(Ids(e.notified), id);
    if i < |e.notified| then
      var note := e.notified[i].val;
      Notify(Remove(e, id), SingleNotify(note.tag, note.additional))
    else Remove(e, id)
  }

  // ----- what each operation does to the list order and to the notified prefix

  lemma Members<Id, T>(e: EventState<Id, T>)
    ensures |Order(e)| == |e.notified| + |e.waiting|
    ensures forall x :: x in Order(e) <==> x in Ids(e.notified) || x in Ids(e.waiting)
  {
  }

  /** Notifying `m` listeners moves the first `m` waiting ones over. */
  lemma {:induction false} AdvanceShape<Id, T>(e: EventState<Id, T>, m: nat, tags: TagSource<T>, additional: bool)
    requires m <= |e.waiting| && tags.CanDraw(m)
    ensures var e' := Advance(e, m, tags, additional);
            |e'.notified| == |e.notified| + m && e.notified <= e'.notified && e'.waiting == e.waiting[m..]
    decreases m
  {
    if m > 0 {
      var (tag, rest) := tags.NextTag();
      AdvanceShape(NotifyFirst(e, tag, additional), m - 1, rest, additional);
    }
  }

  lemma AdvanceHead<Id, T>(e: EventState<Id, T>, m: nat, tags: TagSource<T>, additional: bool)
    requires 0 < m <= |e.waiting| && tags.CanDraw(m)
    ensures var e' := Advance(e, m, tags, additional); var k := |e.notified|;
            |e'.notified| == k + m && e'.notified[k] == Slot(e.waiting[0].id, Note(tags.TagAt(0), additional))
  {
    var (tag, rest) := tags.NextTag();
    var e1 := NotifyFirst(e, tag, additional);
    AdvanceShape(e1, m - 1, rest, additional);
  }

  /** They keep their order, and the i-th of them gets the i-th tag drawn. */
  lemma {:induction false} AdvanceAt<Id, T>(
    e: EventState<Id, T>, m: nat, tags: TagSource<T>, additional: bool, i: nat)
    requires i < m <= |e.waiting| && tags.CanDraw(m)
    ensures |Advance(e, m, tags, additional).notified| == |e.notified| + m
    ensures Advance(e, m, tags, additional).notified[|e.notified| + i]
         == Slot(e.waiting[i].id, Note(tags.TagAt(i), additional))
    decreases m
  {
    AdvanceHead(e, m, tags, additional);
    if i > 0 {
      var (tag, rest) := tags.NextTag();
      AdvanceAt(NotifyFirst(e, tag, additional), m - 1, rest, additional, i - 1);
    }
  }

  lemma {:induction false} AdvanceOrder<Id, T>(e: EventState<Id, T>, m: nat, tags: TagSource<T>, additional: bool)
    requires m <= |e.waiting| && tags.CanDraw(m)
    ensures Order(Advance(e, m, tags, additional)) == Order(e)
    decreases m
  {
    if m > 0 {
      var (tag, rest) := tags.NextTag();
      var e1 := NotifyFirst(e, tag, additional);
      AdvanceOrder(e1, m - 1, rest, additional);
      assert Order(e1) == Order(e);
    }
  }

  /** Plain `notify(n)` brings the notified prefix to max(k, min(n, len)), additional to
      min(k + n, len); the list order stays. */
  lemma NotifyFacts<Id, T>(e: EventState<Id, T>, nf: Notification<T>)
    requires nf.Valid()
    ensures var e' := Notify(e, nf); var k, len := |e.notified|, |e.notified| + |e.waiting|;
            && Order(e') == Order(e)
            && |e'.notified| == (if nf.additional then Min(k + nf.count, len) else Max(k, Min(nf.count, len)))
            && |e'.notified| == k + Growth(e, nf)
            && e.notified <= e'.notified
            && (|e'.waiting| == |e.waiting| - Growth(e, nf))
  {
    AdvanceShape(e, Growth(e, nf), nf.tags, nf.additional);
    AdvanceOrder(e, Growth(e, nf), nf.tags, nf.additional);
  }

  lemma IdsWithout<Id, V>(s: seq<Slot<Id, V>>, i: nat)
    requires i < |s|
    ensures Ids(Without(s, i)) == Without(Ids(s), i)
  {
  }

  lemma WithoutLeft<A>(a: seq<A>, b: seq<A>, i: nat)
    requires i < |a|
    ensures Without(a + b, i) == Without(a, i) + b
  {
  }

  lemma WithoutRight<A>(a: seq<A>, b: seq<A>, j: nat)
    requires j < |b|
    ensures Without(a + b, |a| + j) == a + Without(b, j)
  {
  }

  lemma RemoveNotified<Id, T>(e: EventState<Id, T>, id: Id)
    requires IsNotified(e, id)
    ensures Order(Remove(e, id)) == Without(Order(e), Pos(Order(e), id))
    ensures Remove(e, id).waiting == e.waiting && |Remove(e, id).notified| == |e.notified| - 1
  {
    var a, b := Ids(e.notified), Ids(e.waiting);
    var i := Pos(a, id);
    PosConcat(a, b, id);
    IdsWithout(e.notified, i);
    WithoutLeft(a, b, i);
  }

  lemma RemoveWaiting<Id, T>(e: EventState<Id, T>, id: Id)
    requires !IsNotified(e, id) && id in Ids(e.waiting)
    ensures Order(Remove(e, id)) == Without(Order(e), Pos(Order(e), id))
    ensures Remove(e, id).notified == e.notified && |Remove(e, id).waiting| == |e.waiting| - 1
  {
    var a, b := Ids(e.notified), Ids(e.waiting);
    var j := Pos(b, id);
    assert Pos(a, id) == |e.notified|;
    assert Remove(e, id) == e.(waiting := Without(e.waiting, j));
    calc {
      Order(Remove(e, id));
      a + Ids(Without(e.waiting, j));
      { IdsWithout(e.waiting, j); }
      a + Without(b, j);
      { WithoutRight(a, b, j); }
      Without(a + b, |a| + j);
      { PosConcat(a, b, id); }
      Without(Order(e), Pos(Order(e), id));
    }
  }

  /** Unlinking takes out the one entry and leaves the others in order. */
  lemma RemoveOrder<Id, T>(e: EventState<Id, T>, id: Id)
    requires id in Order(e)
    ensures Order(Remove(e, id)) == Without(Order(e), Pos(Order(e), id))
    ensures IsNotified(e, id) ==> Remove(e, id).waiting == e.waiting && |Remove(e, id).notified| == |e.notified| - 1
    ensures !IsNotified(e, id) ==> Remove(e, id).notified == e.notified && |Remove(e, id).waiting| == |e.waiting| - 1
  {
    Members(e);
    if IsNotified(e, id) {
      RemoveNotified(e, id);
    } else {
      RemoveWaiting(e, id);
    }
  }

  lemma RemoveFacts<Id, T>(e: EventState<Id, T>, id: Id)
    requires Wf(e) && id in Order(e)
    ensures Wf(Remove(e, id))
    ensures forall x :: x in Order(Remove(e, id)) <==> x in Order(e) && x != id
  {
    RemoveOrder(e, id);
    WithoutFacts(Order(e), Pos(Order(e), id));
  }

  lemma RegisterOrder<Id, T>(e: EventState<Id, T>, id: Id, w: Waker)
    ensures Order(Register(e, id, w)) == Order(e) && Ids(Register(e, id, w).waiting) == Ids(e.waiting)
  {
    assert Ids(Register(e, id, w).waiting) == Ids(e.waiting);
  }

  lemma InsertOrder<Id, T>(e: EventState<Id, T>, id: Id)
    ensures Order(Insert(e, id)) == Order(e) + [id] && Ids(Insert(e, id).waiting) == Ids(e.waiting) + [id]
  {
    assert Ids(Insert(e, id).waiting) == Ids(e.waiting) + [id];
  }

  /** A poll is ready exactly when the listener is notified, and then takes it out of the list. */
  lemma PollReady<Id, T>(e: EventState<Id, T>, id: Id, w: Waker)
    requires Wf(e) && IsNotified(e, id)
    ensures var (e', r) := PollListener(e, id, w);
            && r == Ready(e.notified[Pos(Ids(e.notified), id)].val.tag)
            && Wf(e')
            && e'.waiting == e.waiting && |e'.notified| == |e.notified| - 1
            && id in Order(e) && (forall x :: x in Order(e') <==> x in Order(e) && x != id)
            && Order(e') == Without(Order(e), Pos(Order(e), id))
  {
    Members(e);
    RemoveOrder(e, id);
    RemoveFacts(e, id);
  }

  /** A pending poll leaves the listener in the list, at the end if it was not in it. */
  lemma PollPending<Id, T>(e: EventState<Id, T>, id: Id, w: Waker)
    requires Wf(e) && !IsNotified(e, id)
    ensures var (e', r) := PollListener(e, id, w);
            && r == Pending
            && Wf(e')
            && e'.notified == e.notified
            && (forall x :: x in Ids(e'.waiting) <==> x in Ids(e.waiting) || x == id)
            && Order(e') == (if id in Order(e) then Order(e) else Order(e) + [id])
            && (forall x :: x in Order(e') <==> x in Order(e) || x == id)
  {
    Members(e);
    var e1 := if id in Ids(e.waiting) then e else Insert(e, id);
    InsertOrder(e, id);
    RegisterOrder(e1, id, w);
    Members(Register(e1, id, w));
  }

  /** A listener that is notified and polled, and polled again at once, is at the end of the list. */
  lemma Requeued<Id, T>(e: EventState<Id, T>, id: Id, w: Waker)
    requires Wf(e) && IsNotified(e, id)
    ensures var e1 := PollListener(e, id, w).0; var (e2, r) := PollListener(e1, id, w);
            r == Pending && Order(e2) == Without(Order(e), Pos(Order(e), id)) + [id]
  {
    Members(e);
    PollReady(e, id, w);
    var e1 := PollListener(e, id, w).0;
    PollPending(e1, id, w);
  }

  lemma PollSleeps<Id, T>(e: EventState<Id, T>, id: Id, w: Waker)
    requires !IsNotified(e, id)
    ensures PollListener(e, id, w).1 == Pending && PollListener(e, id, w).0.notified == e.notified
  {
  }

  /** Dropping a listener takes it out of the list and leaves the others in order. */
  lemma DropFacts<Id, T>(e: EventState<Id, T>, id: Id)
    requires Wf(e)
    ensures var e' := DropListener(e, id);
            && Wf(e')
            && (forall x :: x in Order(e') <==> x in Order(e) && x != id)
            && (id !in Order(e) ==> e' == e)
            && (id in Order(e) ==> Order(e') == Without(Order(e), Pos(Order(e), id)))
  {
    Members(e);
    if id in Order(e) {
      RemoveOrder(e, id);
      RemoveFacts(e, id);
      if IsNotified(e, id) {
        var note := e.notified[Pos(Ids(e.notified), id)].val;
        NotifyFacts(Remove(e, id), SingleNotify(note.tag, note.additional));
      }
    }
  }

  /** Dropping a listener of a list with `k` of `len` notified: an un-notified one leaves `k`, a
      plain notified one max(k - 1, min(1, len - 1)), an additional one min(k, len - 1). So a
      positive count falls to zero only when the list empties. */
  lemma DropCount<Id, T>(e: EventState<Id, T>, id: Id)
    requires Wf(e) && id in Order(e)
    ensures var e' := DropListener(e, id); var k, len := |e.notified|, |e.notified| + |e.waiting|;
            && (!IsNotified(e, id) ==> e'.notified == e.notified)
            && (IsNotified(e, id) ==>
                  |e'.notified| == if e.notified[Pos(Ids(e.notified), id)].val.additional
                                   then Min(k, len - 1) else Max(k - 1, Min(1, len - 1)))
            && |e'.notified| + |e'.waiting| == len - 1
            && (k > 0 && len > 1 ==> |e'.notified| > 0)
  {
    RemoveOrder(e, id);
    Members(e);
    if IsNotified(e, id) {
      var note := e.notified[Pos(Ids(e.notified), id)].val;
      NotifyFacts(Remove(e, id), SingleNotify(note.tag, note.additional));
    }
  }

  /** Where the notification of a dropped listener goes: to the first of the waiting ones, as it was
      received, tag and kind, if it is additional or nobody else is notified; else it is gone. The other
      notified listeners stay as they are. */
  lemma DropPassesOn<Id, T>(e: EventState<Id, T>, id: Id)
    requires IsNotified(e, id)
    ensures var e', i := DropListener(e, id), Pos(Ids(e.notified), id); var note := e.notified[i].val;
            if |e.waiting| > 0 && (note.additional || |e.notified| == 1)
            then e' == EventState(Without(e.notified, i) + [Slot(e.waiting[0].id, note)], e.waiting[1..],
                                  e.woken + WakerOf(e.waiting[0].val))
            else e' == e.(notified := Without(e.notified, i))
  {
    var i := Pos(Ids(e.notified), id);
    var note, e1 := e.notified[i].val, e.(notified := Without(e.notified, i));
    var nf := SingleNotify(note.tag, note.additional);
    assert Remove(e, id) == e1;
    if Growth(e1, nf) > 0 {
      var e2 := NotifyFirst(e1, note.tag, note.additional);
      assert Notify(e1, nf) == Advance(e2, 0, nf.tags.NextTag().1, note.additional) == e2;
    }
  }

  /** `n.additional()` notifies `n` more listeners, whoever is notified already, and marks them so. */
  lemma AdditionalAdds<Id, T>(e: EventState<Id, T>, n: nat, unit: T, i: nat)
    ensures var e', k := Notify(e, Plain(n, unit).Additional()), |e.notified|;
            && |e'.notified| == k + Min(n, |e.waiting|) && e.notified <= e'.notified
            && (k <= i < |e'.notified| ==> e'.notified[i] == Slot(e.waiting[i - k].id, Note(unit, true)))
  {
    var nf := Plain(n, unit).Additional();
    NotifyFacts(e, nf);
    if |e.notified| <= i < |e.notified| + Growth(e, nf) {
      AdvanceAt(e, Growth(e, nf), nf.tags, true, i - |e.notified|);
    }
  }

  /** Some listener of a non-empty list is notified. */
  predicate Awake<Id, T>(e: EventState<Id, T>) { |e.waiting| > 0 ==> |e.notified| > 0 }

  /** What the components rely on: dropping a listener takes it out of the list, never puts an
      awake list to sleep, and notifies at most one other. */
  lemma DropKeeps<Id, T>(e: EventState<Id, T>, id: Id)
    requires Wf(e)
    ensures var e' := DropListener(e, id);
            && Wf(e')
            && (forall x :: x in Order(e') <==> x in Order(e) && x != id)
            && |e'.notified| <= Max(|e.notified|, 1)
            && (Awake(e) ==> Awake(e'))
            && |e'.waiting| <= |e.waiting|
            && (forall x :: x in Ids(e'.waiting) ==> x in Ids(e.waiting))
  {
    DropFacts(e, id);
    Members(e);
    if id in Order(e) {
      DropCount(e, id);
      DropWaiting(e, id);
    }
  }

  lemma DropWaiting<Id, T>(e: EventState<Id, T>, id: Id)
    requires id in Order(e)
    ensures |DropListener(e, id).waiting| <= |e.waiting|
    ensures forall x :: x in Ids(DropListener(e, id).waiting) ==> x in Ids(e.waiting)
  {
    Members(e);
    if IsNotified(e, id) {
      var note := e.notified[Pos(Ids(e.notified), id)].val;
      var e1, nf := Remove(e, id), SingleNotify(note.tag, note.additional);
      AdvanceShape(e1, Growth(e1, nf), nf.tags, nf.additional);
    } else {
      IdsWithout(e.waiting, Pos(Ids(e.waiting), id));
    }
  }

  /** `usize::MAX` is enough for everyone. */
  lemma NotifyEveryone<Id, T>(e: EventState<Id, T>, nf: Notification<T>)
    requires nf.Valid() && nf.count == USIZE_MAX && |Order(e)| <= USIZE_MAX
    ensures Order(Notify(e, nf)) == Order(e) && |Notify(e, nf).waiting| == 0
    ensures e.notified <= Notify(e, nf).notified
  {
    NotifyFacts(e, nf);
  }

  // ----- the operations on the cases that come up one by one

  lemma PollNew<Id, T>(e: EventState<Id, T>, id: Id, w: Waker)
    requires id !in Order(e)
    ensures PollListener(e, id, w) == (e.(waiting := e.waiting + [Slot(id, Some(w))]), Pending)
  {
    Members(e);
    var e1 := Insert(e, id);
    InsertOrder(e, id);
    assert Ids(e1.waiting) == Ids(e.waiting) + [id];
    PosConcat(Ids(e.waiting), [id], id);
    assert e1.waiting[|e.waiting| := Slot(id, Some(w))] == e.waiting + [Slot(id, Some(w))];
  }

  lemma PollHead<Id, T>(e: EventState<Id, T>, id: Id, w: Waker)
    requires |e.notified| > 0 && e.notified[0].id == id
    ensures PollListener(e, id, w) == (e.(notified := e.notified[1..]), Ready(e.notified[0].val.tag))
  {
    assert Ids(e.notified)[0] == id;
    assert Without(e.notified, 0) == e.notified[1..];
  }

  lemma NotifyHead<Id, T>(e: EventState<Id, T>, nf: Notification<T>)
    requires nf.Valid() && nf.count == 1 && |e.notified| == 0 && |e.waiting| > 0
    ensures Notify(e, nf) == NotifyFirst(e, nf.tags.TagAt(0), nf.additional)
  {
    assert Advance(NotifyFirst(e, nf.tags.TagAt(0), nf.additional), 0, nf.tags.Drawn(1), nf.additional)
        == NotifyFirst(e, nf.tags.TagAt(0), nf.additional);
  }
}
