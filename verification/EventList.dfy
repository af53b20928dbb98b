/** The event of `src/event.rs` as the source has it: a doubly linked list of listeners changed in
    place, with three pointers into it and two counters. */
module EventList {
  import opened Prelude
  import opened Notifications
  import opened EventModel

  datatype State<T> =
    | Created
    | Waiting(waker: Waker)
    | Notified(tag: T, additional: bool)

  /** A list entry. `Created` stands for an entry that was not polled since it was inserted. */
  datatype Entry<T> = Entry(next: Listener?<T>, prev: Listener?<T>, state: State<T>)

  /** A listener together with its list entry, which is pinned inside it and moves with it. */
  class Listener<T> {
    const event: Event<T>
    var inList: bool
    var entry: Entry<T>
    /** The position in the list, while in it. */
    ghost var index: nat

    constructor (event: Event<T>)
      requires event.Valid()
      modifies event`listeners
      ensures this.event == event && event.Valid()
      ensures event.listeners == old(event.listeners) + {this}
      ensures event.model == old(event.model) && !inList
    {
      this.event := event;
      inList, entry := false, Entry(null, null, Created);
      new;
      ghost var ns := event.nodes;
      assert forall i :: 0 <= i < |ns| ==> ns[i] in old(event.listeners);
      event.listeners := event.listeners + {this};
      forall i {:trigger ns[i].entry} | 0 <= i < |ns|
        ensures ns[i].entry.next == At(ns, i + 1) && ns[i].entry.prev == At(ns, i - 1)
        ensures ns[i].entry.state == StateAt(event.model, i) && ns[i] == IdAt(event.model, i)
      {
        assert ns[i] in old(event.listeners) && old(ns[i].entry) == ns[i].entry;
      }
    }
  }

  /** What the model says about the state cell of the entry at position `i`. */
  ghost function StateAt<Id, T>(m: EventState<Id, T>, i: nat): State<T>
    requires i < |m.notified| + |m.waiting|
  {
    if i < |m.notified| then Notified(m.notified[i].val.tag, m.notified[i].val.additional)
    else match m.waiting[i - |m.notified|].val
      case None => Created
      case Some(w) => Waiting(w)
  }

  ghost function IdAt<Id, T>(m: EventState<Id, T>, i: nat): Id
    requires i < |m.notified| + |m.waiting|
  {
    if i < |m.notified| then m.notified[i].id else m.waiting[i - |m.notified|].id
  }

  lemma InsertAt<Id, T>(m: EventState<Id, T>, id: Id)
    ensures var m' := EventModel.Insert(m, id); var n := |m.notified| + |m.waiting|;
            && (forall i :: 0 <= i < n ==> StateAt(m', i) == StateAt(m, i) && IdAt(m', i) == IdAt(m, i))
            && StateAt(m', n) == Created && IdAt(m', n) == id
  {
  }

  lemma NotifyFirstAt<Id, T>(m: EventState<Id, T>, tag: T, additional: bool)
    requires |m.waiting| > 0
    ensures var m' := NotifyFirst(m, tag, additional); var n := |m.notified| + |m.waiting|;
            && |m'.notified| + |m'.waiting| == n
            && (forall i :: 0 <= i < n ==> IdAt(m', i) == IdAt(m, i))
            && (forall i :: 0 <= i < n && i != |m.notified| ==> StateAt(m', i) == StateAt(m, i))
            && StateAt(m', |m.notified|) == Notified(tag, additional)
  {
  }

  /** `m'` is `m` without its entry at position `p`. */
  ghost predicate Shifted<Id, T>(m: EventState<Id, T>, m': EventState<Id, T>, p: nat) {
    var n := |m.notified| + |m.waiting|;
    && p < n
    && m'.woken == m.woken
    && |m'.notified| + |m'.waiting| == n - 1
    && |m'.notified| == |m.notified| - (if p < |m.notified| then 1 else 0)
    && (forall i :: 0 <= i < n - 1 ==> IdAt(m', i) == IdAt(m, if i < p then i else i + 1))
    && (forall i :: 0 <= i < n - 1 ==> StateAt(m', i) == StateAt(m, if i < p then i else i + 1))
  }

  lemma RegisterAt<Id, T>(m: EventState<Id, T>, id: Id, p: nat, w: Waker)
    requires |m.notified| <= p < |m.notified| + |m.waiting| && Pos(Ids(m.waiting), id) == p - |m.notified|
    ensures var m' := EventModel.Register(m, id, w); var n := |m.notified| + |m.waiting|;
            && m'.notified == m.notified && |m'.waiting| == |m.waiting| && m'.woken == m.woken
            && (forall i :: 0 <= i < n ==> IdAt(m', i) == IdAt(m, i))
            && (forall i :: 0 <= i < n && i != p ==> StateAt(m', i) == StateAt(m, i))
            && StateAt(m', p) == Waiting(Refresh(m.waiting[p - |m.notified|].val, w))
  {
  }

  lemma PosAt<Id, T>(m: EventState<Id, T>, id: Id, p: nat)
    requires p < |m.notified| + |m.waiting| && IdAt(m, p) == id
    requires forall i :: 0 <= i < |m.notified| + |m.waiting| && i != p ==> IdAt(m, i) != id
    ensures IsNotified(m, id) <==> p < |m.notified|
    ensures p < |m.notified| ==> Pos(Ids(m.notified), id) == p
    ensures p >= |m.notified| ==> Pos(Ids(m.waiting), id) == p - |m.notified|
  {
    forall i | 0 <= i < |m.notified| && i != p
      ensures Ids(m.notified)[i] != id
    {
      assert IdAt(m, i) != id;
    }
    forall i | 0 <= i < |m.waiting| && i != p - |m.notified|
      ensures Ids(m.waiting)[i] != id
    {
      assert IdAt(m, |m.notified| + i) != id;
    }
  }

  lemma RemoveShiftsOne<Id, T>(m: EventState<Id, T>, m': EventState<Id, T>, p: nat, i: nat)
    requires i < |m.notified| + |m.waiting| - 1 && p < |m.notified| + |m.waiting|
    requires m' == if p < |m.notified| then m.(notified := Without(m.notified, p))
                   else m.(waiting := Without(m.waiting, p - |m.notified|))
    ensures var j := if i < p then i else i + 1; IdAt(m', i) == IdAt(m, j) && StateAt(m', i) == StateAt(m, j)
  {
    var k := |m.notified|;
    if p < k && i < k - 1 {
      WithoutAt(m.notified, p, i);
    } else if p >= k && i >= k {
      WithoutAt(m.waiting, p - k, i - k);
    }
  }

  lemma RemoveShifts<Id, T>(m: EventState<Id, T>, id: Id, p: nat)
    requires p < |m.notified| + |m.waiting|
    requires IsNotified(m, id) <==> p < |m.notified|
    requires p < |m.notified| ==> Pos(Ids(m.notified), id) == p
    requires p >= |m.notified| ==> Pos(Ids(m.waiting), id) == p - |m.notified|
    ensures Shifted(m, EventModel.Remove(m, id), p)
  {
    var m' := EventModel.Remove(m, id);
    assert m' == if p < |m.notified| then m.(notified := Without(m.notified, p))
                 else m.(waiting := Without(m.waiting, p - |m.notified|));
    forall i | 0 <= i < |m.notified| + |m.waiting| - 1
      ensures var j := if i < p then i else i + 1; IdAt(m', i) == IdAt(m, j) && StateAt(m', i) == StateAt(m, j)
    {
      RemoveShiftsOne(m, m', p, i);
    }
  }

  /** The listener at position `i`, or null beyond either end. */
  ghost function At<T>(nodes: seq<Listener<T>>, i: int): Listener?<T> {
    if 0 <= i < |nodes| then nodes[i] else null
  }

  class Event<T> {
    var head: Listener?<T>
    var tail: Listener?<T>
    /** The first un-notified listener of the list. */
    var first: Listener?<T>
    /** How many listeners are notified. */
    var notified: nat
    var len: nat

    /** Every listener made for this event; `nodes` are those in the list, in order. */
    ghost var listeners: set<Listener<T>>
    ghost var nodes: seq<Listener<T>>
    ghost var model: EventState<Listener<T>, T>
    /** Every `wake` call so far. */
    ghost var wakes: seq<Waker>

    /** `next` and `prev` trace `nodes` both ways; `inList` and `index` tell where a listener is. */
    ghost predicate Linked()
      reads this, listeners
    {
      && head == At(nodes, 0) && tail == At(nodes, |nodes| - 1)
      && (forall i :: 0 <= i < |nodes| ==> nodes[i] in listeners && nodes[i].inList && nodes[i].index == i)
      && (forall i {:trigger nodes[i].entry} :: 0 <= i < |nodes| ==>
            nodes[i].entry.next == At(nodes, i + 1) && nodes[i].entry.prev == At(nodes, i - 1))
    }

    ghost predicate Registered()
      reads this, listeners
    {
      forall l :: l in listeners ==>
                    l.event == this && (l.inList ==> l.index < |nodes| && nodes[l.index] == l)
    }

    /** The two counters and `first` agree with what a scan of the list finds. */
    ghost predicate Indexed()
      reads this
    {
      && len == |nodes| == |model.notified| + |model.waiting|
      && notified == |model.notified|
      && first == At(nodes, notified)
      && wakes == model.woken
    }

    ghost predicate Marked()
      reads this, listeners
    {
      && |nodes| == |model.notified| + |model.waiting|
      && forall i {:trigger nodes[i].entry} :: 0 <= i < |nodes| && nodes[i] in listeners ==>
           nodes[i].entry.state == StateAt(model, i) && nodes[i] == IdAt(model, i)
    }

    ghost predicate Valid()
      reads this, listeners
    {
      Linked() && Registered() && Indexed() && Marked()
    }

    constructor ()
      ensures Valid() && model == Empty() && listeners == {}
    {
      head, tail, first, notified, len := null, null, null, 0, 0;
      listeners, nodes, model, wakes := {}, [], Empty(), [];
    }

    twostate lemma InsertValid(l: Listener<T>)
      requires old(Valid()) && l in listeners && old(!l.inList)
      requires listeners == old(listeners) && wakes == old(wakes)
      requires nodes == old(nodes) + [l] && model == EventModel.Insert(old(model), l)
      requires len == old(len) + 1 && notified == old(notified)
      requires tail == l && head == (if old(head) == null then l else old(head))
      requires first == if old(first) == null then l else old(first)
      requires l.entry == Entry(null, old(tail), Created) && l.inList && l.index == |old(nodes)|
      requires forall x {:trigger x.entry} :: x in listeners && x != l && x != old(tail) ==> x.entry == old(x.entry)
      requires forall x {:trigger x.inList} :: x in listeners && x != l ==> x.inList == old(x.inList)
      requires forall x {:trigger x.index} :: x in listeners && x != l ==> x.index == old(x.index)
      requires old(tail) != null ==> old(tail).entry == old(tail.entry).(next := l)
      ensures Valid()
    {
      InsertAt(old(model), l);
      var ns, n := nodes, |old(nodes)|;
      forall i {:trigger ns[i].entry} | 0 <= i < |ns|
        ensures ns[i].entry.next == At(ns, i + 1) && ns[i].entry.prev == At(ns, i - 1)
        ensures ns[i].entry.state == StateAt(model, i) && ns[i] == IdAt(model, i)
      {
        if i < n {
          assert ns[i] == old(nodes)[i] && old(nodes[i].index) == i && ns[i] != l;
          assert old(nodes[i].entry.state) == StateAt(old(model), i) && old(nodes)[i] == IdAt(old(model), i);
          assert old(nodes[i].entry.next) == At(old(nodes), i + 1);
          assert ns[i] == old(tail) <==> i == n - 1;
        }
      }
    }

    /** Append `l` to the list. */
    method Insert(l: Listener<T>)
      requires Valid() && l in listeners && !l.inList
      modifies this, listeners
      ensures Valid() && listeners == old(listeners)
      ensures model == EventModel.Insert(old(model), l)
    {
      l.entry := Entry(null, tail, Created);
      if tail == null {
        head := l;
      } else {
        tail.entry := tail.entry.(next := l);
      }
      tail := l;
      if first == null {
        first := tail;
      }
      len := len + 1;
      l.inList, l.index := true, |nodes|;
      nodes, model := nodes + [l], EventModel.Insert(model, l);
      InsertValid(l);
    }

    /** Inside a valid event, the model's order is the list, without duplicates. */
    lemma OrderIsNodes()
      requires Valid()
      ensures Order(model) == nodes && Wf(model)
      ensures forall l :: l in listeners ==> (l.inList <==> l in Order(model))
    {
      assert forall i :: 0 <= i < |nodes| ==> nodes[i].entry.state == StateAt(model, i);
      assert Distinct(nodes) by {
        assert forall i :: 0 <= i < |nodes| ==> nodes[i].index == i;
      }
    }

    twostate lemma NotifyValid(e: Listener<T>)
      requires old(Valid()) && old(first) == e && e in listeners && old(|model.waiting| > 0)
      requires listeners == old(listeners) && nodes == old(nodes)
      requires wakes == old(wakes) + if old(e.entry.state.Waiting?) then [old(e.entry.state.waker)] else []
      requires e.entry.state.Notified?
      requires model == NotifyFirst(old(model), e.entry.state.tag, e.entry.state.additional)
      requires len == old(len) && head == old(head) && tail == old(tail)
      requires notified == old(notified) + 1 && first == old(e.entry.next)
      requires e.entry == old(e.entry).(state := e.entry.state)
      requires forall x {:trigger x.entry} :: x in listeners && x != e ==> x.entry == old(x.entry)
      requires forall x {:trigger x.inList} :: x in listeners ==> x.inList == old(x.inList)
      requires forall x {:trigger x.index} :: x in listeners ==> x.index == old(x.index)
      ensures Valid()
    {
      NotifyFirstAt(old(model), e.entry.state.tag, e.entry.state.additional);
      var ns, k := nodes, old(notified);
      assert old(nodes[k].entry.state) == StateAt(old(model), k) && ns[k] == e;
      forall i {:trigger ns[i].entry} | 0 <= i < |ns|
        ensures ns[i].entry.next == At(ns, i + 1) && ns[i].entry.prev == At(ns, i - 1)
        ensures ns[i].entry.state == StateAt(model, i) && ns[i] == IdAt(model, i)
      {
        assert old(nodes[i].entry.state) == StateAt(old(model), i) && ns[i] == IdAt(old(model), i);
        assert ns[i] == e <==> i == k;
      }
    }

    /** One round of the loop of `Inner::notify`: mark the entry at `first`, wake it, move on. */
    method NotifyEntry(tag: T, additional: bool)
      requires Valid() && first != null
      modifies this, listeners
      ensures Valid() && listeners == old(listeners)
      ensures old(|model.waiting| > 0) && model == NotifyFirst(old(model), tag, additional)
    {
      var e := first;
      first := e.entry.next;
      if e.entry.state.Waiting? {
        wakes := wakes + [e.entry.state.waker];
      }
      e.entry := e.entry.(state := Notified(tag, additional));
      notified := notified + 1;
      model := NotifyFirst(model, tag, additional);
      NotifyValid(e);
    }

    /** The loop of `Inner::notify`. `n` entries are notified; `rest` is what the calls of
        `next_tag` leave of the tags. */
    method NotifyUpTo(limit: nat, tags: TagSource<T>, additional: bool) returns (n: nat, rest: TagSource<T>)
      requires Valid() && tags.CanDraw(limit)
      modifies this, listeners
      ensures Valid() && listeners == old(listeners)
      ensures model == Spread(old(model), limit, tags, additional)
      ensures n == Min(limit, |old(model).waiting|) && rest == tags.Drawn(n)
    {
      n, rest := 0, tags;
      var count := limit;
      ghost var waiting := |model.waiting|;
      while count > 0
        invariant Valid() && listeners == old(listeners)
        invariant rest == tags.Drawn(n) && rest.CanDraw(count) && n + count == limit
        invariant n <= waiting && |model.waiting| == waiting - n
        invariant Spread(model, count, rest, additional) == Spread(old(model), limit, tags, additional)
      {
        if first == null {
          break;
        }
        var (tag, left) := rest.NextTag();
        NotifyEntry(tag, additional);
        n, rest, count := n + 1, left, count - 1;
      }
    }

    /** `Inner::notify`. */
    method NotifyInner(nf: Notification<T>) returns (n: nat, rest: TagSource<T>)
      requires Valid() && nf.Valid()
      modifies this, listeners
      ensures Valid() && listeners == old(listeners)
      ensures model == EventModel.Notify(old(model), nf)
      ensures n == Growth(old(model), nf) && rest == nf.tags.Drawn(n)
    {
      var count := nf.count;
      if !nf.additional {
        if count <= notified {
          return 0, nf.tags;
        }
        count := count - notified;
      }
      n, rest := NotifyUpTo(count, nf.tags, nf.additional);
    }

    /** `Event::notify`, with its two early returns. */
    method Notify(nf: Notification<T>) returns (n: nat, rest: TagSource<T>)
      requires Valid() && nf.Valid()
      modifies this, listeners
      ensures Valid() && listeners == old(listeners)
      ensures model == EventModel.Notify(old(model), nf)
      ensures n == Growth(old(model), nf) && rest == nf.tags.Drawn(n)
    {
      if nf.additional {
        if len == 0 {
          return 0, nf.tags;
        }
      } else if notified > nf.count {
        return 0, nf.tags;
      }
      n, rest := NotifyInner(nf);
    }

    /** Where `l` stands, for the model. */
    lemma Locate(l: Listener<T>)
      requires Valid() && l in listeners && l.inList
      ensures var p := l.index;
              && p < |nodes| && l.entry.state == StateAt(model, p)
              && (IsNotified(model, l) <==> p < |model.notified|)
              && (p < |model.notified| ==> Pos(Ids(model.notified), l) == p)
              && (p >= |model.notified| ==> Pos(Ids(model.waiting), l) == p - |model.notified|)
              && Shifted(model, EventModel.Remove(model, l), p)
    {
      assert forall i :: 0 <= i < |nodes| ==> nodes[i].entry.state == StateAt(model, i) && IdAt(model, i) == nodes[i];
      PosAt(model, l, l.index);
      RemoveShifts(model, l, l.index);
    }

    /** What unlinking `l` does to the pointers, counters and entries. */
    twostate predicate Unlinked(l: Listener<T>)
      requires old(Valid()) && l in old(listeners) && old(l.inList) && listeners == old(listeners)
      reads this, listeners
    {
      var prev, next := old(l.entry.prev), old(l.entry.next);
      && old(l.index) < |old(nodes)| && nodes == Without(old(nodes), old(l.index))
      && wakes == old(wakes) && Shifted(old(model), model, old(l.index))
      && len == old(len) - 1 && notified == old(notified) - (if old(l.entry.state.Notified?) then 1 else 0)
      && head == (if prev == null then next else old(head))
      && tail == (if next == null then prev else old(tail))
      && first == (if old(first) == l then next else old(first))
      && !l.inList
      && (forall x {:trigger x.entry} :: x in listeners && x != l ==>
            x.entry == if x == prev then old(x.entry).(next := next)
                       else if x == next then old(x.entry).(prev := prev) else old(x.entry))
      && (forall x {:trigger x.inList} :: x in listeners && x != l ==> x.inList == old(x.inList))
      && (forall x {:trigger x.index} :: x in listeners && x != l ==>
            x.index == old(if x.inList && x.index > l.index then x.index - 1 else x.index))
    }

    twostate lemma RemoveCounted(l: Listener<T>)
      requires old(Valid()) && l in listeners && old(l.inList) && listeners == old(listeners) && Unlinked(l)
      ensures |nodes| == |model.notified| + |model.waiting|
      ensures len == |nodes| && notified == |model.notified| && wakes == model.woken
    {
      assert old(l.entry.state) == old(nodes[l.index].entry.state) == StateAt(old(model), old(l.index));
    }

    twostate lemma RemoveMarked(l: Listener<T>)
      requires old(Valid()) && l in listeners && old(l.inList) && listeners == old(listeners) && Unlinked(l)
      ensures Marked()
    {
      RemoveCounted(l);
      var ns, o, p := nodes, old(nodes), old(l.index);
      forall i {:trigger ns[i].entry} | 0 <= i < |ns|
        ensures ns[i].entry.state == StateAt(model, i) && ns[i] == IdAt(model, i)
      {
        var j := if i < p then i else i + 1;
        assert ns[i] == o[j] && old(o[j].entry.state) == StateAt(old(model), j) && o[j] == IdAt(old(model), j);
        assert old(o[j].index) == j && ns[i] != l;
        assert ns[i].entry.state == old(ns[i].entry.state);
        assert StateAt(model, i) == StateAt(old(model), j) && IdAt(model, i) == IdAt(old(model), j);
      }
    }

    twostate lemma RemoveLinked(l: Listener<T>)
      requires old(Valid()) && l in listeners && old(l.inList) && listeners == old(listeners) && Unlinked(l)
      ensures Linked()
    {
      var ns, o, p: int := nodes, old(nodes), old(l.index);
      assert o[p] == l && old(l.entry.prev) == At(o, p - 1) && old(l.entry.next) == At(o, p + 1);
      forall i {:trigger ns[i].entry} | 0 <= i < |ns|
        ensures ns[i].entry.next == At(ns, i + 1) && ns[i].entry.prev == At(ns, i - 1)
      {
        var j := if i < p then i else i + 1;
        assert ns[i] == o[j] && old(o[j].index) == j;
        assert old(o[j].entry.next) == At(o, j + 1) && old(o[j].entry.prev) == At(o, j - 1);
        assert o[j] == old(l.entry.prev) <==> j == p - 1;
        assert o[j] == old(l.entry.next) <==> j == p + 1;
      }
    }

    twostate lemma RemoveValid(l: Listener<T>)
      requires old(Valid()) && l in listeners && old(l.inList) && listeners == old(listeners) && Unlinked(l)
      ensures Valid()
    {
      RemoveCounted(l);
      RemoveMarked(l);
      RemoveLinked(l);
      assert Registered();
    }

    /** The pointer surgery of `Listener::remove`; what the state of the entry was. */
    method Detach(l: Listener<T>) returns (state: State<T>)
      requires Valid() && l in listeners && l.inList && (l.entry.state.Notified? ==> notified > 0)
      modifies this`head, this`tail, this`first, this`len, this`notified, listeners`entry, l`inList
      ensures var prev, next := old(l.entry.prev), old(l.entry.next);
              && head == (if prev == null then next else old(head))
              && tail == (if next == null then prev else old(tail))
              && first == (if old(first) == l then next else old(first))
              && (forall x {:trigger x.entry} :: x in listeners && x != l ==>
                    x.entry == if x == prev then old(x.entry).(next := next)
                               else if x == next then old(x.entry).(prev := prev) else old(x.entry))
      ensures state == old(l.entry.state) && l.entry == Entry(null, null, Created) && !l.inList
      ensures len == old(len) - 1 && notified == old(notified) - (if state.Notified? then 1 else 0)
    {
      var prev, next := l.entry.prev, l.entry.next;
      assert prev == At(nodes, l.index - 1) && next == At(nodes, l.index + 1);
      if prev == null {
        head := next;
      } else {
        prev.entry := prev.entry.(next := next);
      }
      if next == null {
        tail := prev;
      } else {
        next.entry := next.entry.(prev := prev);
      }
      if first == l {
        first := next;
      }
      state := l.entry.state;
      l.entry := Entry(null, null, Created);
      len, l.inList := len - 1, false;
      if state.Notified? {
        notified := notified - 1;
      }
    }

    ghost method Renumber(p: nat)
      modifies listeners`index
      ensures forall x {:trigger x.index} :: x in listeners ==>
                x.index == old(if x.inList && x.index > p then x.index - 1 else x.index)
    {
      forall x | x in listeners && x.inList && x.index > p {
        x.index := x.index - 1;
      }
    }

    /** Unlink `l`; what its state was. */
    method Unlink(l: Listener<T>) returns (state: State<T>)
      requires Valid() && l in listeners && l.inList
      modifies this, listeners
      ensures Valid() && listeners == old(listeners)
      ensures model == EventModel.Remove(old(model), l)
      ensures state == old(l.entry.state)
    {
      Locate(l);
      ghost var rest, m := Without(nodes, l.index), EventModel.Remove(model, l);
      state := Detach(l);
      Renumber(l.index);
      nodes, model := rest, m;
      RemoveValid(l);
    }

    /** Remove `l` from the list. Its unconsumed notification is returned, or, if `propagate`,
        handed to another listener. */
    method Remove(l: Listener<T>, propagate: bool) returns (r: Option<T>)
      requires Valid() && l in listeners && l.inList
      modifies this, listeners
      ensures Valid() && listeners == old(listeners)
      ensures propagate ==> r == None && model == DropListener(old(model), l)
      ensures !propagate ==> model == EventModel.Remove(old(model), l)
      ensures !propagate ==> r == if IsNotified(old(model), l)
                                  then Some(old(model).notified[Pos(Ids(old(model).notified), l)].val.tag) else None
    {
      Locate(l);
      var state := Unlink(l);
      if state.Notified? && propagate {
        var n, rest := NotifyInner(SingleNotify(state.tag, state.additional));
        return None;
      }
      return if state.Notified? then Some(state.tag) else None;
    }

    twostate lemma RegisterValid(l: Listener<T>)
      requires old(Valid()) && l in listeners && old(l.inList)
      requires listeners == old(listeners) && nodes == old(nodes) && wakes == old(wakes)
      requires head == old(head) && tail == old(tail) && first == old(first)
      requires len == old(len) && notified == old(notified)
      requires l.entry == old(l.entry).(state := l.entry.state)
      requires model.woken == old(model.woken) && model.notified == old(model.notified)
      requires |model.waiting| == |old(model).waiting|
      requires forall i :: 0 <= i < |nodes| ==> IdAt(model, i) == IdAt(old(model), i)
      requires forall i :: 0 <= i < |nodes| ==>
                 StateAt(model, i) == if i == old(l.index) then l.entry.state else StateAt(old(model), i)
      requires forall x {:trigger x.entry} :: x in listeners && x != l ==> x.entry == old(x.entry)
      requires forall x {:trigger x.inList} :: x in listeners ==> x.inList == old(x.inList)
      requires forall x {:trigger x.index} :: x in listeners ==> x.index == old(x.index)
      ensures Valid()
    {
      forall i {:trigger nodes[i].entry} | 0 <= i < |nodes|
        ensures nodes[i].entry.state == StateAt(model, i) && nodes[i] == IdAt(model, i)
      {
        assert old(nodes[i].entry.state) == StateAt(old(model), i) && nodes[i] == IdAt(old(model), i);
        assert nodes[i] == l <==> i == old(l.index);
      }
    }

    /** `Listener::register`: a notified listener leaves the list with its tag, any other keeps a
        waker for the polling task. */
    method Register(l: Listener<T>, w: Waker) returns (r: Poll<T>)
      requires Valid() && l in listeners && l.inList
      modifies this, listeners
      ensures Valid() && listeners == old(listeners)
      ensures (model, r) == if IsNotified(old(model), l)
                            then (EventModel.Remove(old(model), l),
                                  Ready(old(model).notified[Pos(Ids(old(model).notified), l)].val.tag))
                            else (EventModel.Register(old(model), l, w), Pending)
    {
      Locate(l);
      if l.entry.state.Notified? {
        var tag := Remove(l, false);
        return Ready(tag.value);
      }
      Rearm(l, w);
      return Pending;
    }

    /** An un-notified entry keeps its waker if that wakes the same task, and takes the new one if not. */
    method Rearm(l: Listener<T>, w: Waker)
      requires Valid() && l in listeners && l.inList && !l.entry.state.Notified?
      modifies this`model, l`entry
      ensures Valid() && model == EventModel.Register(old(model), l, w)
    {
      Locate(l);
      RegisterAt(model, l, l.index, w);
      var held := match l.entry.state case Waiting(task) => Some(task) case _ => None;
      l.entry := l.entry.(state := Waiting(Refresh(held, w)));
      model := EventModel.Register(model, l, w);
      RegisterValid(l);
    }

    /** `Listener::poll`. */
    method Poll(l: Listener<T>, w: Waker) returns (r: Poll<T>)
      requires Valid() && l in listeners
      modifies this, listeners
      ensures Valid() && listeners == old(listeners)
      ensures (model, r) == PollListener(old(model), l, w)
    {
      OrderIsNodes();
      Members(model);
      if !l.inList {
        Insert(l);
        OrderIsNodes();
        Members(model);
      }
      r := Register(l, w);
    }

    /** `EventListener::listen`: put the listener in the list without polling it. */
    method Listen(l: Listener<T>)
      requires Valid() && l in listeners
      modifies this, listeners
      ensures Valid() && listeners == old(listeners)
      ensures model == if l in Order(old(model)) then old(model) else EventModel.Insert(old(model), l)
    {
      OrderIsNodes();
      if !l.inList {
        Insert(l);
      }
    }

    /** `Drop` of a listener: if it is in the list, it passes an unconsumed notification on. */
    method Drop(l: Listener<T>)
      requires Valid() && l in listeners
      modifies this, listeners
      ensures Valid() && listeners == old(listeners)
      ensures model == DropListener(old(model), l)
    {
      OrderIsNodes();
      Members(model);
      if l.inList {
        var r := Remove(l, true);
      }
    }

    /** What a caller needs to know before it polls `l`: a ready poll leaves `l` out of the list. */
    lemma Tidy(l: Listener<T>, w: Waker)
      requires Valid() && l in listeners
      ensures l.inList <==> l in Order(model)
      ensures IsNotified(model, l) ==> l in Order(model)
      ensures var (e, r) := PollListener(model, l, w);
              (r.Ready? <==> IsNotified(model, l)) && (r.Ready? ==> l !in Order(e) && !IsNotified(e, l))
    {
      OrderIsNodes();
      Members(model);
      if IsNotified(model, l) {
        PollReady(model, l, w);
        Members(PollListener(model, l, w).0);
      } else {
        PollPending(model, l, w);
      }
    }

    // ----- what the pointers alone say

    /** Follow `next` from `l`, at most `fuel` entries. */
    ghost function Forward(l: Listener?<T>, fuel: nat): seq<Listener<T>>
      reads this, listeners
      decreases fuel
    {
      if l == null || fuel == 0 || l !in listeners then [] else [l] + Forward(l.entry.next, fuel - 1)
    }

    /** Follow `prev` from `l`, at most `fuel` entries; the last one met comes first. */
    ghost function Backward(l: Listener?<T>, fuel: nat): seq<Listener<T>>
      reads this, listeners
      decreases fuel
    {
      if l == null || fuel == 0 || l !in listeners then [] else Backward(l.entry.prev, fuel - 1) + [l]
    }

    lemma {:induction false} ForwardFrom(i: nat, fuel: nat)
      requires Valid() && i <= |nodes| && fuel >= |nodes| - i
      ensures Forward(At(nodes, i), fuel) == nodes[i..]
      decreases |nodes| - i
    {
      if i < |nodes| {
        assert nodes[i].entry.next == At(nodes, i + 1);
        ForwardFrom(i + 1, fuel - 1);
      }
    }

    lemma {:induction false} BackwardFrom(i: nat, fuel: nat)
      requires Valid() && i <= |nodes| && fuel >= i
      ensures Backward(At(nodes, i - 1), fuel) == nodes[..i]
      decreases i
    {
      if i > 0 {
        assert nodes[i - 1].entry.prev == At(nodes, i - 2);
        BackwardFrom(i - 1, fuel - 1);
      }
    }

    /** However far one follows them, `next` from `head` and `prev` from `tail` trace the same
        finite sequence without duplicates: `len` long, its first `notified` entries notified and
        no others, `first` the one after them, `inList` true of its members alone. */
    lemma PointersTraceTheList(fuel: nat)
      requires Valid() && fuel >= len
      ensures Forward(head, fuel) == Backward(tail, fuel) == nodes == Order(model)
      ensures Distinct(nodes) && len == |nodes|
      ensures forall i {:trigger nodes[i].entry} :: 0 <= i < len ==> nodes[i] in listeners && (nodes[i].entry.state.Notified? <==> i < notified)
      ensures notified <= len && first == At(nodes, notified)
      ensures forall l :: l in listeners ==> (l.inList <==> l in nodes)
    {
      assert Forward(head, fuel) == nodes by {
        ForwardFrom(0, fuel);
      }
      assert Backward(tail, fuel) == nodes by {
        BackwardFrom(len, fuel);
      }
      forall i {:trigger nodes[i].entry} | 0 <= i < len
        ensures nodes[i] in listeners && (nodes[i].entry.state.Notified? <==> i < notified)
      {
        assert nodes[i].entry.state == StateAt(model, i);
      }
      OrderIsNodes();
      assert first == At(nodes, notified);
    }
  }
}
