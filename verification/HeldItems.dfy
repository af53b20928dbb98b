/** Items that travel in the tags of notified listeners (`Event<Option<X>>`). */
module HeldItems {
  import opened Prelude
  import opened Notifications
  import opened EventModel

  function ItemOf<X>(tag: Option<X>): seq<X> { if tag.Some? then [tag.value] else [] }

  /** The items in the tags of `s`, in order. */
  function Held<Id, X>(s: seq<Slot<Id, Note<Option<X>>>>): seq<X> {
    if |s| == 0 then [] else Held(s[..|s| - 1]) + ItemOf(s[|s| - 1].val.tag)
  }

  lemma {:induction false} HeldAppend<Id, X>(a: seq<Slot<Id, Note<Option<X>>>>, b: seq<Slot<Id, Note<Option<X>>>>)
    ensures Held(a + b) == Held(a) + Held(b)
  {
    if |b| == 0 {
      assert a + b == a;
    } else {
      var init := b[..|b| - 1];
      assert (a + b)[..|a + b| - 1] == a + init;
      HeldAppend(a, init);
    }
  }

  lemma WithoutInit<A>(s: seq<A>, i: nat)
    requires i < |s|
    ensures i == |s| - 1 ==> Without(s, i) == s[..|s| - 1]
    ensures i < |s| - 1 ==> var t := Without(s, i); t[..|t| - 1] == Without(s[..|s| - 1], i) && t[|t| - 1] == s[|s| - 1]
  {
  }

  lemma {:induction false} HeldWithout<Id, X>(s: seq<Slot<Id, Note<Option<X>>>>, i: nat)
    requires i < |s|
    ensures multiset(Held(s)) == multiset(Held(Without(s, i))) + multiset(ItemOf(s[i].val.tag))
    decreases |s|
  {
    WithoutInit(s, i);
    if i < |s| - 1 {
      HeldWithout(s[..|s| - 1], i);
    }
  }

  lemma NotifyFirstHolds<Id, X>(e: EventState<Id, Option<X>>, tag: Option<X>, additional: bool)
    requires |e.waiting| > 0
    ensures Held(NotifyFirst(e, tag, additional).notified) == Held(e.notified) + ItemOf(tag)
  {
    var e' := NotifyFirst(e, tag, additional);
    HeldAppend(e.notified, [e'.notified[|e.notified|]]);
    assert e'.notified == e.notified + [e'.notified[|e.notified|]];
  }

  /** Notifications without items change nothing that is held. */
  lemma {:induction false} AdvanceWithoutItems<Id, X>(
    e: EventState<Id, Option<X>>, m: nat, calls: nat, additional: bool)
    requires m <= |e.waiting|
    ensures Held(Advance(e, m, With(NoTag<X>(), calls), additional).notified) == Held(e.notified)
    decreases m
  {
    if m > 0 {
      var e1 := NotifyFirst(e, None, additional);
      NotifyFirstHolds(e, None, additional);
      AdvanceWithoutItems(e1, m - 1, calls + 1, additional);
    }
  }

  /** `n.tag_with(|| None)`. */
  function Bare<X>(n: nat): Notification<Option<X>> { Notification(n, false, With(NoTag<X>(), 0)) }

  /** `1.tag_with(|| item.take())`. */
  function Handing<X>(item: X): Notification<Option<X>> { Notification(1, false, With(TakeOnce(item), 0)) }

  lemma BareHolds<Id, X>(e: EventState<Id, Option<X>>, n: nat)
    ensures Held(Notify(e, Bare<X>(n)).notified) == Held(e.notified)
  {
    AdvanceWithoutItems(e, Growth(e, Bare<X>(n)), 0, false);
  }

  /** A handed item is taken exactly when a listener waits and none is notified. */
  lemma HandingNotifies<Id, X>(e: EventState<Id, Option<X>>, item: X)
    ensures Growth(e, Handing(item)) == (if |e.notified| == 0 && |e.waiting| > 0 then 1 else 0)
    ensures Notify(e, Handing(item)) == if |e.notified| == 0 && |e.waiting| > 0
                                        then NotifyFirst(e, Some(item), false) else e
  {
    if |e.notified| == 0 && |e.waiting| > 0 {
      NotifyHead(e, Handing(item));
    }
  }

  /** The item a ready poll delivers is no longer held. */
  lemma PollHolds<Id, X>(e: EventState<Id, Option<X>>, id: Id, w: Waker)
    requires IsNotified(e, id)
    ensures var (e', r) := PollListener(e, id, w);
            r.Ready? && multiset(Held(e.notified)) == multiset(Held(e'.notified)) + multiset(ItemOf(r.value))
  {
    HeldWithout(e.notified, Pos(Ids(e.notified), id));
  }

  /** What the listener holds, if it is notified. */
  function TagOf<Id(==), X>(e: EventState<Id, Option<X>>, id: Id): Option<X> {
    var i := Pos(Ids(e.notified), id);
    if i < |e.notified| then e.notified[i].val.tag else None
  }

  /** What is lost when the listener is dropped: what it holds, if nobody is left to take it. */
  function LostBy<Id(==), X>(e: EventState<Id, Option<X>>, id: Id): seq<X> {
    var i := Pos(Ids(e.notified), id);
    if i == |e.notified| then []
    else
      var note := e.notified[i].val;
      if Growth(Remove(e, id), SingleNotify(note.tag, note.additional)) > 0 then [] else ItemOf(note.tag)
  }

  /** What one notified listener is asked to pass on reaches the next one, if there is a next one. */
  lemma PassedOn<Id, X>(e: EventState<Id, Option<X>>, tag: Option<X>, additional: bool)
    ensures var nf := SingleNotify(tag, additional);
            Held(Notify(e, nf).notified) == Held(e.notified) + if Growth(e, nf) > 0 then ItemOf(tag) else []
  {
    var nf := SingleNotify(tag, additional);
    if Growth(e, nf) > 0 {
      var e' := NotifyFirst(e, tag, additional);
      assert Notify(e, nf) == Advance(e', 0, nf.tags.NextTag().1, additional) == e';
      NotifyFirstHolds(e, tag, additional);
    }
  }

  lemma DropHolds<Id, X>(e: EventState<Id, Option<X>>, id: Id)
    ensures multiset(Held(e.notified)) == multiset(Held(DropListener(e, id).notified)) + multiset(LostBy(e, id))
  {
    var i := Pos(Ids(e.notified), id);
    if i < |e.notified| {
      var note := e.notified[i].val;
      HeldWithout(e.notified, i);
      PassedOn(Remove(e, id), note.tag, note.additional);
    }
  }

  /** With at most one listener notified, or none that waits, an item is lost exactly when its
      listener is dropped and no un-notified listener is left. */
  lemma LossExactly<Id, X>(e: EventState<Id, Option<X>>, id: Id)
    requires |e.notified| <= 1 || |e.waiting| == 0
    ensures LostBy(e, id) == if |e.waiting| == 0 then ItemOf(TagOf(e, id)) else []
  {
    if IsNotified(e, id) {
      RemoveNotified(e, id);
    }
  }
}
