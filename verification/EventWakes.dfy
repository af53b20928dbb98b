/** Whose wakers an event holds and calls, for the components: there a listener goes by its call,
    and every call in the list was polled. */
module EventWakes {
  import opened Prelude
  import opened Notifications
  import opened EventModel

  /** Every waiting listener holds a waker that wakes like that of its latest poll. */
  ghost predicate Alert<T>(e: EventState<nat, T>, latest: map<nat, Waker>) {
    forall j :: 0 <= j < |e.waiting| ==>
      && e.waiting[j].val.Some? && e.waiting[j].id in latest
      && WillWake(e.waiting[j].val.value, latest[e.waiting[j].id])
  }

  /** From `e` to `e'` the first of the waiting listeners were notified and no others, and for each of
      them, in order, one waker was called that wakes like that of its latest poll. */
  ghost predicate Called<T>(e: EventState<nat, T>, e': EventState<nat, T>, latest: map<nat, Waker>) {
    var k := |e'.woken| - |e.woken|;
    && 0 <= k <= |e.waiting| && e'.woken[..|e.woken|] == e.woken
    && (forall i :: 0 <= i < |e.waiting| ==> (e.waiting[i].id in Ids(e'.notified) <==> i < k))
    && (forall i :: 0 <= i < k ==>
          e.waiting[i].id in latest && WillWake(e'.woken[|e.woken| + i], latest[e.waiting[i].id]))
  }

  ghost predicate Tended<T>(e: EventState<nat, T>, e': EventState<nat, T>, latest: map<nat, Waker>) {
    Alert(e', latest) && Called(e, e', latest)
  }

  lemma Apart<T>(e: EventState<nat, T>)
    requires Wf(e)
    ensures forall i :: 0 <= i < |e.waiting| ==> e.waiting[i].id !in Ids(e.notified)
    ensures forall i, j :: 0 <= i < j < |e.waiting| ==> e.waiting[i].id != e.waiting[j].id
  {
    var q, k := Order(e), |e.notified|;
    forall i | 0 <= i < |e.waiting|
      ensures e.waiting[i].id !in Ids(e.notified)
    {
      assert q[k + i] == e.waiting[i].id;
      assert forall p :: 0 <= p < k ==> q[p] == Ids(e.notified)[p] && q[p] != q[k + i];
    }
    forall i, j | 0 <= i < j < |e.waiting|
      ensures e.waiting[i].id != e.waiting[j].id
    {
      assert q[k + i] == e.waiting[i].id && q[k + j] == e.waiting[j].id;
    }
  }

  /** Nobody is notified: no waker is called. */
  lemma Asleep<T>(e: EventState<nat, T>, e': EventState<nat, T>, latest: map<nat, Waker>)
    requires Wf(e) && e'.woken == e.woken && forall x :: x in Ids(e'.notified) ==> x in Ids(e.notified)
    ensures Called(e, e', latest)
  {
    Apart(e);
  }

  lemma ReadyTended<T>(e: EventState<nat, T>, id: nat, w: Waker, latest: map<nat, Waker>)
    requires Wf(e) && Alert(e, latest) && IsNotified(e, id)
    ensures Alert(PollListener(e, id, w).0, latest[id := w])
    ensures forall x :: x in Ids(PollListener(e, id, w).0.notified) ==> x in Ids(e.notified)
    ensures PollListener(e, id, w).0.waiting == e.waiting
  {
    Apart(e);
    PollReady(e, id, w);
    IdsWithout(e.notified, Pos(Ids(e.notified), id));
  }

  lemma PendingTended<T>(e: EventState<nat, T>, id: nat, w: Waker, latest: map<nat, Waker>)
    requires Wf(e) && Alert(e, latest) && !IsNotified(e, id)
    ensures Alert(PollListener(e, id, w).0, latest[id := w])
  {
    var e' := PollListener(e, id, w).0;
    Members(e);
    Apart(e);
    if id in Ids(e.waiting) {
      var j := Pos(Ids(e.waiting), id);
      assert e.waiting[j].id == id;
      assert e'.waiting == e.waiting[j := Slot(id, Some(Refresh(e.waiting[j].val, w)))];
    } else {
      PollNew(e, id, w);
      assert forall j :: 0 <= j < |e.waiting| ==> Ids(e.waiting)[j] == e.waiting[j].id;
    }
  }

  /** A poll calls nobody; a listener that goes on waiting holds a waker of this poll. */
  lemma PollTended<T>(e: EventState<nat, T>, id: nat, w: Waker, latest: map<nat, Waker>)
    requires Wf(e) && Alert(e, latest)
    ensures var e' := PollListener(e, id, w).0;
            && Wf(e') && Tended(e, e', latest[id := w]) && e'.woken == e.woken
            && (IsNotified(e, id) ==> e'.waiting == e.waiting)
  {
    if IsNotified(e, id) {
      PollReady(e, id, w);
      ReadyTended(e, id, w, latest);
    } else {
      PollPending(e, id, w);
      PendingTended(e, id, w, latest);
    }
    Asleep(e, PollListener(e, id, w).0, latest[id := w]);
  }

  lemma {:induction false} AdvanceWakes<T>(
    e: EventState<nat, T>, m: nat, tags: TagSource<T>, additional: bool, latest: map<nat, Waker>)
    requires Alert(e, latest) && m <= |e.waiting| && tags.CanDraw(m)
    ensures var e' := Advance(e, m, tags, additional);
            && |e'.woken| == |e.woken| + m && e'.woken[..|e.woken|] == e.woken
            && (forall i :: 0 <= i < m ==> e'.woken[|e.woken| + i] == e.waiting[i].val.value)
            && Alert(e', latest)
    decreases m
  {
    if m > 0 {
      var (tag, rest) := tags.NextTag();
      var e1 := NotifyFirst(e, tag, additional);
      assert forall j :: 0 <= j < |e1.waiting| ==> e1.waiting[j] == e.waiting[j + 1];
      AdvanceWakes(e1, m - 1, rest, additional, latest);
      var e' := Advance(e1, m - 1, rest, additional);
      assert e'.woken[..|e.woken|] == e'.woken[..|e1.woken|][..|e.woken|];
      forall i | 0 <= i < m
        ensures e'.woken[|e.woken| + i] == e.waiting[i].val.value
      {
        if i == 0 {
          assert e'.woken[|e.woken|] == e'.woken[..|e1.woken|][|e.woken|];
        } else {
          assert e'.woken[|e1.woken| + (i - 1)] == e1.waiting[i - 1].val.value;
        }
      }
    }
  }

  lemma NotifyTended<T>(e: EventState<nat, T>, nf: Notification<T>, latest: map<nat, Waker>)
    requires Wf(e) && Alert(e, latest) && nf.Valid()
    ensures Wf(Notify(e, nf)) && Tended(e, Notify(e, nf), latest)
  {
    var e', m := Notify(e, nf), Growth(e, nf);
    NotifyFacts(e, nf);
    AdvanceWakes(e, m, nf.tags, nf.additional, latest);
    forall i | 0 <= i < |e.waiting|
      ensures e.waiting[i].id in Ids(e'.notified) <==> i < m
    {
      if i < m {
        AdvanceAt(e, m, nf.tags, nf.additional, i);
        assert Ids(e'.notified)[|e.notified| + i] == e.waiting[i].id;
      } else {
        AdvanceShape(e, m, nf.tags, nf.additional);
        Apart(e');
        assert e'.waiting[i - m] == e.waiting[i];
      }
    }
  }

  /** Taking out a notified listener changes nothing for those that wait. */
  lemma SameWaiting<T>(e: EventState<nat, T>, e1: EventState<nat, T>, e2: EventState<nat, T>, latest: map<nat, Waker>)
    requires e1.waiting == e.waiting && e1.woken == e.woken && Tended(e1, e2, latest)
    ensures Tended(e, e2, latest)
  {
  }

  lemma DropNotifiedTended<T>(e: EventState<nat, T>, id: nat, latest: map<nat, Waker>)
    requires Wf(e) && Alert(e, latest) && IsNotified(e, id)
    ensures Tended(e, DropListener(e, id), latest)
  {
    var i := Pos(Ids(e.notified), id);
    var note, e1 := e.notified[i].val, e.(notified := Without(e.notified, i));
    var nf := SingleNotify(note.tag, note.additional);
    assert Remove(e, id) == e1;
    Members(e);
    RemoveFacts(e, id);
    NotifyTended(e1, nf, latest);
    SameWaiting(e, e1, Notify(e1, nf), latest);
  }

  lemma DropWaitingTended<T>(e: EventState<nat, T>, id: nat, latest: map<nat, Waker>)
    requires Wf(e) && Alert(e, latest) && !IsNotified(e, id)
    ensures Tended(e, DropListener(e, id), latest)
  {
    var j := Pos(Ids(e.waiting), id);
    if j < |e.waiting| {
      forall i | 0 <= i < |e.waiting| - 1
        ensures Without(e.waiting, j)[i] == e.waiting[if i < j then i else i + 1]
      {
        WithoutAt(e.waiting, j, i);
      }
    }
    Asleep(e, DropListener(e, id), latest);
  }

  lemma DropTended<T>(e: EventState<nat, T>, id: nat, latest: map<nat, Waker>)
    requires Wf(e) && Alert(e, latest)
    ensures Tended(e, DropListener(e, id), latest)
  {
    if IsNotified(e, id) {
      DropNotifiedTended(e, id, latest);
    } else {
      DropWaitingTended(e, id, latest);
    }
  }

  /** What a component does with a listener in one poll of a call: nothing if it is not in the list, or a
      poll, or, if that is ready, another poll at once. */
  lemma LoopTended<T>(e: EventState<nat, T>, id: nat, w: Waker, latest: map<nat, Waker>)
    requires Wf(e) && Alert(e, latest)
    ensures var e1, later := PollListener(e, id, w).0, latest[id := w];
            && Wf(e1) && Tended(e, e1, later)
            && (IsNotified(e, id) ==> Tended(e, PollListener(e1, id, w).0, later))
            && (id !in Order(e) ==> Tended(e, e, later))
  {
    var later := latest[id := w];
    PollTended(e, id, w, latest);
    if IsNotified(e, id) {
      PollTended(PollListener(e, id, w).0, id, w, later);
    }
    if id !in Order(e) {
      Members(e);
      assert forall j :: 0 <= j < |e.waiting| ==> Ids(e.waiting)[j] == e.waiting[j].id;
      Asleep(e, e, later);
    }
  }

  /** A listener that is polled, asleep, and dropped at once. */
  lemma PollAndDropTended<T>(e: EventState<nat, T>, id: nat, w: Waker, latest: map<nat, Waker>)
    requires Wf(e) && Alert(e, latest) && !IsNotified(e, id)
    ensures Tended(e, DropListener(PollListener(e, id, w).0, id), latest[id := w])
  {
    var e1 := PollListener(e, id, w).0;
    PollPending(e, id, w);
    PollTended(e, id, w, latest);
    DropTended(e1, id, latest[id := w]);
    DropCount(e1, id);
    assert DropListener(e1, id).notified == e.notified;
    Asleep(e, DropListener(e1, id), latest[id := w]);
  }
}
