/** Every run of one event: insertions numbered by tickets, the order in which they are notified,
    the wakers that are called, and where the tags go. */
module EventRuns {
  import opened Prelude
  import opened Notifications
  import opened EventModel

  /** A listener goes by the ticket of its insertion; `next` is the next one. `order` logs the
      tickets as they are notified, for the first time or by a dropped listener; `latest` is the
      waker of each one's latest pending poll. `issued` logs the answers of `next_tag` to callers of
      `notify`, each with the kind of the notification, `ready` those polls returned, with the kind the
      listener was notified with, `discarded` those nobody was left to take. */
  datatype State<T> = State(
    ev: EventState<nat, T>, next: nat, order: seq<nat>, latest: map<nat, Waker>,
    issued: seq<Note<T>>, ready: seq<Note<T>>, discarded: seq<Note<T>>)

  datatype Action<T> =
    | Listen
    | PollNew(w: Waker)
    | Poll(ticket: nat, w: Waker)
    | NotifyAll(nf: Notification<T>)
    | Drop(ticket: nat)

  function Init<T>(): State<T> { State(Empty(), 0, [], map[], [], [], []) }

  /** One listener is notified. */
  function One<T>(s: State<T>, tag: T, additional: bool): State<T>
    requires |s.ev.waiting| > 0
  {
    s.(ev := NotifyFirst(s.ev, tag, additional), order := s.order + [s.ev.waiting[0].id])
  }

  function Several<T>(s: State<T>, m: nat, tags: TagSource<T>, additional: bool): State<T>
    requires m <= |s.ev.waiting| && tags.CanDraw(m)
    decreases |s.ev.waiting|
  {
    if m == 0 then s
    else var (tag, rest) := tags.NextTag(); Several(One(s, tag, additional), m - 1, rest, additional)
  }

  /** The first `m` answers of `next_tag`. */
  function Draws<T>(tags: TagSource<T>, m: nat): seq<T>
    requires tags.CanDraw(m)
    decreases m
  {
    if m == 0 then [] else var (tag, rest) := tags.NextTag(); [tag] + Draws(rest, m - 1)
  }

  function Marked<T>(tags: seq<T>, additional: bool): (r: seq<Note<T>>)
    ensures |r| == |tags|
    ensures forall i :: 0 <= i < |r| ==> r[i] == Note(tags[i], additional)
  {
    seq(|tags|, i requires 0 <= i < |tags| => Note(tags[i], additional))
  }

  /** A closure answers each call anew: its first answer to the first listener, its second to the second. */
  lemma {:induction false} DrawsOfClosure<T>(f: nat -> T, calls: nat, m: nat)
    ensures |Draws(With(f, calls), m)| == m
    ensures forall i :: 0 <= i < m ==> Draws(With(f, calls), m)[i] == f(calls + i)
    decreases m
  {
    if m > 0 {
      DrawsOfClosure(f, calls + 1, m - 1);
      assert With(f, calls).NextTag() == (f(calls), With(f, calls + 1));
      forall i | 0 <= i < m
        ensures Draws(With(f, calls), m)[i] == f(calls + i)
      {
        if i > 0 {
          assert Draws(With(f, calls), m)[i] == Draws(With(f, calls + 1), m - 1)[i - 1];
        }
      }
    }
  }

  function StepNotify<T>(s: State<T>, nf: Notification<T>): State<T>
    requires nf.Valid()
  {
    var m := Growth(s.ev, nf);
    Several(s, m, nf.tags, nf.additional).(issued := s.issued + Marked(Draws(nf.tags, m), nf.additional))
  }

  function StepPoll<T>(s: State<T>, ticket: nat, w: Waker): State<T> {
    var (e, r) := PollListener(s.ev, ticket, w);
    match r
    case Pending => s.(ev := e, latest := s.latest[ticket := w])
    case Ready(tag) =>
      s.(ev := e, ready := s.ready + [Note(tag, s.ev.notified[Pos(Ids(s.ev.notified), ticket)].val.additional)])
  }

  function StepDrop<T>(s: State<T>, ticket: nat): State<T> {
    var i := Pos(Ids(s.ev.notified), ticket);
    var s1 := s.(ev := Remove(s.ev, ticket));
    if i == |s.ev.notified| then s1
    else
      var note := s.ev.notified[i].val;
      if Growth(s1.ev, SingleNotify(note.tag, note.additional)) == 0 then s1.(discarded := s.discarded + [note])
      else One(s1, note.tag, note.additional)
  }

  /** One action; one that is not possible changes nothing. */
  function Step<T>(s: State<T>, a: Action<T>): State<T> {
    match a
    case Listen => s.(ev := Insert(s.ev, s.next), next := s.next + 1)
    case PollNew(w) => StepPoll(s.(ev := Insert(s.ev, s.next), next := s.next + 1), s.next, w)
    case Poll(ticket, w) => if ticket in Order(s.ev) then StepPoll(s, ticket, w) else s
    case NotifyAll(nf) => if nf.Valid() then StepNotify(s, nf) else s
    case Drop(ticket) => if ticket in Order(s.ev) then StepDrop(s, ticket) else s
  }

  function Run<T>(s: State<T>, acts: seq<Action<T>>): State<T>
    decreases |acts|
  {
    if |acts| == 0 then s else Run(Step(s, acts[0]), acts[1..])
  }

  // ----- the logged steps are the operations of the event

  lemma {:induction false} SeveralAdvance<T>(s: State<T>, m: nat, tags: TagSource<T>, additional: bool)
    requires m <= |s.ev.waiting| && tags.CanDraw(m)
    ensures Several(s, m, tags, additional).ev == Advance(s.ev, m, tags, additional)
    decreases m
  {
    if m > 0 {
      var (tag, rest) := tags.NextTag();
      SeveralAdvance(One(s, tag, additional), m - 1, rest, additional);
    }
  }

  /** The logs ride along: the event itself moves by `notify`, `poll` and `drop`. */
  lemma LogsFollowTheEvent<T>(s: State<T>, nf: Notification<T>, ticket: nat, w: Waker)
    ensures nf.Valid() ==> StepNotify(s, nf).ev == Notify(s.ev, nf)
    ensures StepPoll(s, ticket, w).ev == PollListener(s.ev, ticket, w).0
    ensures StepDrop(s, ticket).ev == DropListener(s.ev, ticket)
  {
    if nf.Valid() {
      SeveralAdvance(s, Growth(s.ev, nf), nf.tags, nf.additional);
    }
    if IsNotified(s.ev, ticket) {
      var note := s.ev.notified[Pos(Ids(s.ev.notified), ticket)].val;
      var e1, single := Remove(s.ev, ticket), SingleNotify(note.tag, note.additional);
      if Growth(e1, single) > 0 {
        assert Notify(e1, single) == Advance(NotifyFirst(e1, note.tag, note.additional), 0, Once(None), note.additional);
      }
    }
  }

  // ----- tickets are notified in order

  ghost predicate Increasing(s: seq<nat>) { forall i, j :: 0 <= i < j < |s| ==> s[i] < s[j] }

  /** What was notified, and behind it what waits: one increasing sequence of tickets. */
  function Line<T>(s: State<T>): seq<nat> { s.order + Ids(s.ev.waiting) }

  ghost predicate Ticketed<T>(s: State<T>) {
    && Increasing(Line(s)) && (forall x :: x in Line(s) ==> x < s.next)
    && Increasing(Ids(s.ev.notified))
    && (forall x :: x in Ids(s.ev.notified) ==> x in s.order)
  }

  /** A part of the front, with the whole back, increases too; and the front stays below the back. */
  lemma IncreasingParts(front: seq<nat>, back: seq<nat>, part: seq<nat>)
    requires Increasing(front + back) && Increasing(part) && forall x :: x in part ==> x in front
    ensures Increasing(part + back)
    ensures forall x, y :: x in front && y in back ==> x < y
  {
    var line := front + back;
    forall x, y | x in front && y in back
      ensures x < y
    {
      var i, j := Pos(front, x), Pos(back, y);
      assert line[i] == x && line[|front| + j] == y;
    }
    forall i, j | 0 <= i < j < |part + back|
      ensures (part + back)[i] < (part + back)[j]
    {
      if i < |part| <= j {
        assert part[i] in front && back[j - |part|] in back;
      } else if |part| <= i {
        assert line[|front| + i - |part|] == back[i - |part|] && line[|front| + j - |part|] == back[j - |part|];
      }
    }
  }

  lemma TicketedIsWf<T>(s: State<T>)
    requires Ticketed(s)
    ensures Wf(s.ev)
    ensures forall x :: x in Order(s.ev) ==> x < s.next
    ensures forall x :: x in Ids(s.ev.waiting) ==> x !in s.order
  {
    var n, w := Ids(s.ev.notified), Ids(s.ev.waiting);
    IncreasingParts(s.order, w, n);
    Members(s.ev);
    assert forall x :: x in n || x in w ==> x in Line(s);
  }

  lemma Regroup(front: seq<nat>, t: nat, back: seq<nat>)
    ensures front + [t] + back == front + ([t] + back)
  {
  }

  lemma OneLine<T>(s: State<T>, tag: T, additional: bool)
    requires |s.ev.waiting| > 0
    ensures var s', t := One(s, tag, additional), s.ev.waiting[0].id;
            && Line(s') == Line(s) && s'.order == s.order + [t]
            && Ids(s'.ev.notified) == Ids(s.ev.notified) + [t] && Ids(s.ev.waiting) == [t] + Ids(s'.ev.waiting)
  {
    var s', t := One(s, tag, additional), s.ev.waiting[0].id;
    var rest := Ids(s'.ev.waiting);
    assert Ids(s.ev.waiting) == [t] + rest;
    assert Ids(s'.ev.notified) == Ids(s.ev.notified) + [t];
    Regroup(s.order, t, rest);
  }

  /** The next one in line goes to the end of an increasing part of what is in front of it. */
  lemma IncreasingNext(front: seq<nat>, t: nat, back: seq<nat>, part: seq<nat>)
    requires Increasing(front + ([t] + back)) && Increasing(part) && forall x :: x in part ==> x in front
    ensures Increasing(part + [t])
    ensures forall x :: x in part + [t] ==> x in front + [t]
  {
    IncreasingParts(front, [t] + back, part);
    assert t in [t] + back;
    assert forall i :: 0 <= i < |part| ==> part[i] in part;
  }

  lemma OneTicketed<T>(s: State<T>, tag: T, additional: bool)
    requires Ticketed(s) && |s.ev.waiting| > 0
    ensures Ticketed(One(s, tag, additional)) && Line(One(s, tag, additional)) == Line(s)
  {
    var s' := One(s, tag, additional);
    OneLine(s, tag, additional);
    IncreasingNext(s.order, s.ev.waiting[0].id, Ids(s'.ev.waiting), Ids(s.ev.notified));
  }

  lemma {:induction false} SeveralTicketed<T>(s: State<T>, m: nat, tags: TagSource<T>, additional: bool)
    requires Ticketed(s) && m <= |s.ev.waiting| && tags.CanDraw(m)
    ensures Ticketed(Several(s, m, tags, additional))
    decreases m
  {
    if m > 0 {
      var (tag, rest) := tags.NextTag();
      OneTicketed(s, tag, additional);
      SeveralTicketed(One(s, tag, additional), m - 1, rest, additional);
    }
  }

  ghost predicate Part(t: seq<nat>, s: seq<nat>) { Increasing(t) && forall x :: x in t ==> x in s }

  lemma PartWithout(s: seq<nat>, i: nat)
    requires Increasing(s) && i < |s|
    ensures Part(Without(s, i), s)
  {
    forall a, b | 0 <= a < b < |s| - 1
      ensures Without(s, i)[a] < Without(s, i)[b]
    {
      WithoutAt(s, i, a);
      WithoutAt(s, i, b);
    }
  }

  lemma InsertTicketed<T>(s: State<T>)
    requires Ticketed(s)
    ensures Ticketed(s.(ev := Insert(s.ev, s.next), next := s.next + 1))
  {
    var s' := s.(ev := Insert(s.ev, s.next), next := s.next + 1);
    InsertOrder(s.ev, s.next);
    assert Line(s') == Line(s) + [s.next];
    assert forall i :: 0 <= i < |Line(s)| ==> Line(s)[i] in Line(s);
  }

  lemma RemoveLine<T>(s: State<T>, ticket: nat)
    ensures var s' := s.(ev := Remove(s.ev, ticket)); var n, line := Ids(s.ev.notified), Line(s);
            if IsNotified(s.ev, ticket) then Ids(s'.ev.notified) == Without(n, Pos(n, ticket)) && Line(s') == line
            else
              var j := |s.order| + Pos(Ids(s.ev.waiting), ticket);
              Ids(s'.ev.notified) == n && Line(s') == if j < |line| then Without(line, j) else line
  {
    if IsNotified(s.ev, ticket) {
      IdsWithout(s.ev.notified, Pos(Ids(s.ev.notified), ticket));
    } else {
      var w := Ids(s.ev.waiting);
      var j := Pos(w, ticket);
      if j < |w| {
        IdsWithout(s.ev.waiting, j);
        WithoutRight(s.order, w, j);
      }
    }
  }

  lemma FewerTicketed<T>(s: State<T>, s': State<T>)
    requires Ticketed(s) && s'.order == s.order && s'.next == s.next
    requires Part(Line(s'), Line(s)) && Part(Ids(s'.ev.notified), Ids(s.ev.notified))
    ensures Ticketed(s')
  {
  }

  lemma RemoveTicketed<T>(s: State<T>, ticket: nat)
    requires Ticketed(s)
    ensures Ticketed(s.(ev := Remove(s.ev, ticket)))
  {
    RemoveLine(s, ticket);
    var n, line, j := Ids(s.ev.notified), Line(s), |s.order| + Pos(Ids(s.ev.waiting), ticket);
    assert Part(n, n) && Part(line, line);
    if IsNotified(s.ev, ticket) {
      PartWithout(n, Pos(n, ticket));
    } else if j < |line| {
      PartWithout(line, j);
    }
    FewerTicketed(s, s.(ev := Remove(s.ev, ticket)));
  }

  lemma PollTicketed<T>(s: State<T>, ticket: nat, w: Waker)
    requires Ticketed(s) && ticket in Order(s.ev)
    ensures Ticketed(StepPoll(s, ticket, w))
  {
    Members(s.ev);
    if IsNotified(s.ev, ticket) {
      RemoveTicketed(s, ticket);
    } else {
      RegisterOrder(s.ev, ticket, w);
    }
  }

  lemma DropTicketed<T>(s: State<T>, ticket: nat)
    requires Ticketed(s)
    ensures Ticketed(StepDrop(s, ticket))
  {
    RemoveTicketed(s, ticket);
    var i := Pos(Ids(s.ev.notified), ticket);
    if i < |s.ev.notified| {
      var note, s1 := s.ev.notified[i].val, s.(ev := Remove(s.ev, ticket));
      if Growth(s1.ev, SingleNotify(note.tag, note.additional)) > 0 {
        OneTicketed(s1, note.tag, note.additional);
      }
    }
  }

  lemma PollNewTicketed<T>(s: State<T>, w: Waker)
    requires Ticketed(s)
    ensures Ticketed(Step(s, PollNew(w)))
  {
    InsertTicketed(s);
    InsertOrder(s.ev, s.next);
    PollTicketed(s.(ev := Insert(s.ev, s.next), next := s.next + 1), s.next, w);
  }

  lemma NotifyTicketed<T>(s: State<T>, nf: Notification<T>)
    requires Ticketed(s)
    ensures Ticketed(Step(s, NotifyAll(nf)))
  {
    if nf.Valid() {
      SeveralTicketed(s, Growth(s.ev, nf), nf.tags, nf.additional);
    }
  }

  lemma StepTicketed<T>(s: State<T>, a: Action<T>)
    requires Ticketed(s)
    ensures Ticketed(Step(s, a))
  {
    match a
    case Listen => InsertTicketed(s);
    case PollNew(w) => PollNewTicketed(s, w);
    case Poll(ticket, w) => if ticket in Order(s.ev) { PollTicketed(s, ticket, w); }
    case NotifyAll(nf) => NotifyTicketed(s, nf);
    case Drop(ticket) => DropTicketed(s, ticket);
  }

  // ----- each notified listener that was polled has one waker called

  /** For each ticket of `order` that was ever polled, the waker of its latest pending poll. */
  function Calls(order: seq<nat>, latest: map<nat, Waker>): seq<Waker> {
    if |order| == 0 then []
    else
      var init, t := order[..|order| - 1], order[|order| - 1];
      Calls(init, latest) + if t in latest then [latest[t]] else []
  }

  /** The wakers of `called` are those of `latest`, one by one, as far as `will_wake` tells. */
  ghost predicate Answers(called: seq<Waker>, latest: seq<Waker>) {
    |called| == |latest| && forall i :: 0 <= i < |called| ==> WillWake(called[i], latest[i])
  }

  /** A waiting entry holds a waker that wakes like that of its latest poll, if it was polled. */
  ghost predicate Armed<T>(s: State<T>) {
    forall j :: 0 <= j < |s.ev.waiting| ==>
      match s.ev.waiting[j].val
      case None => s.ev.waiting[j].id !in s.latest
      case Some(w) => s.ev.waiting[j].id in s.latest && WillWake(w, s.latest[s.ev.waiting[j].id])
  }

  ghost predicate Woken<T>(s: State<T>) {
    && Armed(s) && Answers(s.ev.woken, Calls(s.order, s.latest))
    && (forall t :: t in s.latest ==> t < s.next)
  }

  lemma {:induction false} CallsFrame(order: seq<nat>, latest: map<nat, Waker>, t: nat, w: Waker)
    requires t !in order
    ensures Calls(order, latest[t := w]) == Calls(order, latest)
    decreases |order|
  {
    if |order| > 0 {
      assert order[|order| - 1] in order;
      CallsFrame(order[..|order| - 1], latest, t, w);
    }
  }

  lemma AnswersMore(called: seq<Waker>, latest: seq<Waker>, called': seq<Waker>, latest': seq<Waker>)
    requires Answers(called, latest) && Answers(called', latest')
    ensures Answers(called + called', latest + latest')
  {
  }

  lemma OneWoken<T>(s: State<T>, tag: T, additional: bool)
    requires Woken(s) && |s.ev.waiting| > 0
    ensures Woken(One(s, tag, additional))
  {
    var s', first := One(s, tag, additional), s.ev.waiting[0];
    AnswersMore(s.ev.woken, Calls(s.order, s.latest), WakerOf(first.val),
                if first.id in s.latest then [s.latest[first.id]] else []);
    assert Armed(s') by {
      assert forall j :: 0 <= j < |s'.ev.waiting| ==> s'.ev.waiting[j] == s.ev.waiting[j + 1];
    }
  }

  lemma {:induction false} SeveralWoken<T>(s: State<T>, m: nat, tags: TagSource<T>, additional: bool)
    requires Woken(s) && m <= |s.ev.waiting| && tags.CanDraw(m)
    ensures Woken(Several(s, m, tags, additional))
    decreases m
  {
    if m > 0 {
      var (tag, rest) := tags.NextTag();
      OneWoken(s, tag, additional);
      SeveralWoken(One(s, tag, additional), m - 1, rest, additional);
    }
  }

  lemma RemoveWoken<T>(s: State<T>, ticket: nat)
    requires Woken(s)
    ensures Woken(s.(ev := Remove(s.ev, ticket)))
  {
    var j := Pos(Ids(s.ev.waiting), ticket);
    if j < |s.ev.waiting| && !IsNotified(s.ev, ticket) {
      forall k | 0 <= k < |s.ev.waiting| - 1
        ensures Without(s.ev.waiting, j)[k] == s.ev.waiting[if k < j then k else k + 1]
      {
        WithoutAt(s.ev.waiting, j, k);
      }
    }
  }

  lemma PollWoken<T>(s: State<T>, ticket: nat, w: Waker)
    requires Woken(s) && Ticketed(s) && ticket in Order(s.ev)
    ensures Woken(StepPoll(s, ticket, w))
  {
    Members(s.ev);
    TicketedIsWf(s);
    if IsNotified(s.ev, ticket) {
      RemoveWoken(s, ticket);
    } else {
      var j := Pos(Ids(s.ev.waiting), ticket);
      CallsFrame(s.order, s.latest, ticket, w);
      forall k | 0 <= k < |s.ev.waiting| && k != j
        ensures s.ev.waiting[k].id != ticket
      {
        assert Order(s.ev)[|s.ev.notified| + k] != Order(s.ev)[|s.ev.notified| + j];
      }
    }
  }

  lemma InsertWoken<T>(s: State<T>)
    requires Woken(s)
    ensures Woken(s.(ev := Insert(s.ev, s.next), next := s.next + 1))
  {
  }

  lemma DropWoken<T>(s: State<T>, ticket: nat)
    requires Woken(s)
    ensures Woken(StepDrop(s, ticket))
  {
    RemoveWoken(s, ticket);
    var i := Pos(Ids(s.ev.notified), ticket);
    if i < |s.ev.notified| {
      var note, s1 := s.ev.notified[i].val, s.(ev := Remove(s.ev, ticket));
      if Growth(s1.ev, SingleNotify(note.tag, note.additional)) > 0 {
        OneWoken(s1, note.tag, note.additional);
      }
    }
  }

  lemma StepWoken<T>(s: State<T>, a: Action<T>)
    requires Ticketed(s) && Woken(s)
    ensures Woken(Step(s, a))
  {
    match a
    case Listen => InsertWoken(s);
    case PollNew(w) =>
      InsertTicketed(s);
      InsertWoken(s);
      InsertOrder(s.ev, s.next);
      PollWoken(s.(ev := Insert(s.ev, s.next), next := s.next + 1), s.next, w);
    case Poll(ticket, w) =>
      if ticket in Order(s.ev) {
        TicketedIsWf(s);
        PollWoken(s, ticket, w);
      }
    case NotifyAll(nf) => if nf.Valid() { SeveralWoken(s, Growth(s.ev, nf), nf.tags, nf.additional); }
    case Drop(ticket) => DropWoken(s, ticket);
  }

  // ----- where the tags go

  /** The tags notified listeners hold, in order, each with the kind of its notification. */
  function Notes<T>(notified: seq<Slot<nat, Note<T>>>): (r: seq<Note<T>>)
    ensures |r| == |notified|
    ensures forall i :: 0 <= i < |r| ==> r[i] == notified[i].val
  {
    seq(|notified|, i requires 0 <= i < |notified| => notified[i].val)
  }

  /** Each tag that was issued is in one place: returned by a poll, held, or discarded. */
  ghost predicate TagsPlaced<T>(s: State<T>) {
    multiset(s.issued) == multiset(s.ready) + multiset(Notes(s.ev.notified)) + multiset(s.discarded)
  }

  lemma NotesOfOne<T>(s: State<T>, tag: T, additional: bool)
    requires |s.ev.waiting| > 0
    ensures Notes(One(s, tag, additional).ev.notified) == Notes(s.ev.notified) + [Note(tag, additional)]
  {
  }

  lemma MarkedMore<T>(tag: T, tags: seq<T>, additional: bool)
    ensures Marked([tag] + tags, additional) == [Note(tag, additional)] + Marked(tags, additional)
  {
  }

  /** One notification draws as many tags as it notifies listeners, and they get these tags. */
  lemma {:induction false} TagsOfSeveral<T>(s: State<T>, m: nat, tags: TagSource<T>, additional: bool)
    requires m <= |s.ev.waiting| && tags.CanDraw(m)
    ensures |Draws(tags, m)| == m
    ensures var s' := Several(s, m, tags, additional);
            && Notes(s'.ev.notified) == Notes(s.ev.notified) + Marked(Draws(tags, m), additional)
            && s' == s.(ev := s'.ev, order := s'.order)
    decreases m
  {
    if m > 0 {
      var (tag, rest) := tags.NextTag();
      NotesOfOne(s, tag, additional);
      TagsOfSeveral(One(s, tag, additional), m - 1, rest, additional);
      MarkedMore(tag, Draws(rest, m - 1), additional);
    }
  }

  lemma NotesWithout<T>(notified: seq<Slot<nat, Note<T>>>, i: nat)
    requires i < |notified|
    ensures multiset(Notes(notified)) == multiset(Notes(Without(notified, i))) + multiset([notified[i].val])
  {
    var t := Notes(notified);
    assert Notes(Without(notified, i)) == t[..i] + t[i + 1..];
    assert t == t[..i] + [t[i]] + t[i + 1..];
  }

  lemma PollPlaced<T>(s: State<T>, ticket: nat, w: Waker)
    requires TagsPlaced(s) && ticket in Order(s.ev)
    ensures TagsPlaced(StepPoll(s, ticket, w))
  {
    Members(s.ev);
    if IsNotified(s.ev, ticket) {
      NotesWithout(s.ev.notified, Pos(Ids(s.ev.notified), ticket));
    }
  }

  lemma DropPlaced<T>(s: State<T>, ticket: nat)
    requires TagsPlaced(s)
    ensures TagsPlaced(StepDrop(s, ticket))
  {
    var i := Pos(Ids(s.ev.notified), ticket);
    if i < |s.ev.notified| {
      var note, s1 := s.ev.notified[i].val, s.(ev := Remove(s.ev, ticket));
      NotesWithout(s.ev.notified, i);
      if Growth(s1.ev, SingleNotify(note.tag, note.additional)) > 0 {
        NotesOfOne(s1, note.tag, note.additional);
      }
    }
  }

  lemma StepPlaced<T>(s: State<T>, a: Action<T>)
    requires TagsPlaced(s)
    ensures TagsPlaced(Step(s, a))
  {
    match a
    case Listen =>
    case PollNew(w) =>
      InsertOrder(s.ev, s.next);
      PollPlaced(s.(ev := Insert(s.ev, s.next), next := s.next + 1), s.next, w);
    case Poll(ticket, w) => if ticket in Order(s.ev) { PollPlaced(s, ticket, w); }
    case NotifyAll(nf) => if nf.Valid() { TagsOfSeveral(s, Growth(s.ev, nf), nf.tags, nf.additional); }
    case Drop(ticket) => DropPlaced(s, ticket);
  }

  // ----- the theorems, for every run

  ghost predicate Inv<T>(s: State<T>) { Ticketed(s) && Woken(s) && TagsPlaced(s) }

  lemma {:induction false} RunKeeps<T>(s: State<T>, acts: seq<Action<T>>)
    requires Inv(s)
    ensures Inv(Run(s, acts))
    decreases |acts|
  {
    if |acts| > 0 {
      StepTicketed(s, acts[0]);
      StepWoken(s, acts[0]);
      StepPlaced(s, acts[0]);
      RunKeeps(Step(s, acts[0]), acts[1..]);
    }
  }

  /** Whatever happens, tickets are notified in strictly increasing order, those that dropped
      listeners pass on included, and whoever waits has a later ticket than anyone notified so far. */
  lemma NotifiedInTicketOrder<T>(acts: seq<Action<T>>)
    ensures var s := Run(Init<T>(), acts);
            && Wf(s.ev)
            && Increasing(s.order)
            && Increasing(Order(s.ev))
            && (forall x, y :: x in s.order && y in Ids(s.ev.waiting) ==> x < y)
            && (forall x :: x in Ids(s.ev.notified) ==> x in s.order)
  {
    RunKeeps(Init<T>(), acts);
    var s := Run(Init<T>(), acts);
    TicketedIsWf(s);
    IncreasingParts(s.order, Ids(s.ev.waiting), Ids(s.ev.notified));
    assert s.order == Line(s)[..|s.order|];
  }

  /** In the order of notification, each listener that was polled has one waker called, and it is
      one that `will_wake` like the waker of its latest pending poll; nothing else is ever called. */
  lemma OneWakePerNotification<T>(acts: seq<Action<T>>)
    ensures var s := Run(Init<T>(), acts); Answers(s.ev.woken, Calls(s.order, s.latest))
  {
    RunKeeps(Init<T>(), acts);
  }

  /** No tag is duplicated, none disappears, and each keeps the kind it was issued with, however often
      it is passed on. */
  lemma TagsAreLinear<T>(acts: seq<Action<T>>)
    ensures var s := Run(Init<T>(), acts);
            && multiset(s.issued) == multiset(s.ready) + multiset(Notes(s.ev.notified)) + multiset(s.discarded)
            && |s.issued| == |s.ready| + |s.ev.notified| + |s.discarded|
  {
    RunKeeps(Init<T>(), acts);
    var s := Run(Init<T>(), acts);
    assert |multiset(s.issued)| == |s.issued| && |multiset(s.ready)| == |s.ready|;
  }

  lemma OthersDiscardNothing<T>(s: State<T>, a: Action<T>)
    requires !a.Drop?
    ensures Step(s, a).discarded == s.discarded
  {
    if a.NotifyAll? && a.nf.Valid() {
      TagsOfSeveral(s, Growth(s.ev, a.nf), a.nf.tags, a.nf.additional);
    }
  }

  lemma DropDiscards<T>(s: State<T>, ticket: nat)
    ensures var i := Pos(Ids(s.ev.notified), ticket);
            var nobody := i < |s.ev.notified|
                          && (|s.ev.waiting| == 0 || (|s.ev.notified| > 1 && !s.ev.notified[i].val.additional));
            Step(s, Drop(ticket)).discarded == s.discarded + (if nobody then [s.ev.notified[i].val] else [])
  {
    Members(s.ev);
    var i := Pos(Ids(s.ev.notified), ticket);
    if i < |s.ev.notified| {
      assert Remove(s.ev, ticket) == s.ev.(notified := Without(s.ev.notified, i));
    }
  }

  /** A tag is discarded exactly when its listener is dropped and nobody can take it: no other listener
      waits or, for a plain notification, another one is notified already. */
  lemma DiscardsExactly<T>(acts: seq<Action<T>>, a: Action<T>)
    ensures var s := Run(Init<T>(), acts); var i := if a.Drop? then Pos(Ids(s.ev.notified), a.ticket) else 0;
            var nobody := a.Drop? && i < |s.ev.notified|
                          && (|s.ev.waiting| == 0 || (|s.ev.notified| > 1 && !s.ev.notified[i].val.additional));
            Step(s, a).discarded == s.discarded + (if nobody then [s.ev.notified[i].val] else [])
  {
    var s := Run(Init<T>(), acts);
    if a.Drop? {
      DropDiscards(s, a.ticket);
    } else {
      OthersDiscardNothing(s, a);
    }
  }

  lemma RunStep<T>(s: State<T>, a: Action<T>, rest: seq<Action<T>>)
    ensures Run(s, [a] + rest) == Run(Step(s, a), rest)
  {
    assert ([a] + rest)[1..] == rest;
  }

  /** A plain notification reaches the first two of three listeners. */
  lemma TwoOfThree<T>(s: State<T>, nf: Notification<T>, tag: T)
    requires s.ev == EventState([], [Slot(0, None), Slot(1, None), Slot(2, None)], [])
    requires nf == Notification(2, false, Clone(tag))
    ensures var s' := Step(s, NotifyAll(nf));
            && s'.ev == EventState([Slot(0, Note(tag, false)), Slot(1, Note(tag, false))], [Slot(2, None)], [])
            && s'.discarded == s.discarded
  {
    SeveralAdvance(s, 2, nf.tags, false);
    var e2 := NotifyFirst(NotifyFirst(s.ev, tag, false), tag, false);
    assert Advance(s.ev, 2, nf.tags, false) == Advance(e2, 0, nf.tags, false);
    TagsOfSeveral(s, 2, nf.tags, false);
  }

  lemma FirstDiscards<T>(s: State<T>, tag: T)
    requires s.ev == EventState([Slot(0, Note(tag, false)), Slot(1, Note(tag, false))], [Slot(2, None)], [])
    ensures var s' := Step(s, Drop(0));
            s'.discarded == s.discarded + [Note(tag, false)] && |s'.ev.notified| == 1 && |s'.ev.waiting| == 1
  {
    assert Ids(s.ev.notified)[0] == 0;
    Members(s.ev);
  }

  /** It does happen, even beside a listener that waits: of three listeners a plain notification
      reaches two, and the first of these is dropped. */
  lemma DiscardingRun<T>(tag: T) returns (acts: seq<Action<T>>)
    ensures var s := Run(Init<T>(), acts);
            s.discarded == [Note(tag, false)] && |s.ev.notified| == 1 && |s.ev.waiting| == 1
  {
    var s0, nf := Init<T>(), Notification(2, false, Clone(tag));
    var s1 := Step(s0, Listen);
    var s2 := Step(s1, Listen);
    var s3 := Step(s2, Listen);
    TwoOfThree(s3, nf, tag);
    var s4 := Step(s3, NotifyAll(nf));
    FirstDiscards(s4, tag);
    RunStep(s4, Drop(0), []);
    RunStep(s3, NotifyAll(nf), [Drop(0)] + []);
    RunStep(s2, Listen, [NotifyAll(nf)] + ([Drop(0)] + []));
    RunStep(s1, Listen, [Listen] + ([NotifyAll(nf)] + ([Drop(0)] + [])));
    RunStep(s0, Listen, [Listen] + ([Listen] + ([NotifyAll(nf)] + ([Drop(0)] + []))));
    acts := [Listen] + ([Listen] + ([Listen] + ([NotifyAll(nf)] + ([Drop(0)] + []))));
  }
}
