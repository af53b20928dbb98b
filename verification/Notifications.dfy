/** The notification values of `src/event.rs`: how many listeners to notify, whether the number
    is on top of those already notified, and the tag each of them gets. The wrapper types of
    the source forward what they do not override, so a wrapped value is one flat record. */
module Notifications {
  import opened Prelude

  /** Where `next_tag` takes its answers from: unit values for a bare number, clones of the value
      given to `tag`, the closure given to `tag_with`, or a slot. `With` is that closure, given by its
      successive answers and the number of calls made so far; `Once` is the slot a dropped
      listener's tag travels in. */
  datatype TagSource<T> =
    | Unit(unit: T)
    | Clone(tag: T)
    | With(supply: nat -> T, calls: nat)
    | Once(slot: Option<T>)
  {
    /** Can `next_tag` be called `m` times without unwrapping an empty slot? */
    predicate CanDraw(m: nat) {
      Once? ==> m <= if slot.Some? then 1 else 0
    }

    /** The answer of the (i+1)-th call from here. */
    function TagAt(i: nat): T
      requires CanDraw(i + 1)
    {
      match this
      case Unit(u) => u
      case Clone(t) => t
      case With(f, calls) => f(calls + i)
      case Once(slot) => slot.value
    }

    /** The source after `n` calls. */
    function Drawn(n: nat): TagSource<T> {
      match this
      case With(f, calls) => With(f, calls + n)
      case Once(_) => if n == 0 then this else Once(None)
      case _ => this
    }

    /** One call of `next_tag`, and the source it leaves. */
    function NextTag(): (r: (T, TagSource<T>))
      requires CanDraw(1)
      ensures r.0 == TagAt(0) && r.1 == Drawn(1)
    {
      match this
      case Unit(u) => (u, this)
      case Clone(t) => (t, this)
      case With(f, calls) => (f(calls), With(f, calls + 1))
      case Once(slot) => (slot.value, Once(None))
    }
  }

  datatype Notification<T> = Notification(count: nat, additional: bool, tags: TagSource<T>)
  {
    /** `additional()`: count on top of what is already notified. */
    function Additional(): Notification<T> { this.(additional := true) }

    /** No `next_tag` call that notifying can make unwraps an empty slot. */
    predicate Valid() { tags.CanDraw(count) }
  }

  /** A whole number as a notification. A negative one panics (`None`). A `u128` or `i128` above
      `usize::MAX` is cut to its low 64 bits, so it may ask for fewer than it says, even for nobody. */
  function IntoNotification<T>(n: int, unit: T): (r: Option<Notification<T>>)
    ensures r.None? <==> n < 0
    ensures 0 <= n <= USIZE_MAX ==> r == Some(Plain(n, unit))
  {
    if n < 0 then None else Some(Plain(n % (USIZE_MAX + 1), unit))
  }

  /** What a number too wide for `usize` comes to: `n` and `k` times 2^64 on top ask for `n`. */
  lemma {:induction false} IntoNotificationCuts<T>(n: nat, k: nat, unit: T)
    requires n <= USIZE_MAX
    ensures IntoNotification(n + k * (USIZE_MAX + 1), unit) == Some(Plain(n, unit))
  {
    if k > 0 {
      var less := n + (k - 1) * (USIZE_MAX + 1);
      IntoNotificationCuts(n, k - 1, unit);
      assert (less + (USIZE_MAX + 1)) % (USIZE_MAX + 1) == less % (USIZE_MAX + 1);
    }
  }

  /** A plain count with unit tags. */
  function Plain<T>(n: nat, unit: T): Notification<T> { Notification(n, false, Unit(unit)) }

  /** What a dropped listener passes on: its own tag, for one other listener. */
  function SingleNotify<T>(tag: T, onTop: bool): (nf: Notification<T>)
    ensures nf.Valid() && nf.count == 1 && nf.additional == onTop
    ensures nf.tags.TagAt(0) == tag && !nf.tags.Drawn(1).CanDraw(1)
  {
    Notification(1, onTop, Once(Some(tag)))
  }

  /** The closure `|| item.take()`: the item at the first call, nothing afterwards. */
  function TakeOnce<X>(item: X): nat -> Option<X> {
    (call: nat) => if call == 0 then Some(item) else None
  }

  function NoTag<X>(): nat -> Option<X> { (call: nat) => None }
}
