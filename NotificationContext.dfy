/**
 * The global notification channel: an ordered list of toasts that
 * `addNotification` appends to and `removeNotification` filters by id.
 * Each add also schedules one automatic removal of its own id, 5000 ms
 * later; the model keeps those scheduled removals as a queue.
 */
module NotificationContext {
  import Lists

  datatype NotificationType = Success | Error | Info | Warning

  datatype Notification = Notification(id: int, message: string, kind: NotificationType)

  /** The delay of every automatic removal, in milliseconds. */
  const AutoDismissMs: nat := 5000

  /** A scheduled `removeNotification(id)`, due at time `dueMs`. */
  datatype Removal = Removal(id: int, dueMs: int)

  /** The ids the scheduled removals will remove, in firing order. */
  function Ids(rs: seq<Removal>): (ids: seq<int>)
    ensures |ids| == |rs|
    ensures forall i :: 0 <= i < |rs| ==> ids[i] == rs[i].id
  {
    if rs == [] then [] else [rs[0].id] + Ids(rs[1..])
  }

  predicate HasId(n: Notification, id: int) {
    n.id == id
  }

  /** `prev.filter(n => n.id !== id)`. */
  function Without(ns: seq<Notification>, id: int): (r: seq<Notification>)
    ensures |r| <= |ns|
    ensures forall i :: 0 <= i < |r| ==> !HasId(r[i], id)
    ensures forall i :: 0 <= i < |r| ==> r[i] in ns
    ensures forall i :: 0 <= i < |ns| && !HasId(ns[i], id) ==> ns[i] in r
    ensures Lists.IsSubsequence(r, ns)
  {
    Lists.Filter(ns, n => !HasId(n, id))
  }

  /** Removing an id that no entry carries leaves the list as it was. */
  lemma WithoutAbsent(ns: seq<Notification>, id: int)
    requires forall i :: 0 <= i < |ns| ==> !HasId(ns[i], id)
    ensures Without(ns, id) == ns
  {
    Lists.FilterKeepsAll(ns, n => !HasId(n, id));
  }

  /** Removing an id that some entry carries shortens the list. */
  lemma WithoutPresent(ns: seq<Notification>, id: int, k: nat)
    requires k < |ns| && HasId(ns[k], id)
    ensures |Without(ns, id)| < |ns|
  {
    Lists.FilterShrinks(ns, n => !HasId(n, id), ns[k]);
  }

  /** Removing twice is removing once: a second dismissal is a no-op. */
  lemma WithoutIdempotent(ns: seq<Notification>, id: int)
    ensures Without(Without(ns, id), id) == Without(ns, id)
  {
    WithoutAbsent(Without(ns, id), id);
  }

  /** Two notifications created in the same millisecond share an id, and one removal drops both. */
  lemma SameIdRemovedTogether(ns: seq<Notification>, a: Notification, b: Notification)
    requires a.id == b.id
    ensures Without(ns + [a, b], a.id) == Without(ns, a.id)
  {
    Lists.FilterConcat(ns, [a, b], n => !HasId(n, a.id));
    assert Lists.Filter([a, b], n => !HasId(n, a.id)) == [];
  }

  /** Removing after an append: the new entry survives iff its id differs. */
  lemma WithoutAppend(ns: seq<Notification>, n: Notification, id: int)
    ensures Without(ns + [n], id) == Without(ns, id) + (if n.id == id then [] else [n])
  {
    Lists.FilterConcat(ns, [n], m => !HasId(m, id));
  }

  /** Removals can be performed in either order. */
  lemma WithoutCommutes(ns: seq<Notification>, a: int, b: int)
    ensures Without(Without(ns, a), b) == Without(Without(ns, b), a)
  {
    Lists.FilterCommutes(ns, m => !HasId(m, a), m => !HasId(m, b));
  }

  /** The list after removing each id of `ids` in turn. */
  function WithoutAll(ns: seq<Notification>, ids: seq<int>): seq<Notification>
    decreases |ids|
  {
    if ids == [] then ns else WithoutAll(Without(ns, ids[0]), ids[1..])
  }

  /** Once every scheduled removal has run, no notification whose id was scheduled is left. */
  lemma {:induction false} WithoutAllDrains(ns: seq<Notification>, ids: seq<int>)
    requires forall i :: 0 <= i < |ns| ==> ns[i].id in ids
    ensures WithoutAll(ns, ids) == []
    decreases |ids|
  {
    if ns == [] {
      WithoutAllOfEmpty(ids);
    } else {
      assert ns[0].id in ids;
      var rest := Without(ns, ids[0]);
      forall i | 0 <= i < |rest| ensures rest[i].id in ids[1..] {
        assert rest[i] in ns;
        assert rest[i].id in ids && rest[i].id != ids[0];
      }
      WithoutAllDrains(rest, ids[1..]);
    }
  }

  lemma {:induction false} WithoutAllOfEmpty(ids: seq<int>)
    ensures WithoutAll([], ids) == []
    decreases |ids|
  {
    if ids != [] {
      WithoutAllOfEmpty(ids[1..]);
    }
  }

  /** The provider's state: the displayed list and the removals still scheduled. */
  class NotificationCenter {
    var notifications: seq<Notification>
    /** The scheduled automatic removals, in the order they will fire. */
    var pending: seq<Removal>

    /** Every displayed notification still has an automatic removal scheduled for its id. */
    ghost predicate Valid()
      reads this
    {
      forall i :: 0 <= i < |notifications| ==> notifications[i].id in Ids(pending)
    }

    constructor ()
      ensures Valid()
      ensures notifications == [] && pending == []
    {
      notifications := [];
      pending := [];
    }

    /** `addNotification(message, type)` at time `nowMs`, which becomes the id; its removal is due 5000 ms later. */
    method AddNotification(nowMs: int, message: string, kind: NotificationType)
      requires Valid()
      modifies this
      ensures Valid()
      ensures notifications == old(notifications) + [Notification(nowMs, message, kind)]
      ensures pending == old(pending) + [Removal(nowMs, nowMs + AutoDismissMs)]
    {
      notifications := notifications + [Notification(nowMs, message, kind)];
      pending := pending + [Removal(nowMs, nowMs + AutoDismissMs)];
      assert Ids(pending)[|pending| - 1] == nowMs;
      forall i | 0 <= i < |old(notifications)| ensures notifications[i].id in Ids(pending) {
        var k :| 0 <= k < |old(pending)| && Ids(old(pending))[k] == notifications[i].id;
        assert Ids(pending)[k] == notifications[i].id;
      }
    }

    /** `removeNotification(id)`, the dismiss button; the scheduled removals stay as they were. */
    method RemoveNotification(id: int)
      requires Valid()
      modifies this
      ensures Valid()
      ensures notifications == Without(old(notifications), id)
      ensures pending == old(pending)
    {
      notifications := Without(notifications, id);
    }

    /** The earliest scheduled removal fires; nothing happens when none is scheduled. */
    method FireNextRemoval()
      requires Valid()
      modifies this
      ensures Valid()
      ensures old(pending) == [] ==> notifications == old(notifications) && pending == []
      ensures old(pending) != [] ==>
        notifications == Without(old(notifications), old(pending)[0].id) && pending == old(pending)[1..]
    {
      if pending != [] {
        var id := pending[0].id;
        pending := pending[1..];
        notifications := Without(notifications, id);
        forall i | 0 <= i < |notifications| ensures notifications[i].id in Ids(pending) {
          assert notifications[i] in old(notifications);
          var k :| 0 <= k < |old(pending)| && Ids(old(pending))[k] == notifications[i].id;
          assert k != 0;
          assert Ids(pending)[k - 1] == notifications[i].id;
        }
      }
    }

    /** The list that remains once every scheduled removal has fired and nothing else happened. */
    ghost function Eventually(): seq<Notification>
      reads this
    {
      WithoutAll(notifications, Ids(pending))
    }

    /** A valid center drains to the empty list: no notification outlives its timer. */
    lemma EventuallyEmpty()
      requires Valid()
      ensures Eventually() == []
    {
      WithoutAllDrains(notifications, Ids(pending));
    }
  }
}
