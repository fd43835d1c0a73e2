/** The externally visible effects of a sequence of `createOrUpdate` calls, in
    the order they happen: handing an event to the run service, and upserting
    a dataset. A well-formed trace is a concatenation of call blocks. */
module Trace {
  import opened Wrappers
  import opened Models

  datatype Op =
    | Notify(event: JobOutputUpdate)
    | Upsert(namespace: NamespaceName, name: DatasetName, meta: DatasetMeta)

  /** An upsert whose metadata carries no run id. */
  predicate IsUnattributedUpsert(op: Op)
  {
    op.Upsert? && op.meta.runId.None?
  }

  /** A notification followed by the upsert it announces: same run id. */
  predicate IsAttributedCall(notify: Op, upsert: Op)
  {
    notify.Notify? && upsert.Upsert? && upsert.meta.runId == Some(notify.event.runId)
  }

  /** The ops one successful call appends: `[Upsert]` or `[Notify, Upsert]`. */
  predicate IsCallBlock(block: seq<Op>)
  {
    (|block| == 1 && IsUnattributedUpsert(block[0])) ||
    (|block| == 2 && IsAttributedCall(block[0], block[1]))
  }

  /** The trace splits, from its end, into call blocks. */
  ghost predicate WellFormed(t: seq<Op>)
    decreases |t|
  {
    if t == [] then true
    else if IsUnattributedUpsert(t[|t| - 1]) then WellFormed(t[..|t| - 1])
    else |t| >= 2 && IsAttributedCall(t[|t| - 2], t[|t| - 1]) && WellFormed(t[..|t| - 2])
  }

  /** Appending the block of one more call keeps the trace well formed. */
  lemma AppendCall(t: seq<Op>, block: seq<Op>)
    requires WellFormed(t) && IsCallBlock(block)
    ensures WellFormed(t + block)
  {
  }

  /** Completing a call with its upsert keeps the trace well formed: either the
      upsert stands alone, or it follows the notification for its run. */
  lemma CompleteCall(t: seq<Op>, upsert: Op)
    requires upsert.Upsert?
    requires IsUnattributedUpsert(upsert) ==> WellFormed(t)
    requires !IsUnattributedUpsert(upsert) ==>
      |t| >= 1 && IsAttributedCall(t[|t| - 1], upsert) && WellFormed(t[..|t| - 1])
    ensures WellFormed(t + [upsert])
  {
    if !IsUnattributedUpsert(upsert) {
      assert t + [upsert] == t[..|t| - 1] + [t[|t| - 1], upsert];
      AppendCall(t[..|t| - 1], [t[|t| - 1], upsert]);
    } else {
      AppendCall(t, [upsert]);
    }
  }

  /** Every notification is immediately followed by the upsert of the same call,
      whose metadata names the notified run. */
  lemma {:induction false} NotifyIsFollowedByItsUpsert(t: seq<Op>, i: nat)
    requires WellFormed(t) && i < |t| && t[i].Notify?
    ensures i + 1 < |t| && t[i + 1].Upsert?
    ensures t[i + 1].meta.runId == Some(t[i].event.runId)
    decreases |t|
  {
    var n := |t|;
    if IsUnattributedUpsert(t[n - 1]) {
      NotifyIsFollowedByItsUpsert(t[..n - 1], i);
    } else if i < n - 2 {
      NotifyIsFollowedByItsUpsert(t[..n - 2], i);
    }
  }

  /** Every upsert attributed to a run is immediately preceded by the
      notification of that run: no such write without its notification. */
  lemma {:induction false} UpsertIsPrecededByItsNotify(t: seq<Op>, i: nat)
    requires WellFormed(t) && i < |t| && t[i].Upsert? && t[i].meta.runId.Some?
    ensures i >= 1 && t[i - 1].Notify?
    ensures t[i - 1].event.runId == t[i].meta.runId.value
    decreases |t|
  {
    var n := |t|;
    if IsUnattributedUpsert(t[n - 1]) {
      UpsertIsPrecededByItsNotify(t[..n - 1], i);
    } else if i < n - 2 {
      UpsertIsPrecededByItsNotify(t[..n - 2], i);
    }
  }

  /** An upsert without a run id has no notification of its own: the op before
      it, if any, is the upsert of the previous call. */
  lemma UnattributedUpsertHasNoNotify(t: seq<Op>, i: nat)
    requires WellFormed(t) && i < |t| && IsUnattributedUpsert(t[i])
    ensures i == 0 || t[i - 1].Upsert?
  {
  }

  function NotifyCount(t: seq<Op>): nat
    decreases |t|
  {
    if t == [] then 0 else NotifyCount(t[..|t| - 1]) + (if t[|t| - 1].Notify? then 1 else 0)
  }

  function AttributedUpsertCount(t: seq<Op>): nat
    decreases |t|
  {
    if t == [] then 0
    else AttributedUpsertCount(t[..|t| - 1]) + (if t[|t| - 1].Upsert? && t[|t| - 1].meta.runId.Some? then 1 else 0)
  }

  /** Over a whole trace, events and attributed upserts are in one-to-one
      correspondence: exactly one event per call that names a run, none otherwise. */
  lemma {:induction false} NotificationsMatchAttributedUpserts(t: seq<Op>)
    requires WellFormed(t)
    ensures NotifyCount(t) == AttributedUpsertCount(t)
    decreases |t|
  {
    var n := |t|;
    if t == [] {
    } else if IsUnattributedUpsert(t[n - 1]) {
      NotificationsMatchAttributedUpserts(t[..n - 1]);
    } else {
      var p := t[..n - 1];
      assert p[..|p| - 1] == t[..n - 2];
      NotificationsMatchAttributedUpserts(t[..n - 2]);
    }
  }
}
