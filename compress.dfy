/**
 * Compression of PropertyNotify events and the monitor's event callback.
 *
 * Given a triggering PropertyNotify event, compression scans the pending
 * queue, takes the last error-free PropertyNotify for the same atom and
 * window as the representative event, removes every such entry from the
 * queue and sets the client time to the representative's time.
 */
module Compress {
  import opened Wrappers
  import opened XEvents

  /** The compression key: same atom and same window. */
  predicate SameProperty(a: PropertyNotifyEvent, b: PropertyNotifyEvent)
  {
    a.atom == b.atom && a.window == b.window
  }

  /** Slot `e` is one compression takes: no error, a PropertyNotify, same atom and window as `ev`. */
  predicate Matches(e: EventOrError, ev: PropertyNotifyEvent)
  {
    !e.failed && e.event.PropertyNotify? && SameProperty(ev, e.event.notify)
  }

  /** How many slots of `q` compression takes. */
  function CountMatches(q: seq<EventOrError>, ev: PropertyNotifyEvent): (n: nat)
    ensures n <= |q|
  {
    if q == [] then 0
    else (if Matches(q[0], ev) then 1 else 0) + CountMatches(q[1..], ev)
  }

  /**
   * The queue left after compression: `q` with every matching slot dropped,
   * everything else kept.
   */
  function Filter(q: seq<EventOrError>, ev: PropertyNotifyEvent): (r: seq<EventOrError>)
    ensures |r| == |q| - CountMatches(q, ev)
    ensures forall e :: e in r <==> e in q && !Matches(e, ev)
  {
    if q == [] then []
    else (if Matches(q[0], ev) then [] else [q[0]]) + Filter(q[1..], ev)
  }

  /**
   * The representative event, found by looking from the back of the queue:
   * the last matching slot's event, or `ev` itself when nothing matches.
   */
  function LastMatch(q: seq<EventOrError>, ev: PropertyNotifyEvent): (r: PropertyNotifyEvent)
    ensures SameProperty(ev, r)
  {
    if q == [] then ev
    else if Matches(q[|q| - 1], ev) then q[|q| - 1].event.notify
    else LastMatch(q[..|q| - 1], ev)
  }

  /** Filtering a concatenation filters each part: entries that stay keep their relative order. */
  lemma {:induction false} FilterAppend(a: seq<EventOrError>, b: seq<EventOrError>, ev: PropertyNotifyEvent)
    ensures Filter(a + b, ev) == Filter(a, ev) + Filter(b, ev)
  {
    if a == [] {
      assert a + b == b;
    } else {
      assert (a + b)[1..] == a[1..] + b;
      FilterAppend(a[1..], b, ev);
    }
  }

  /** A queue with no matching slot is left exactly as it is. */
  lemma {:induction false} FilterUnchanged(q: seq<EventOrError>, ev: PropertyNotifyEvent)
    requires forall j :: 0 <= j < |q| ==> !Matches(q[j], ev)
    ensures Filter(q, ev) == q
  {
    if q != [] {
      FilterUnchanged(q[1..], ev);
    }
  }

  /** Compressing twice for the same key removes nothing more. */
  lemma FilterIdempotent(q: seq<EventOrError>, ev: PropertyNotifyEvent)
    ensures Filter(Filter(q, ev), ev) == Filter(q, ev)
  {
    var r := Filter(q, ev);
    forall j | 0 <= j < |r| ensures !Matches(r[j], ev) {
      assert r[j] in r;
    }
    FilterUnchanged(r, ev);
  }

  /** With no matching slot the triggering event itself is the representative. */
  lemma {:induction false} LastMatchNone(q: seq<EventOrError>, ev: PropertyNotifyEvent)
    requires forall j :: 0 <= j < |q| ==> !Matches(q[j], ev)
    ensures LastMatch(q, ev) == ev
  {
    if q != [] {
      LastMatchNone(q[..|q| - 1], ev);
    }
  }

  /** The representative is the event of the last matching slot in queue order. */
  lemma {:induction false} LastMatchIsLast(q: seq<EventOrError>, k: nat, ev: PropertyNotifyEvent)
    requires k < |q| && Matches(q[k], ev)
    requires forall j :: k < j < |q| ==> !Matches(q[j], ev)
    ensures LastMatch(q, ev) == q[k].event.notify
  {
    if k < |q| - 1 {
      LastMatchIsLast(q[..|q| - 1], k, ev);
    }
  }

  /**
   * The representative is chosen by queue position, not by timestamp: a
   * later slot with an older time still wins.
   */
  lemma LastMatchIgnoresTime()
    ensures var ev := PropertyNotifyEvent(1, 7, 10, 1);
            var newer := PropertyNotifyEvent(1, 7, 30, 1);
            var older := PropertyNotifyEvent(1, 7, 20, 0);
            var q := [EventOrError(PropertyNotify(newer), false), EventOrError(PropertyNotify(older), false)];
            LastMatch(q, ev) == older && older.time < newer.time
  {
  }

  /**
   * One deferred removal, at index `i` of a match below the part of the
   * queue already compressed (from `b` on), with no match between them:
   * afterwards the queue is compressed from `i` on.
   */
  lemma DequeueStep(orig: seq<EventOrError>, b: nat, i: nat, ev: PropertyNotifyEvent)
    requires i < b <= |orig|
    requires Matches(orig[i], ev)
    requires forall j :: i < j < b ==> !Matches(orig[j], ev)
    ensures var q := orig[..b] + Filter(orig[b..], ev);
            q[..i] + q[i + 1..] == orig[..i] + Filter(orig[i..], ev)
  {
    var rest := Filter(orig[b..], ev);
    var mid := orig[i + 1..b];
    var q := orig[..b] + rest;
    assert q[..i] + q[i + 1..] == orig[..i] + (mid + rest) by {
      SliceAppend(orig[..b], rest, i);
      SliceAppend(orig[..b], rest, i + 1);
      assert orig[..b][..i] == orig[..i];
      assert orig[..b][i + 1..] == mid;
    }
    assert Filter(orig[i..], ev) == mid + rest by {
      assert orig[i..][1..] == mid + orig[b..];
      FilterUnchanged(mid, ev);
      FilterAppend(mid, orig[b..], ev);
    }
  }

  /** Slicing a concatenation inside its first part. */
  lemma SliceAppend<T>(a: seq<T>, c: seq<T>, i: nat)
    requires i <= |a|
    ensures (a + c)[..i] == a[..i] && (a + c)[i..] == a[i..] + c
  {
  }

  /**
   * Compresses the PropertyNotify events of `X`'s pending queue that share
   * `ev`'s atom and window.  The first pass walks a snapshot of the queue,
   * remembering the latest match and registering a removal for each match;
   * the client time is set; then the registered removals run, last
   * registered first, so that every index still names the slot it was
   * registered for.
   */
  method CompressPropertyNotify(X: XUtil, ev: PropertyNotifyEvent) returns (laste: PropertyNotifyEvent)
    modifies X
    ensures laste == LastMatch(old(X.queue), ev)
    ensures X.queue == Filter(old(X.queue), ev)
    ensures |X.queue| == |old(X.queue)| - CountMatches(old(X.queue), ev)
    ensures X.time == laste.time
  {
    ghost var orig := X.queue;
    laste := ev;
    var events := X.Peek();
    var deferred: seq<nat> := [];
    for i := 0 to |events|
      invariant X.queue == orig == events
      invariant laste == LastMatch(events[..i], ev)
      invariant forall m :: 0 <= m < |deferred| ==> deferred[m] < i
      invariant forall m, n :: 0 <= m < n < |deferred| ==> deferred[m] < deferred[n]
      invariant forall j :: 0 <= j < i ==> (Matches(events[j], ev) <==> j in deferred)
    {
      assert events[..i + 1][..i] == events[..i];
      var ee := events[i];
      if ee.failed {
        continue;
      }
      match ee.event
      case PropertyNotify(mn) =>
        if ev.atom == mn.atom && ev.window == mn.window {
          laste := mn;
          deferred := deferred + [i];
        }
      case _ =>
    }
    assert events[..|events|] == events;

    X.TimeSet(laste.time);

    // The registered removals, most recently registered first.
    var k := |deferred|;
    ghost var b: nat := |orig|;
    while k > 0
      invariant 0 <= k <= |deferred|
      invariant b <= |orig|
      invariant X.queue == orig[..b] + Filter(orig[b..], ev)
      invariant forall m :: 0 <= m < k ==> deferred[m] < b
      invariant forall j :: 0 <= j < b ==> (Matches(orig[j], ev) <==> j in deferred[..k])
      invariant X.time == laste.time
    {
      var i := deferred[k - 1];
      PopDeferred(orig, deferred, k, b, ev);
      DequeueStep(orig, b, i, ev);
      assert Matches(X.queue[i], ev);
      X.DequeueAt(i);
      k, b := k - 1, i;
    }
    CleanPrefix(orig, b, ev);
  }

  /**
   * The removal registered last among the first `k` is a match, below `b`,
   * with no match between it and `b`.
   */
  lemma PopDeferred(orig: seq<EventOrError>, deferred: seq<nat>, k: nat, b: nat, ev: PropertyNotifyEvent)
    requires 0 < k <= |deferred| && b <= |orig|
    requires forall m, n :: 0 <= m < n < |deferred| ==> deferred[m] < deferred[n]
    requires forall m :: 0 <= m < k ==> deferred[m] < b
    requires forall j :: 0 <= j < b ==> (Matches(orig[j], ev) <==> j in deferred[..k])
    ensures deferred[k - 1] < b && Matches(orig[deferred[k - 1]], ev)
    ensures forall j :: deferred[k - 1] < j < b ==> !Matches(orig[j], ev)
    ensures forall j :: 0 <= j < deferred[k - 1] ==> (Matches(orig[j], ev) <==> j in deferred[..k - 1])
  {
    var i := deferred[k - 1];
    assert deferred[..k] == deferred[..k - 1] + [i];
    assert i in deferred[..k];
    forall j | i < j < b ensures !Matches(orig[j], ev) {
      assert j !in deferred[..k];
    }
  }

  /** When nothing below `b` matches, compressing from `b` on compresses everything. */
  lemma CleanPrefix(orig: seq<EventOrError>, b: nat, ev: PropertyNotifyEvent)
    requires b <= |orig|
    requires forall j :: 0 <= j < b ==> !Matches(orig[j], ev)
    ensures orig[..b] + Filter(orig[b..], ev) == Filter(orig, ev)
  {
    FilterUnchanged(orig[..b], ev);
    FilterAppend(orig[..b], orig[b..], ev);
    assert orig[..b] + orig[b..] == orig;
  }

  /** The monitor callback's filter: only the interned CLIP_TEMPORARY atom with state 1 is handled. */
  predicate Relevant(ev: PropertyNotifyEvent, clipTemporary: Id)
  {
    ev.atom == clipTemporary && ev.state == 1
  }

  /**
   * The PropertyNotify callback of the monitor: an irrelevant event is
   * ignored and leaves the client untouched; a relevant one is compressed
   * and the representative event is what the callback goes on with.
   */
  method OnPropertyNotify(X: XUtil, clipTemporary: Id, ev: PropertyNotifyEvent) returns (handled: Option<PropertyNotifyEvent>)
    modifies X
    ensures !Relevant(ev, clipTemporary) ==>
              handled == None && X.queue == old(X.queue) && X.time == old(X.time)
    ensures Relevant(ev, clipTemporary) ==>
              handled == Some(LastMatch(old(X.queue), ev)) &&
              X.queue == Filter(old(X.queue), ev) && X.time == handled.value.time
    ensures handled.Some? ==> handled.value.atom == clipTemporary && handled.value.window == ev.window
  {
    if ev.atom != clipTemporary {
      return None;
    }
    if ev.state != 1 {
      return None;
    }
    var e := CompressPropertyNotify(X, ev);
    handled := Some(e);
  }

  /**
   * Compression keys on atom and window only, so the event the callback goes
   * on with may carry a state other than 1.
   */
  lemma CompressedStateMayDiffer()
    ensures var ev := PropertyNotifyEvent(1, 7, 10, 1);
            var later := PropertyNotifyEvent(1, 7, 11, 0);
            Relevant(ev, 7) && !Relevant(LastMatch([EventOrError(PropertyNotify(later), false)], ev), 7)
  {
  }
}
