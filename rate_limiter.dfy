/**
 * Per-application sliding-window rate limiting of alerts: each bundle ID
 * owns a window of the instants at which it was last granted an alert.
 */
module RateLimiter {

  /** Bundle ID to the instants of its granted alerts, oldest first. */
  type History = map<string, seq<real>>

  /** The window of `id`; a bundle ID never seen has an empty one. */
  function Window(h: History, id: string): seq<real> {
    if id in h then h[id] else []
  }

  function Max0(n: int): nat {
    if n < 0 then 0 else n
  }

  /** Every window holds at most `maxAlerts` instants (none when `maxAlerts <= 0`). */
  ghost predicate WindowsBounded(h: History, maxAlerts: int) {
    forall id :: id in h ==> |h[id]| <= Max0(maxAlerts)
  }

  /** Keeps, in order, the instants strictly later than `cutoff`. */
  function Prune(ts: seq<real>, cutoff: real): (r: seq<real>)
    ensures |r| <= |ts|
    ensures forall t :: t in r <==> t in ts && t > cutoff
    ensures forall t :: multiset(r)[t] == if t > cutoff then multiset(ts)[t] else 0
    ensures (forall i :: 0 <= i < |ts| ==> ts[i] > cutoff) ==> r == ts
  {
    if ts == [] then []
    else
      assert ts == [ts[0]] + ts[1..];
      if ts[0] > cutoff then [ts[0]] + Prune(ts[1..], cutoff)
      else Prune(ts[1..], cutoff)
  }

  /** Pruning works element by element, so it keeps the relative order of the instants it keeps. */
  lemma {:induction false} PruneDistributes(a: seq<real>, b: seq<real>, cutoff: real)
    ensures Prune(a + b, cutoff) == Prune(a, cutoff) + Prune(b, cutoff)
    decreases |a|
  {
    if a != [] {
      assert (a + b)[1..] == a[1..] + b;
      PruneDistributes(a[1..], b, cutoff);
    } else {
      assert a + b == b;
    }
  }

  /** Outcome of one decision: whether to alert, and the windows afterwards. */
  datatype Decision = Decision(granted: bool, history: History)

  /**
   * The decision for an alert by `id` at instant `now`: prune the window to
   * the instants later than `now - cooldown`, deny when at least `maxAlerts`
   * remain, otherwise record `now` and grant. The pruned window is stored
   * even on denial.
   */
  function Decide(h: History, id: string, now: real, maxAlerts: int, cooldown: real): (d: Decision)
    ensures id in d.history
    ensures maxAlerts <= 0 ==> !d.granted
    ensures d.history.Keys == h.Keys + {id}
    ensures forall other :: other != id ==> Window(d.history, other) == Window(h, other)
  {
    var kept := Prune(Window(h, id), now - cooldown);
    if |kept| >= maxAlerts then Decision(false, h[id := kept])
    else Decision(true, h[id := kept + [now]])
  }

  /** After a decision the window of `id` holds only instants later than the cutoff, plus `now` when granted. */
  lemma DecideKeepsOnlyRecent(h: History, id: string, now: real, maxAlerts: int, cooldown: real)
    ensures var d := Decide(h, id, now, maxAlerts, cooldown);
            var w := Window(d.history, id);
            var n := if d.granted then |w| - 1 else |w|;
            0 <= n &&
            (forall i :: 0 <= i < n ==> w[i] > now - cooldown) &&
            (d.granted ==> w[n] == now)
  {
    var kept := Prune(Window(h, id), now - cooldown);
    forall i | 0 <= i < |kept| ensures kept[i] > now - cooldown {
      assert kept[i] in kept;
    }
  }

  /** A denial only prunes: nothing is appended, and the window was already full. */
  lemma DenialOnlyPrunes(h: History, id: string, now: real, maxAlerts: int, cooldown: real)
    ensures var d := Decide(h, id, now, maxAlerts, cooldown);
            var kept := Prune(Window(h, id), now - cooldown);
            !d.granted <==> |kept| >= maxAlerts
    ensures var d := Decide(h, id, now, maxAlerts, cooldown);
            var kept := Prune(Window(h, id), now - cooldown);
            !d.granted ==> d.history[id] == kept && |kept| >= maxAlerts
  {
  }

  /** A grant appends exactly `now` to the pruned window, which grows by one. */
  lemma GrantAppendsNow(h: History, id: string, now: real, maxAlerts: int, cooldown: real)
    ensures var d := Decide(h, id, now, maxAlerts, cooldown);
            var kept := Prune(Window(h, id), now - cooldown);
            d.granted ==> d.history[id] == kept + [now] && |d.history[id]| == |kept| + 1 <= maxAlerts
  {
  }

  /** Starting from bounded windows, a decision keeps every window within `maxAlerts`. */
  lemma DecidePreservesBound(h: History, id: string, now: real, maxAlerts: int, cooldown: real)
    requires WindowsBounded(h, maxAlerts)
    ensures WindowsBounded(Decide(h, id, now, maxAlerts, cooldown).history, maxAlerts)
  {
    var d := Decide(h, id, now, maxAlerts, cooldown);
    forall k | k in d.history ensures |d.history[k]| <= Max0(maxAlerts) {
      if k != id {
        assert Window(d.history, k) == Window(h, k);
      }
    }
  }

  /** A window still full of unexpired instants denies and stays as it is. */
  lemma FullWindowDenies(h: History, id: string, now: real, maxAlerts: int, cooldown: real)
    requires |Window(h, id)| >= maxAlerts
    requires forall i :: 0 <= i < |Window(h, id)| ==> Window(h, id)[i] > now - cooldown
    ensures var d := Decide(h, id, now, maxAlerts, cooldown);
            !d.granted && d.history[id] == Window(h, id)
  {
  }

  /** Once the oldest instant of a bounded window has aged past the cooldown, the next call is granted. */
  lemma GrantedAgainAfterOldestExpires(h: History, id: string, now: real, maxAlerts: int, cooldown: real)
    requires |Window(h, id)| <= maxAlerts
    requires maxAlerts >= 1
    requires Window(h, id) != [] ==> Window(h, id)[0] <= now - cooldown
    ensures Decide(h, id, now, maxAlerts, cooldown).granted
  {
    var w := Window(h, id);
    if w != [] {
      assert Prune(w, now - cooldown) == Prune(w[1..], now - cooldown);
    }
  }

  /** Decisions for `id` at each instant of `nows`, in order, from windows `h`. */
  function Replay(h: History, id: string, nows: seq<real>, maxAlerts: int, cooldown: real): (r: (seq<bool>, History))
    ensures |r.0| == |nows|
    decreases |nows|
  {
    if nows == [] then ([], h)
    else
      var d := Decide(h, id, nows[0], maxAlerts, cooldown);
      var rest := Replay(d.history, id, nows[1..], maxAlerts, cooldown);
      ([d.granted] + rest.0, rest.1)
  }

  function CountGranted(bs: seq<bool>): nat {
    if bs == [] then 0 else (if bs[0] then 1 else 0) + CountGranted(bs[1..])
  }

  /**
   * Within one cooldown-long interval of time, the window of `id` and the
   * alerts granted to it together never exceed `maxAlerts`: from an empty
   * window, at most `maxAlerts` of any number of calls are granted.
   */
  lemma {:induction false} GrantsWithinOneCooldownBounded(
    h: History, id: string, nows: seq<real>, lo: real, maxAlerts: int, cooldown: real)
    requires forall i :: 0 <= i < |nows| ==> lo <= nows[i] < lo + cooldown
    requires forall i :: 0 <= i < |Window(h, id)| ==> Window(h, id)[i] >= lo
    decreases |nows|
    ensures var w := |Window(h, id)|;
            w + CountGranted(Replay(h, id, nows, maxAlerts, cooldown).0) <= if w < maxAlerts then maxAlerts else w
  {
    if nows != [] {
      var w := Window(h, id);
      var d := Decide(h, id, nows[0], maxAlerts, cooldown);
      assert Prune(w, nows[0] - cooldown) == w;
      var w' := Window(d.history, id);
      assert forall i :: 0 <= i < |w'| ==> w'[i] >= lo;
      GrantsWithinOneCooldownBounded(d.history, id, nows[1..], lo, maxAlerts, cooldown);
      var rest := Replay(d.history, id, nows[1..], maxAlerts, cooldown);
      assert Replay(h, id, nows, maxAlerts, cooldown).0 == [d.granted] + rest.0;
      assert ([d.granted] + rest.0)[1..] == rest.0;
    }
  }

  /** The number of instants in `w` at or after `lo`. */
  function CountAtLeast(w: seq<real>, lo: real): nat {
    if w == [] then 0 else (if w[0] >= lo then 1 else 0) + CountAtLeast(w[1..], lo)
  }

  lemma {:induction false} CountAtLeastBound(w: seq<real>, lo: real)
    ensures CountAtLeast(w, lo) <= |w|
    decreases |w|
  {
    if w != [] {
      CountAtLeastBound(w[1..], lo);
    }
  }

  lemma {:induction false} CountAtLeastAppend(w: seq<real>, x: real, lo: real)
    ensures CountAtLeast(w + [x], lo) == CountAtLeast(w, lo) + (if x >= lo then 1 else 0)
    decreases |w|
  {
    if w == [] {
      assert [x][1..] == [];
    } else {
      assert (w + [x])[1..] == w[1..] + [x];
      CountAtLeastAppend(w[1..], x, lo);
    }
  }

  /** Pruning at a cutoff before `lo` drops no instant at or after `lo`. */
  lemma {:induction false} PruneKeepsCountAtLeast(w: seq<real>, cutoff: real, lo: real)
    requires cutoff < lo
    ensures CountAtLeast(Prune(w, cutoff), lo) == CountAtLeast(w, lo)
    decreases |w|
  {
    if w != [] {
      PruneKeepsCountAtLeast(w[1..], cutoff, lo);
      if w[0] > cutoff {
        assert ([w[0]] + Prune(w[1..], cutoff))[1..] == Prune(w[1..], cutoff);
      }
    }
  }

  /**
   * The sliding-window bound over any cooldown-long interval `[lo, lo +
   * cooldown)`: the instants of the window of `id` already inside the
   * interval and the alerts granted to `id` at calls inside it together
   * never exceed `max(0, maxAlerts)`, unless the window alone already did.
   * Instants held from before the interval are allowed.
   */
  lemma {:induction false} GrantsInAnyIntervalBounded(
    h: History, id: string, nows: seq<real>, lo: real, maxAlerts: int, cooldown: real)
    requires forall i :: 0 <= i < |nows| ==> lo <= nows[i] < lo + cooldown
    decreases |nows|
    ensures var c := CountAtLeast(Window(h, id), lo);
            c + CountGranted(Replay(h, id, nows, maxAlerts, cooldown).0) <= if c < Max0(maxAlerts) then Max0(maxAlerts) else c
  {
    if nows != [] {
      var d := Decide(h, id, nows[0], maxAlerts, cooldown);
      DecideCountsInInterval(h, id, nows[0], lo, maxAlerts, cooldown);
      GrantsInAnyIntervalBounded(d.history, id, nows[1..], lo, maxAlerts, cooldown);
      var rest := Replay(d.history, id, nows[1..], maxAlerts, cooldown);
      assert Replay(h, id, nows, maxAlerts, cooldown).0 == [d.granted] + rest.0;
      assert ([d.granted] + rest.0)[1..] == rest.0;
    }
  }

  /**
   * One decision at an instant inside `[lo, lo + cooldown)`: the instants of
   * the window inside the interval grow by one on a grant and stay as they
   * are on a denial, and a grant leaves them within the maximum.
   */
  lemma DecideCountsInInterval(h: History, id: string, now: real, lo: real, maxAlerts: int, cooldown: real)
    requires lo <= now < lo + cooldown
    ensures var d := Decide(h, id, now, maxAlerts, cooldown);
            var c := CountAtLeast(Window(h, id), lo);
            var c' := CountAtLeast(Window(d.history, id), lo);
            c' == c + (if d.granted then 1 else 0) && (d.granted ==> c' <= Max0(maxAlerts))
  {
    var w := Window(h, id);
    var kept := Prune(w, now - cooldown);
    PruneKeepsCountAtLeast(w, now - cooldown, lo);
    var d := Decide(h, id, now, maxAlerts, cooldown);
    if d.granted {
      assert Window(d.history, id) == kept + [now];
      CountAtLeastAppend(kept, now, lo);
      CountAtLeastBound(kept, lo);
    } else {
      assert Window(d.history, id) == kept;
    }
  }

  /** From windows within the bound, at most `max(0, maxAlerts)` alerts are granted in any cooldown-long interval. */
  lemma AtMostMaxGrantsPerCooldown(
    h: History, id: string, nows: seq<real>, lo: real, maxAlerts: int, cooldown: real)
    requires WindowsBounded(h, maxAlerts)
    requires forall i :: 0 <= i < |nows| ==> lo <= nows[i] < lo + cooldown
    ensures CountGranted(Replay(h, id, nows, maxAlerts, cooldown).0) <= Max0(maxAlerts)
  {
    CountAtLeastBound(Window(h, id), lo);
    GrantsInAnyIntervalBounded(h, id, nows, lo, maxAlerts, cooldown);
  }

  /** The per-application limiter; the limits are fixed at construction. */
  class AlertRateLimiter {
    var alertHistory: History
    const maxAlerts: int
    const cooldown: real

    ghost predicate Valid()
      reads this
    {
      WindowsBounded(alertHistory, maxAlerts)
    }

    constructor (maxAlerts: int, cooldown: real)
      ensures Valid()
      ensures alertHistory == map[]
      ensures this.maxAlerts == maxAlerts && this.cooldown == cooldown
    {
      this.maxAlerts := maxAlerts;
      this.cooldown := cooldown;
      alertHistory := map[];
    }

    /** Whether an alert for `bundleID` may be shown at instant `now`. */
    method ShouldAlert(bundleID: string, now: real) returns (granted: bool)
      requires Valid()
      modifies this
      ensures Valid()
      ensures var d := Decide(old(alertHistory), bundleID, now, maxAlerts, cooldown);
              granted == d.granted && alertHistory == d.history
    {
      DecidePreservesBound(alertHistory, bundleID, now, maxAlerts, cooldown);
      var cutoff := now - cooldown;
      alertHistory := alertHistory[bundleID := Prune(Window(alertHistory, bundleID), cutoff)];
      var count := |alertHistory[bundleID]|;
      if count >= maxAlerts {
        return false;
      }
      alertHistory := alertHistory[bundleID := alertHistory[bundleID] + [now]];
      return true;
    }

    /** Accepts new limits and ignores them: the limits stay those of construction. */
    method Update(maxAlerts: int, cooldown: real)
      ensures unchanged(this)
    {
    }

    /** Forgets every window. */
    method Reset()
      modifies this
      ensures Valid()
      ensures alertHistory == map[]
    {
      alertHistory := map[];
    }
  }
}
