/**
 * The rules behind the menu-bar view and its settings form: the status
 * label, the recent-events summary, and the setters that edit the
 * monitor's configuration (enable toggle, popup toggle, allowlist add and
 * remove, clamped popup duration and alert cooldown).
 */
module MenuBar {
  import opened Types
  import opened Monitor

  // ---------------------------------------------------------------- status

  function StatusText(s: AppState): string {
    match s
    case Monitoring => "Monitoring"
    case Paused => "Paused"
    case Idle => "Idle"
  }

  /** Each state has its own label, so the label tells the state. */
  lemma StatusTextDistinct(s: AppState, t: AppState)
    ensures StatusText(s) == StatusText(t) <==> s == t
  {
    if s != t {
      assert StatusText(s)[0] != StatusText(t)[0];
    }
  }

  // -------------------------------------------------------- recent events

  /** Number of recent events listed in the menu. */
  const ShownRecent: nat := 5

  /** The events listed in the menu: the newest ones, at most five. */
  function ShownEvents(events: seq<ClipboardEvent>): (r: seq<ClipboardEvent>)
    ensures r <= events
    ensures |r| == Min(|events|, ShownRecent)
  {
    if |events| <= ShownRecent then events else events[..ShownRecent]
  }

  /** The count in the "+N more" line, present exactly when some events are not listed. */
  function MoreCount(events: seq<ClipboardEvent>): (r: Option<nat>)
    ensures r.Some? <==> |ShownEvents(events)| < |events|
    ensures r.Some? ==> r.value > 0 && |ShownEvents(events)| + r.value == |events|
  {
    if |events| > ShownRecent then Some(|events| - ShownRecent) else None
  }

  // ------------------------------------------------------------- trimming

  /** Swift's `CharacterSet.whitespaces`: horizontal tab and the Unicode space separators (Zs). */
  predicate IsWhitespace(c: char) {
    || c == '\t'
    || c == ' '
    || c == '\U{A0}'
    || c == '\U{1680}'
    || ('\U{2000}' <= c <= '\U{200A}')
    || c == '\U{202F}'
    || c == '\U{205F}'
    || c == '\U{3000}'
  }

  /** The index of the first character at or after `i` that is not whitespace, or `|s|`. */
  function SkipWhitespace(s: string, i: nat): (n: nat)
    requires i <= |s|
    ensures i <= n <= |s|
    ensures forall k :: i <= k < n ==> IsWhitespace(s[k])
    ensures n == |s| || !IsWhitespace(s[n])
    decreases |s| - i
  {
    if i == |s| || !IsWhitespace(s[i]) then i else SkipWhitespace(s, i + 1)
  }

  /** The index just after the last character before `j` that is not whitespace, or 0. */
  function BackOverWhitespace(s: string, j: nat): (n: nat)
    requires j <= |s|
    ensures n <= j
    ensures forall k :: n <= k < j ==> IsWhitespace(s[k])
    ensures n == 0 || !IsWhitespace(s[n - 1])
  {
    if j == 0 || !IsWhitespace(s[j - 1]) then j else BackOverWhitespace(s, j - 1)
  }

  function TrimLeading(s: string): (r: string)
    ensures |r| <= |s| && r == s[|s| - |r|..]
    ensures r == [] || !IsWhitespace(r[0])
    ensures forall i :: 0 <= i < |s| - |r| ==> IsWhitespace(s[i])
  {
    s[SkipWhitespace(s, 0)..]
  }

  function TrimTrailing(s: string): (r: string)
    ensures |r| <= |s| && r == s[..|r|]
    ensures r == [] || !IsWhitespace(r[|r| - 1])
    ensures forall i :: |r| <= i < |s| ==> IsWhitespace(s[i])
  {
    s[..BackOverWhitespace(s, |s|)]
  }

  /**
   * `s` without its leading and trailing whitespace: the result is a slice
   * of `s` with only whitespace outside it, it neither starts nor ends with
   * whitespace, and it is empty exactly when `s` is all whitespace.
   */
  function Trim(s: string): (r: string)
    ensures var i := |s| - |TrimLeading(s)|;
            i + |r| <= |s| && (forall j :: 0 <= j < |r| ==> r[j] == s[i + j]) &&
            (forall k :: 0 <= k < i ==> IsWhitespace(s[k])) &&
            (forall k :: i + |r| <= k < |s| ==> IsWhitespace(s[k]))
    ensures r == [] || (!IsWhitespace(r[0]) && !IsWhitespace(r[|r| - 1]))
    ensures r == [] <==> forall k :: 0 <= k < |s| ==> IsWhitespace(s[k])
  {
    var left := TrimLeading(s);
    TrimShape(s, left, TrimTrailing(left));
    TrimTrailing(left)
  }

  /**
   * What trimming both ends gives, stated for any suffix `left` of `s`
   * after leading whitespace and any prefix `r` of `left` before trailing
   * whitespace.
   */
  lemma TrimShape(s: string, left: string, r: string)
    requires |left| <= |s| && left == s[|s| - |left|..]
    requires left == [] || !IsWhitespace(left[0])
    requires forall k :: 0 <= k < |s| - |left| ==> IsWhitespace(s[k])
    requires |r| <= |left| && r == left[..|r|]
    requires r == [] || !IsWhitespace(r[|r| - 1])
    requires forall k :: |r| <= k < |left| ==> IsWhitespace(left[k])
    ensures var i := |s| - |left|;
            i + |r| <= |s| && (forall j :: 0 <= j < |r| ==> r[j] == s[i + j]) &&
            (forall k :: 0 <= k < i ==> IsWhitespace(s[k])) &&
            (forall k :: i + |r| <= k < |s| ==> IsWhitespace(s[k]))
    ensures r == [] || (!IsWhitespace(r[0]) && !IsWhitespace(r[|r| - 1]))
    ensures r == [] <==> forall k :: 0 <= k < |s| ==> IsWhitespace(s[k])
  {
    var i := |s| - |left|;
    forall k | i + |r| <= k < |s| ensures IsWhitespace(s[k]) {
      assert s[k] == left[k - i];
    }
    if r != [] {
      assert r[0] == left[0] == s[i];
    }
  }

  /** Text without surrounding whitespace is its own trim, so trimming twice equals trimming once. */
  lemma TrimIdempotent(s: string)
    ensures Trim(Trim(s)) == Trim(s)
  {
    var t := Trim(s);
    if t != [] {
      assert TrimLeading(t) == t;
      assert TrimTrailing(t) == t;
    }
  }

  // ------------------------------------------------------------ allowlist

  /**
   * The allowlist after the Add button: the trimmed entry is appended at the
   * end unless it is empty or already listed; earlier entries keep their
   * places.
   */
  function AllowlistAdd(list: seq<string>, text: string): (r: seq<string>)
    ensures var e := Trim(text);
            var added := e != [] && e !in list;
            |r| == |list| + (if added then 1 else 0) &&
            list <= r &&
            (added ==> r[|list|] == e)
  {
    var entry := Trim(text);
    if entry == [] || entry in list then list else list + [entry]
  }

  /** After adding, the listed ids are the earlier ones plus the trimmed entry, unless it is empty. */
  lemma AddMembership(list: seq<string>, text: string, x: string)
    ensures x in AllowlistAdd(list, text) <==> x in list || (x == Trim(text) && x != [])
  {
    var r := AllowlistAdd(list, text);
    if x in list {
      var i :| 0 <= i < |list| && list[i] == x;
      assert r[i] == x;
    }
    if x in r && x !in list {
      var i :| 0 <= i < |r| && r[i] == x;
      assert i >= |list|;
    }
  }

  /** Adding keeps a duplicate-free allowlist duplicate-free. */
  lemma AddKeepsDistinct(list: seq<string>, text: string)
    requires NoDup(list)
    ensures NoDup(AllowlistAdd(list, text))
  {
    var r := AllowlistAdd(list, text);
    if |r| > |list| {
      forall i, j | 0 <= i < j < |r| ensures r[i] != r[j] {
        if j == |list| {
          assert r[i] == list[i];
        } else {
          assert r[i] == list[i] && r[j] == list[j];
        }
      }
    }
  }

  /** The allowlist after removing `id`: every occurrence goes, the other entries keep their order and multiplicity. */
  function AllowlistRemove(list: seq<string>, id: string): (r: seq<string>)
    ensures id !in r
    ensures |r| <= |list|
    ensures forall x :: x != id ==> multiset(r)[x] == multiset(list)[x]
  {
    if list == [] then []
    else
      assert list == [list[0]] + list[1..];
      if list[0] == id then AllowlistRemove(list[1..], id)
      else [list[0]] + AllowlistRemove(list[1..], id)
  }

  /** Removing an entry keeps a duplicate-free allowlist duplicate-free. */
  lemma {:induction false} RemoveKeepsDistinct(list: seq<string>, id: string)
    requires NoDup(list)
    ensures NoDup(AllowlistRemove(list, id))
    decreases |list|
  {
    if list != [] {
      assert NoDup(list[1..]) by {
        forall i, k | 0 <= i < k < |list[1..]| ensures list[1..][i] != list[1..][k] {
          assert list[1..][i] == list[i + 1] && list[1..][k] == list[k + 1];
        }
      }
      RemoveKeepsDistinct(list[1..], id);
      var rest := AllowlistRemove(list[1..], id);
      if list[0] != id {
        assert list[0] !in list[1..];
        assert multiset(rest)[list[0]] == 0;
        var r := [list[0]] + rest;
        forall i, k | 0 <= i < k < |r| ensures r[i] != r[k] {
          if i == 0 {
            assert r[k] in rest;
          } else {
            assert r[i] == rest[i - 1] && r[k] == rest[k - 1];
          }
        }
      }
    }
  }

  /** Removal works entry by entry, so it preserves the relative order of what remains. */
  lemma {:induction false} RemoveDistributes(a: seq<string>, b: seq<string>, id: string)
    ensures AllowlistRemove(a + b, id) == AllowlistRemove(a, id) + AllowlistRemove(b, id)
    decreases |a|
  {
    if a != [] {
      assert (a + b)[0] == a[0];
      assert (a + b)[1..] == a[1..] + b;
      RemoveDistributes(a[1..], b, id);
    } else {
      assert a + b == b;
    }
  }

  /** Removing an id that is not listed leaves the allowlist as it was. */
  lemma {:induction false} RemoveAbsentUnchanged(list: seq<string>, id: string)
    requires id !in list
    ensures AllowlistRemove(list, id) == list
    decreases |list|
  {
    if list != [] {
      assert list[0] != id;
      RemoveAbsentUnchanged(list[1..], id);
      assert [list[0]] + list[1..] == list;
    }
  }

  /** Adding an entry and then removing it restores a list that did not hold it. */
  lemma AddThenRemove(list: seq<string>, text: string)
    requires Trim(text) !in list
    ensures AllowlistRemove(AllowlistAdd(list, text), Trim(text)) == list
  {
    var e := Trim(text);
    RemoveAbsentUnchanged(list, e);
    if e != [] {
      RemoveDistributes(list, [e], e);
      assert AllowlistRemove([e], e) == [];
      assert list + [] == list;
    }
  }

  // --------------------------------------------------------------- clamps

  function MaxReal(a: real, b: real): real { if a >= b then a else b }
  function MinReal(a: real, b: real): real { if a <= b then a else b }

  /** The stored popup duration: the value brought into [1, 10] seconds. */
  function ClampPopupDuration(v: real): (r: real)
    ensures 1.0 <= r <= 10.0
    ensures 1.0 <= v <= 10.0 ==> r == v
    ensures v < 1.0 ==> r == 1.0
    ensures v > 10.0 ==> r == 10.0
  {
    MaxReal(1.0, MinReal(10.0, v))
  }

  /** The stored alert cooldown: the value brought into [5, 120] seconds. */
  function ClampAlertCooldown(v: real): (r: real)
    ensures 5.0 <= r <= 120.0
    ensures 5.0 <= v <= 120.0 ==> r == v
    ensures v < 5.0 ==> r == 5.0
    ensures v > 120.0 ==> r == 120.0
  {
    MaxReal(5.0, MinReal(120.0, v))
  }

  // -------------------------------------------------------------- setters

  /** The Enabled toggle: stores the flag, then starts or stops monitoring. */
  method SetEnabled(m: ClipboardMonitor, on: bool, currentCount: int)
    requires m.Valid()
    modifies m
    ensures m.Valid() && m.rateLimiter == old(m.rateLimiter)
    ensures m.state == NextState(old(m.state), Command.SetEnabled(on))
    ensures var v := old(m.View()).(config := old(m.config).(enabled := on));
            if !on then m.View() == v.(state := Idle, pollArmed := false, dismissArmed := false)
            else if old(m.state) == Monitoring then m.View() == v
            else m.View() == v.(state := Monitoring, pollArmed := true, lastChangeCount := currentCount)
  {
    m.config := m.config.(enabled := on);
    if on {
      m.Start(currentCount);
    } else {
      m.Stop();
    }
  }

  /** The popup toggle: stores the flag only. */
  method SetShowPopup(m: ClipboardMonitor, on: bool)
    requires m.Valid()
    modifies m
    ensures m.Valid() && m.rateLimiter == old(m.rateLimiter)
    ensures m.View() == old(m.View()).(config := old(m.config).(showPopup := on))
  {
    m.config := m.config.(showPopup := on);
  }

  /**
   * The Add button: appends the trimmed entry unless it is empty or already
   * listed; the text field is emptied only when something was added.
   */
  method AddAllowlistEntry(m: ClipboardMonitor, field: string) returns (newField: string)
    requires m.Valid()
    modifies m
    ensures m.Valid() && m.rateLimiter == old(m.rateLimiter)
    ensures m.View() == old(m.View()).(config := old(m.config).(allowlist := AllowlistAdd(old(m.config.allowlist), field)))
    ensures newField == if |m.config.allowlist| > |old(m.config.allowlist)| then "" else field
  {
    var entry := Trim(field);
    ghost var before := m.config.allowlist;
    if entry == [] || entry in m.config.allowlist {
      assert AllowlistAdd(before, field) == before;
      return field;
    }
    assert AllowlistAdd(before, field) == before + [entry];
    m.config := m.config.(allowlist := m.config.allowlist + [entry]);
    newField := "";
  }

  /** The remove button next to an allowlist entry. */
  method RemoveAllowlistEntry(m: ClipboardMonitor, bundleID: string)
    requires m.Valid()
    modifies m
    ensures m.Valid() && m.rateLimiter == old(m.rateLimiter)
    ensures m.View() == old(m.View()).(config := old(m.config).(allowlist := AllowlistRemove(old(m.config.allowlist), bundleID)))
  {
    m.config := m.config.(allowlist := AllowlistRemove(m.config.allowlist, bundleID));
  }

  /** The popup-duration stepper. */
  method SetPopupDuration(m: ClipboardMonitor, v: real)
    requires m.Valid()
    modifies m
    ensures m.Valid() && m.rateLimiter == old(m.rateLimiter)
    ensures m.View() == old(m.View()).(config := old(m.config).(popupDuration := ClampPopupDuration(v)))
  {
    m.config := m.config.(popupDuration := ClampPopupDuration(v));
  }

  /**
   * The alert-cooldown stepper. Only the configuration changes: the live
   * limiter keeps the cooldown it was built with until the next reload.
   */
  method SetAlertCooldown(m: ClipboardMonitor, v: real)
    requires m.Valid()
    modifies m
    ensures m.Valid() && m.rateLimiter == old(m.rateLimiter)
    ensures unchanged(m.rateLimiter)
    ensures m.View() == old(m.View()).(config := old(m.config).(alertCooldown := ClampAlertCooldown(v)))
  {
    m.config := m.config.(alertCooldown := ClampAlertCooldown(v));
  }
}
