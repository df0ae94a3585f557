/** The bounded debug log of the sync job: appending with FIFO eviction and
    the newest-first view that the status poller shows. */
module DebugLog {

  /** `$max_log_entries`. */
  const MaxLogEntries: nat := 100
  /** How many entries the status poller shows. */
  const RecentShown: nat := 20

  function Min(a: int, b: int): int {
    if a < b then a else b
  }

  /** The log after one `add_to_log`: the entry goes last and, once the log
      is over the bound, only the newest `MaxLogEntries` entries are kept. */
  function Append<T>(log: seq<T>, entry: T): (r: seq<T>)
    ensures |r| == Min(MaxLogEntries, |log| + 1)
    ensures r[|r| - 1] == entry
  {
    var grown := log + [entry];
    if |grown| > MaxLogEntries then grown[|grown| - MaxLogEntries..] else grown
  }

  /** What one append evicts: only the oldest entry, and only when the log
      is full; every other entry keeps its order. */
  lemma AppendEvictsOldest<T>(log: seq<T>, entry: T)
    requires |log| <= MaxLogEntries
    ensures |log| < MaxLogEntries ==> Append(log, entry) == log + [entry]
    ensures |log| == MaxLogEntries ==> Append(log, entry) == log[1..] + [entry]
  {
  }

  /** The log after appending `entries` one by one, in order. */
  function AppendAll<T>(log: seq<T>, entries: seq<T>): seq<T>
  {
    if entries == [] then log
    else Append(AppendAll(log, entries[..|entries| - 1]), entries[|entries| - 1])
  }

  lemma AppendAllSnoc<T>(log: seq<T>, entries: seq<T>, entry: T)
    ensures AppendAll(log, entries + [entry]) == Append(AppendAll(log, entries), entry)
  {
    assert (entries + [entry])[..|entries|] == entries;
  }

  /** Appending in two rounds is appending once. */
  lemma {:induction false} AppendAllConcat<T>(log: seq<T>, first: seq<T>, second: seq<T>)
    ensures AppendAll(log, first + second) == AppendAll(AppendAll(log, first), second)
  {
    if second == [] {
      assert first + second == first;
    } else {
      var init := second[..|second| - 1];
      var last := second[|second| - 1];
      assert second == init + [last];
      assert first + second == (first + init) + [last];
      AppendAllConcat(log, first, init);
      AppendAllSnoc(log, first + init, last);
      AppendAllSnoc(AppendAll(log, first), init, last);
    }
  }

  /** The newest `MaxLogEntries` entries of `s` (all of them when there are
      fewer), oldest first. */
  function Window<T>(s: seq<T>): seq<T> {
    s[|s| - Min(MaxLogEntries, |s|)..]
  }

  /** One append to the window of everything logged so far gives the window
      of everything logged since. */
  lemma AppendToWindow<T>(s: seq<T>, entry: T)
    ensures Append(Window(s), entry) == Window(s + [entry])
  {
    var w := Window(s);
    var all := s + [entry];
    var start := |s| - Min(MaxLogEntries, |s|);
    assert w + [entry] == all[start..];
  }

  /** FIFO eviction over any number of appends: a log that respects the bound
      ends up holding exactly the newest `MaxLogEntries` of everything ever
      appended (or all of it, when there is less). */
  lemma {:induction false} AppendAllWindow<T>(log: seq<T>, entries: seq<T>)
    requires |log| <= MaxLogEntries
    ensures AppendAll(log, entries) == Window(log + entries)
  {
    if entries == [] {
      assert log + entries == log;
    } else {
      var init := entries[..|entries| - 1];
      var last := entries[|entries| - 1];
      assert log + entries == (log + init) + [last];
      AppendAllWindow(log, init);
      AppendToWindow(log + init, last);
    }
  }

  /** A log that respects the bound keeps respecting it. */
  lemma AppendAllBounded<T>(log: seq<T>, entries: seq<T>)
    requires |log| <= MaxLogEntries
    ensures |AppendAll(log, entries)| <= MaxLogEntries
  {
    AppendAllWindow(log, entries);
  }

  /** PHP's `array_reverse`. */
  function Reversed<T>(s: seq<T>): (r: seq<T>)
    ensures |r| == |s|
  {
    if s == [] then [] else [s[|s| - 1]] + Reversed(s[..|s| - 1])
  }

  lemma {:induction false} ReversedIndex<T>(s: seq<T>, i: nat)
    requires i < |s|
    ensures Reversed(s)[i] == s[|s| - 1 - i]
  {
    if i > 0 {
      ReversedIndex(s[..|s| - 1], i - 1);
    }
  }

  /** `array_slice(array_reverse($log), 0, $n)`: the newest `n` entries,
      newest first. */
  function Newest<T>(log: seq<T>, n: nat): (r: seq<T>)
    ensures |r| == Min(n, |log|)
    ensures forall i :: 0 <= i < |r| ==> r[i] == log[|log| - 1 - i]
  {
    var k := Min(n, |log|);
    assert forall i :: 0 <= i < k ==> Reversed(log)[i] == log[|log| - 1 - i] by {
      forall i | 0 <= i < k {
        ReversedIndex(log, i);
      }
    }
    Reversed(log)[..k]
  }

  /** The status view of the bounded log shows the same entries as a view of
      everything ever logged: eviction never reaches the newest
      `RecentShown`. */
  lemma RecentSurvivesEviction<T>(all: seq<T>)
    ensures Newest(Window(all), RecentShown) == Newest(all, RecentShown)
  {
    var w := Window(all);
    var a := Newest(w, RecentShown);
    var b := Newest(all, RecentShown);
    assert |a| == |b|;
    forall i | 0 <= i < |a|
      ensures a[i] == b[i]
    {
      assert w[|w| - 1 - i] == all[|all| - 1 - i];
    }
  }
}
