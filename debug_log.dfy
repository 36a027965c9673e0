/** The page's diagnostic log: `addDebugInfo` keeps the last four entries and
    appends the new one, so the log is a FIFO of capacity five. */
module DebugLog {

  const Capacity: nat := 5

  /** The text of one log line: a time stamp (opaque here), a colon and the message. */
  function Entry(stamp: string, message: string): string
  {
    stamp + ": " + message
  }

  /** The newest `Capacity` items of `s`, in their original order. */
  function Newest<T>(s: seq<T>): (r: seq<T>)
    ensures |r| == if |s| <= Capacity then |s| else Capacity
  {
    if |s| <= Capacity then s else s[|s| - Capacity..]
  }

  /** `[...prev.slice(-4), entry]`: the log after one more entry. */
  function Append(prev: seq<string>, entry: string): (r: seq<string>)
    ensures 1 <= |r| <= Capacity
    ensures |prev| < Capacity ==> |r| == |prev| + 1
    ensures r[|r| - 1] == entry
    ensures r == Newest(prev + [entry])
  {
    var kept := if |prev| <= Capacity - 1 then prev else prev[|prev| - (Capacity - 1)..];
    assert kept + [entry] == Newest(prev + [entry]) by {
      var n := Newest(prev + [entry]);
      assert |kept + [entry]| == |n|;
      forall k | 0 <= k < |n| ensures (kept + [entry])[k] == n[k] {
      }
    }
    kept + [entry]
  }

  /** The log after appending `entries` one at a time, first to last. */
  function AppendAll(prev: seq<string>, entries: seq<string>): seq<string>
  {
    if entries == [] then prev
    else Append(AppendAll(prev, entries[..|entries| - 1]), entries[|entries| - 1])
  }

  /** Appending to the newest part of a log gives the same result as appending to the whole log. */
  lemma AppendToNewest(prev: seq<string>, entry: string)
    ensures Append(Newest(prev), entry) == Append(prev, entry)
  {
  }

  /** However many entries are logged, the log holds the newest `Capacity` of
      everything logged, in logging order; so it never exceeds `Capacity`. */
  lemma {:induction false} AppendAllKeepsNewest(prev: seq<string>, entries: seq<string>)
    requires entries != [] || |prev| <= Capacity
    ensures AppendAll(prev, entries) == Newest(prev + entries)
    ensures |AppendAll(prev, entries)| <= Capacity
    ensures entries != [] ==> AppendAll(prev, entries)[|AppendAll(prev, entries)| - 1] == entries[|entries| - 1]
  {
    if entries == [] {
      assert prev + entries == prev;
    } else {
      var init, last := entries[..|entries| - 1], entries[|entries| - 1];
      assert prev + entries == (prev + init) + [last];
      if init == [] {
        assert prev + init == prev;
      } else {
        AppendAllKeepsNewest(prev, init);
        calc {
          AppendAll(prev, entries);
          Append(AppendAll(prev, init), last);
          Append(Newest(prev + init), last);
          { AppendToNewest(prev + init, last); }
          Append(prev + init, last);
          Newest((prev + init) + [last]);
        }
      }
    }
  }
}
