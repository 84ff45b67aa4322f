/** Properties of the frequency analyzer over a whole stream of samples, as
    the sampling worker delivers them one pair callback after another. */
module AnalyzerRuns {
  import opened Ints
  import opened FrequencyAnalyzer

  /** The controller after the pair callbacks for `xs`, in order. */
  function Run(st: Snapshot, xs: seq<Sample>): (r: Snapshot)
    decreases |xs|
  {
    if xs == [] then st else PairStep(Run(st, xs[..|xs| - 1]), xs[|xs| - 1])
  }

  /** The notifications sent during those callbacks, in order. */
  function RunEvents(st: Snapshot, xs: seq<Sample>): (e: seq<CustomEvent>)
    ensures |e| <= |xs|
    decreases |xs|
  {
    if xs == [] then []
    else RunEvents(st, xs[..|xs| - 1]) + PairEvents(Run(st, xs[..|xs| - 1]), xs[|xs| - 1])
  }

  /** After any non-empty stream, `locked` says whether the last sample had a
      non-zero RSSI, and the model holds that last sample. */
  lemma RunTracksLastSample(st: Snapshot, xs: seq<Sample>)
    requires xs != []
    ensures var last := xs[|xs| - 1];
      Run(st, xs).locked == (last.rssi != 0.0)
      && Run(st, xs).model.frequency == last.frequency
      && Run(st, xs).model.rssi == last.rssi
      && Run(st, xs).model.signal == last.signal
  {
  }

  /** Pair callbacks never register or drop the parent's callback. */
  lemma {:induction false} RunKeepsCallback(st: Snapshot, xs: seq<Sample>)
    ensures Run(st, xs).hasCallback == st.hasCallback
    decreases |xs|
  {
    if xs != [] {
      RunKeepsCallback(st, xs[..|xs| - 1]);
    }
  }

  /** Without a callback no notification is ever sent. */
  lemma {:induction false} NoCallbackNoEvents(st: Snapshot, xs: seq<Sample>)
    requires !st.hasCallback
    ensures RunEvents(st, xs) == []
    decreases |xs|
  {
    if xs != [] {
      NoCallbackNoEvents(st, xs[..|xs| - 1]);
      RunKeepsCallback(st, xs[..|xs| - 1]);
    }
  }

  /** With a callback, notifications alternate between lock and unlock: the
      first one is a lock exactly when the controller started unlocked, and
      the last one is a lock exactly when the controller ends locked. */
  lemma {:induction false} EventsAlternate(st: Snapshot, xs: seq<Sample>)
    requires st.hasCallback
    ensures var e := RunEvents(st, xs);
      forall i :: 0 <= i < |e| - 1 ==> e[i] != e[i + 1]
    ensures var e := RunEvents(st, xs);
      e != [] ==> (e[0] == AnalyzerLock <==> !st.locked)
    ensures var e := RunEvents(st, xs);
      e != [] ==> (e[|e| - 1] == AnalyzerLock <==> Run(st, xs).locked)
    ensures RunEvents(st, xs) == [] ==> Run(st, xs).locked == st.locked
    decreases |xs|
  {
    if xs != [] {
      var init := xs[..|xs| - 1];
      EventsAlternate(st, init);
      RunKeepsCallback(st, init);
      var before := RunEvents(st, init);
      var now := PairEvents(Run(st, init), xs[|xs| - 1]);
      assert RunEvents(st, xs) == before + now;
      if now == [] {
        assert Run(st, xs).locked == Run(st, init).locked;
      }
    }
  }

  /** Whether the controller is locked just before the `k`-th sample, read off
      the stream itself: the previous sample had a non-zero RSSI. */
  function LockedBefore(st: Snapshot, xs: seq<Sample>, k: nat): bool
    requires k < |xs|
  {
    if k == 0 then st.locked else xs[k - 1].rssi != 0.0
  }

  /** The frequency the model holds just before the `k`-th sample. */
  function FrequencyBefore(st: Snapshot, xs: seq<Sample>, k: nat): u32
    requires k < |xs|
  {
    if k == 0 then st.model.frequency else xs[k - 1].frequency
  }

  /** The frequencies recorded by unlock transitions, oldest first: at every
      zero-RSSI sample that follows a locked state, the frequency held before it. */
  function Recorded(st: Snapshot, xs: seq<Sample>): seq<u32>
    decreases |xs|
  {
    if xs == [] then []
    else
      var k := |xs| - 1;
      Recorded(st, xs[..k])
        + (if xs[k].rssi == 0.0 && LockedBefore(st, xs, k) then [FrequencyBefore(st, xs, k)] else [])
  }

  function Reversed(s: seq<u32>): seq<u32>
    decreases |s|
  {
    if s == [] then [] else [s[|s| - 1]] + Reversed(s[..|s| - 1])
  }

  lemma ReversedSnoc(s: seq<u32>, a: u32)
    ensures Reversed(s + [a]) == [a] + Reversed(s)
  {
    assert (s + [a])[..|s|] == s;
  }

  /** The stream-derived lock state and frequency before the last sample
      agree with the controller's state after the samples before it. */
  lemma StateBeforeLast(st: Snapshot, xs: seq<Sample>)
    requires xs != []
    ensures var k := |xs| - 1;
      LockedBefore(st, xs, k) == Run(st, xs[..k]).locked
      && FrequencyBefore(st, xs, k) == Run(st, xs[..k]).model.frequency
  {
    var k := |xs| - 1;
    if k > 0 {
      var init := xs[..k];
      assert init[k - 1] == xs[k - 1];
      RunTracksLastSample(st, init);
    }
  }

  /** The history after a stream is the three most recently recorded
      frequencies, newest first, topped up from the history it started with. */
  lemma {:induction false} HistoryRecordsUnlocks(st: Snapshot, xs: seq<Sample>)
    ensures |Reversed(Recorded(st, xs)) + st.model.history| >= 3
    ensures Run(st, xs).model.history == (Reversed(Recorded(st, xs)) + st.model.history)[..3]
    decreases |xs|
  {
    if xs != [] {
      var k := |xs| - 1;
      var init := xs[..k];
      HistoryRecordsUnlocks(st, init);
      StateBeforeLast(st, xs);
      var rec := Recorded(st, init);
      var prev := Run(st, init);
      var base := Reversed(rec) + st.model.history;
      assert prev.model.history == base[..3];
      if xs[k].rssi == 0.0 && prev.locked {
        var f := prev.model.frequency;
        assert Recorded(st, xs) == rec + [f];
        ReversedSnoc(rec, f);
        assert Reversed(rec + [f]) + st.model.history == [f] + base;
        assert Run(st, xs).model.history == [f, base[0], base[1]];
      } else {
        assert Recorded(st, xs) == rec;
        assert Run(st, xs).model.history == prev.model.history;
      }
    }
  }

  /** A lock followed by an unlock, starting unlocked with an empty history:
      the parent sees a lock then an unlock, and the history records the
      locked frequency. */
  lemma LockThenUnlock(st: Snapshot)
    requires !st.locked && st.hasCallback && st.model.history == [0, 0, 0]
    ensures var xs := [Sample(100_000_000, -80.0, true), Sample(100_000_000, 0.0, false)];
      RunEvents(st, xs) == [AnalyzerLock, AnalyzerUnlock]
      && !Run(st, xs).locked
      && Run(st, xs).model.history == [100_000_000, 0, 0]
  {
    var xs := [Sample(100_000_000, -80.0, true), Sample(100_000_000, 0.0, false)];
    assert xs[..1] == [xs[0]] && [xs[0]][..0] == [];
  }

  /** Three lock/unlock cycles on `f1`, `f2`, `f3` leave the history
      `[f3, f2, f1]`, whatever the history and lock state were before. The
      zero-RSSI samples may carry any frequency: it is the frequency held
      while locked that is recorded. */
  lemma ThreeCycles(st: Snapshot, f1: u32, f2: u32, f3: u32, g1: u32, g2: u32, g3: u32, r: real)
    requires r != 0.0
    ensures Run(st, [Sample(f1, r, true), Sample(g1, 0.0, false),
                     Sample(f2, r, true), Sample(g2, 0.0, false),
                     Sample(f3, r, true), Sample(g3, 0.0, false)]).model.history == [f3, f2, f1]
  {
    var xs := [Sample(f1, r, true), Sample(g1, 0.0, false),
               Sample(f2, r, true), Sample(g2, 0.0, false),
               Sample(f3, r, true), Sample(g3, 0.0, false)];
    HistoryRecordsUnlocks(st, xs);
    assert xs[..5][..4] == xs[..4] && xs[..4][..3] == xs[..3] && xs[..3][..2] == xs[..2];
    assert xs[..2][..1] == xs[..1] && xs[..1][..0] == [];
    assert Recorded(st, xs[..1]) == [];
    assert Recorded(st, xs[..2]) == [f1];
    assert Recorded(st, xs[..3]) == [f1];
    assert Recorded(st, xs[..4]) == [f1, f2];
    assert Recorded(st, xs[..5]) == [f1, f2];
    assert Recorded(st, xs) == [f1, f2, f3];
    assert [f1, f2, f3][..2] == [f1, f2] && [f1, f2][..1] == [f1] && [f1][..0] == [];
    assert Reversed([f1]) == [f1];
    assert Reversed([f1, f2]) == [f2, f1];
    assert Reversed([f1, f2, f3]) == [f3, f2, f1];
  }
}
