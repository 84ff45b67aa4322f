/** The frequency analyzer view of the sub-GHz application: the controller that
    receives samples from the sampling worker, tracks whether a signal is
    locked, notifies its parent scene of lock and unlock transitions, and keeps
    the three most recently locked frequencies in the view model. */
module FrequencyAnalyzer {
  import opened Ints
  import opened InputEvents

  /** The custom events the view sends to its parent scene. */
  datatype CustomEvent = AnalyzerLock | AnalyzerUnlock

  /** `history_frequency[3]`: newest first, 0 marks an empty slot. */
  type History = h: seq<u32> | |h| == 3 witness [0, 0, 0]

  /** One reading delivered by the sampling worker: frequency in Hz, RSSI
      (0 means "no signal") and whether it classifies as a signal. */
  datatype Sample = Sample(frequency: u32, rssi: real, signal: bool)

  /** The value of the locked view model. */
  datatype ModelValue = ModelValue(frequency: u32, rssi: real, history: History, signal: bool)

  /** The value of the whole controller: its own flags and the view model. */
  datatype Snapshot = Snapshot(locked: bool, hasCallback: bool, model: ModelValue)

  /** The notifications one pair callback sends to the parent scene. */
  function PairEvents(st: Snapshot, x: Sample): (e: seq<CustomEvent>)
    ensures e == [AnalyzerLock] <==> st.hasCallback && x.rssi != 0.0 && !st.locked
    ensures e == [AnalyzerUnlock] <==> st.hasCallback && x.rssi == 0.0 && st.locked
    ensures e == [] <==> !st.hasCallback || (x.rssi != 0.0) == st.locked
  {
    if x.rssi == 0.0 && st.locked then
      (if st.hasCallback then [AnalyzerUnlock] else [])
    else if x.rssi != 0.0 && !st.locked then
      (if st.hasCallback then [AnalyzerLock] else [])
    else
      []
  }

  /** The controller after one pair callback. */
  function PairStep(st: Snapshot, x: Sample): (r: Snapshot)
    ensures !(x.rssi == 0.0 && st.locked) ==> r.model.history == st.model.history
  {
    var history :=
      if x.rssi == 0.0 && st.locked
      then [st.model.frequency, st.model.history[0], st.model.history[1]]
      else st.model.history;
    Snapshot(x.rssi != 0.0, st.hasCallback, ModelValue(x.frequency, x.rssi, history, x.signal))
  }

  /** What one pair callback promises, whatever the prior state. */
  lemma PairStepEffect(st: Snapshot, x: Sample)
    ensures PairStep(st, x).locked <==> x.rssi != 0.0
    ensures PairStep(st, x).hasCallback == st.hasCallback
    ensures var m := PairStep(st, x).model;
      m.rssi == x.rssi && m.frequency == x.frequency && m.signal == x.signal
    ensures x.rssi == 0.0 && st.locked ==>
      PairStep(st, x).model.history == [st.model.frequency, st.model.history[0], st.model.history[1]]
    ensures !(x.rssi == 0.0 && st.locked) ==> PairStep(st, x).model.history == st.model.history
  {
  }

  /** The view model after `enter`: RSSI, frequency and history cleared. */
  function Entered(st: Snapshot): (r: Snapshot)
  {
    st.(model := st.model.(rssi := 0.0, frequency := 0, history := [0, 0, 0]))
  }

  /** The view model after `exit`: only RSSI cleared. */
  function Exited(st: Snapshot): (r: Snapshot)
  {
    st.(model := st.model.(rssi := 0.0))
  }

  /** `enter` clears every field but `signal`; `exit` clears only the RSSI; an
      enter followed at once by an exit leaves an empty history and no RSSI. */
  lemma LifecycleResets(st: Snapshot)
    ensures var e := Entered(st).model;
      e.rssi == 0.0 && e.frequency == 0 && e.history == [0, 0, 0] && e.signal == st.model.signal
    ensures Entered(st).locked == st.locked && Entered(st).hasCallback == st.hasCallback
    ensures var q := Exited(st).model;
      q.rssi == 0.0 && q.frequency == st.model.frequency && q.history == st.model.history
      && q.signal == st.model.signal
    ensures Exited(st).locked == st.locked && Exited(st).hasCallback == st.hasCallback
    ensures Exited(Entered(st)).model.history == [0, 0, 0] && Exited(Entered(st)).model.rssi == 0.0
  {
  }

  /** `enter` does not reset `locked`: when the view was left while locked,
      the first zero-RSSI sample after re-entering still sends an unlock
      notification, and the history it shifts stays empty because `enter`
      cleared the frequency it records. */
  lemma ReenterWhileLocked(st: Snapshot, x: Sample)
    requires st.locked && st.hasCallback && x.rssi == 0.0
    ensures PairEvents(Entered(Exited(st)), x) == [AnalyzerUnlock]
    ensures PairStep(Entered(Exited(st)), x).model.history == [0, 0, 0]
  {
  }

  /** The input callback: every key is consumed except Back, which is passed
      on so that the view dispatcher leaves the view. */
  function Input(event: InputEvent): (handled: bool)
    ensures !handled <==> event.key == Back
  {
    if event.key == Back then false else true
  }

  /** The locked view model: `SubGhzFrequencyAnalyzerModel`. */
  class ViewModel {
    var frequency: u32
    var rssi: real
    const history: array<u32>
    var signal: bool

    ghost predicate Valid()
      reads this
    {
      history.Length == 3
    }

    ghost function Value(): ModelValue
      reads this, history
      requires Valid()
    {
      ModelValue(frequency, rssi, history[..], signal)
    }

    /** A model holding `init`, standing for whatever the allocator left in it. */
    constructor (init: ModelValue)
      ensures Valid() && fresh(history) && Value() == init
    {
      frequency := init.frequency;
      rssi := init.rssi;
      history := new u32[3] [init.history[0], init.history[1], init.history[2]];
      signal := init.signal;
    }
  }

  /** The view controller: `struct SubGhzFrequencyAnalyzer`. The callback is
      represented only by whether it is set; `events` logs the notifications
      it has received. */
  class Analyzer {
    var locked: bool
    var hasCallback: bool
    const model: ViewModel
    ghost var events: seq<CustomEvent>

    ghost predicate Valid()
      reads this, model
    {
      model.Valid()
    }

    ghost function View(): Snapshot
      reads this, model, model.history
      requires Valid()
    {
      Snapshot(locked, hasCallback, model.Value())
    }

    /** `subghz_frequency_analyzer_alloc`. It clears only the RSSI: `locked`,
        the callback and the other model fields keep whatever the allocator
        left, given here as `locked0`, `hasCallback0` and `garbage`. */
    constructor Alloc(locked0: bool, hasCallback0: bool, garbage: ModelValue)
      ensures Valid() && fresh(model) && fresh(model.history)
      ensures View() == Snapshot(locked0, hasCallback0, garbage.(rssi := 0.0))
      ensures events == []
    {
      locked := locked0;
      hasCallback := hasCallback0;
      model := new ViewModel(garbage);
      events := [];
      new;
      model.rssi := 0.0;
    }

    /** `subghz_frequency_analyzer_set_callback`: registers the parent's callback. */
    method SetCallback()
      requires Valid()
      modifies this
      ensures Valid()
      ensures View() == old(View()).(hasCallback := true)
      ensures events == old(events)
    {
      hasCallback := true;
    }

    /** `subghz_frequency_analyzer_pair_callback`: one sample from the worker. */
    method PairCallback(frequency: u32, rssi: real, signal: bool)
      requires Valid()
      modifies this, model, model.history
      ensures Valid()
      ensures View() == PairStep(old(View()), Sample(frequency, rssi, signal))
      ensures events == old(events) + PairEvents(old(View()), Sample(frequency, rssi, signal))
    {
      if rssi == 0.0 && locked {
        if hasCallback {
          events := events + [AnalyzerUnlock];
        }
        model.history[2] := model.history[1];
        model.history[1] := model.history[0];
        model.history[0] := model.frequency;
      } else if rssi != 0.0 && !locked {
        if hasCallback {
          events := events + [AnalyzerLock];
        }
      }
      locked := rssi != 0.0;
      model.rssi := rssi;
      model.frequency := frequency;
      model.signal := signal;
    }

    /** `subghz_frequency_analyzer_enter`, apart from starting the worker. */
    method Enter()
      requires Valid()
      modifies model, model.history
      ensures Valid()
      ensures View() == Entered(old(View()))
      ensures events == old(events)
    {
      model.rssi := 0.0;
      model.frequency := 0;
      model.history[2] := 0;
      model.history[1] := 0;
      model.history[0] := 0;
    }

    /** `subghz_frequency_analyzer_exit`, apart from stopping the worker. */
    method Exit()
      requires Valid()
      modifies model
      ensures Valid()
      ensures View() == Exited(old(View()))
      ensures events == old(events)
    {
      model.rssi := 0.0;
    }
  }
}
