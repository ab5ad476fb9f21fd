/**
 * The smoothed metric tracker of simplecv's logger and the registry of trackers
 * that a `Logger` keeps by metric name.
 */
module Logging {
  import opened Stats
  import opened Wrappers

  /** Window capacity of every tracker the registry creates. */
  const RegistryWindowSize: nat := 100

  function MinNat(a: nat, b: nat): nat
  {
    if a <= b then a else b
  }

  /** The last `min(n, |s|)` elements of `s`, in order. */
  function Latest(s: seq<real>, n: nat): (r: seq<real>)
    ensures |r| == MinNat(n, |s|)
  {
    s[|s| - MinNat(n, |s|)..]
  }

  /**
   * `append` on a `deque` created with `maxlen`: the value goes on the right end,
   * then, if that makes the deque longer than `maxlen`, the leftmost element is dropped.
   */
  function DequeAppend(w: seq<real>, v: real, maxlen: nat): (r: seq<real>)
    requires |w| <= maxlen
    ensures |r| <= maxlen
    ensures maxlen > 0 ==> r != [] && r[|r| - 1] == v
  {
    var grown := w + [v];
    if |grown| > maxlen then grown[1..] else grown
  }

  /** On a full deque, `append` evicts exactly the oldest element (first in, first out). */
  lemma DequeAppendFull(w: seq<real>, v: real, maxlen: nat)
    requires |w| == maxlen > 0
    ensures DequeAppend(w, v, maxlen) == w[1..] + [v]
    ensures multiset(DequeAppend(w, v, maxlen)) == multiset(w) - multiset{w[0]} + multiset{v}
  {
    assert w == [w[0]] + w[1..];
  }

  /**
   * Appending to the window of the last `n` values gives the window of the last `n`
   * values of the extended history.
   */
  lemma LatestAppend(s: seq<real>, v: real, n: nat)
    ensures DequeAppend(Latest(s, n), v, n) == Latest(s + [v], n)
  {
  }

  /** The registry's histories after `value` is fed to the tracker of `key`. */
  function Record(h: map<string, seq<real>>, key: string, value: real): map<string, seq<real>>
  {
    h[key := (if key in h then h[key] else []) + [value]]
  }

  /**
   * The registry's histories after one call with `d`: every name of `d` has its value
   * appended, a new name starts a history of its own, and every other history is kept.
   */
  function RecordAll(h: map<string, seq<real>>, d: map<string, real>): map<string, seq<real>>
  {
    map key | key in h.Keys + d.Keys ::
      (if key in h then h[key] else []) + (if key in d then [d[key]] else [])
  }

  /**
   * What one call does to each name: a name absent from `d` keeps its history, a name of `d`
   * gets exactly its value appended, and a new name of `d` starts a history of that value alone.
   */
  lemma RecordAllEffect(h: map<string, seq<real>>, d: map<string, real>)
    ensures RecordAll(h, d).Keys == h.Keys + d.Keys
    ensures forall key | key in h && key !in d :: RecordAll(h, d)[key] == h[key]
    ensures forall key | key in h && key in d :: RecordAll(h, d)[key] == h[key] + [d[key]]
    ensures forall key | key !in h && key in d :: RecordAll(h, d)[key] == [d[key]]
  {
  }

  function Restrict(d: map<string, real>, keys: set<string>): map<string, real>
  {
    map key | key in d && key in keys :: d[key]
  }

  /** Feeding one more name of `d` extends the partial effect of the call by that name. */
  lemma RecordAllStep(h: map<string, seq<real>>, d: map<string, real>, done: set<string>, key: string)
    requires key in d && key !in done
    ensures Record(RecordAll(h, Restrict(d, done)), key, d[key]) == RecordAll(h, Restrict(d, done + {key}))
  {
    var before := RecordAll(h, Restrict(d, done));
    var after := RecordAll(h, Restrict(d, done + {key}));
    assert Record(before, key, d[key]).Keys == after.Keys;
    forall k | k in after
      ensures Record(before, key, d[key])[k] == after[k]
    {
    }
  }

  /** Before any name is processed, the call has changed nothing. */
  lemma RecordAllNothing(h: map<string, seq<real>>, d: map<string, real>)
    ensures RecordAll(h, Restrict(d, {})) == h
  {
    assert Restrict(d, {}) == map[];
    var r := RecordAll(h, map[]);
    assert r.Keys == h.Keys;
    forall k | k in h
      ensures r[k] == h[k]
    {
      assert h[k] + [] == h[k];
    }
  }

  /** Moving one of the pending keys to the processed ones keeps them a partition. */
  lemma MoveKey(pending: set<string>, done: set<string>, key: string)
    requires key in pending && pending !! done
    ensures (pending - {key}) !! (done + {key})
    ensures (pending - {key}) + (done + {key}) == pending + done
  {
  }

  /**
   * Tracks a series of values and gives their average and median over a window of the
   * most recent ones, and the average over the whole series.
   */
  class SmoothedValue {
    const windowSize: nat
    var window: seq<real>
    var series: seq<real>
    var total: real
    var count: int

    /** The running totals agree with the history, and the window holds its latest values. */
    ghost predicate Valid()
      reads this
    {
      && count == |series|
      && total == Sum(series)
      && window == Latest(series, windowSize)
    }

    /** A valid tracker of the registry's window size that has been fed at least once. */
    ghost predicate Fed()
      reads this
    {
      Valid() && windowSize == RegistryWindowSize && series != []
    }

    constructor (windowSize: nat)
      ensures Valid()
      ensures this.windowSize == windowSize
      ensures window == [] && series == [] && total == 0.0 && count == 0
    {
      this.windowSize := windowSize;
      window := [];
      series := [];
      total := 0.0;
      count := 0;
    }

    method AddValue(value: real)
      requires Valid()
      modifies this
      ensures Valid()
      ensures window == DequeAppend(old(window), value, windowSize)
      ensures series == old(series) + [value]
      ensures count == old(count) + 1
      ensures total == old(total) + value
    {
      LatestAppend(series, value, windowSize);
      SumAppend(series, value);
      window := DequeAppend(window, value, windowSize);
      series := series + [value];
      count := count + 1;
      total := total + value;
    }

    /** Median of the window, as `numpy.median` gives it. */
    function MedianValue(): (r: real)
      reads this
      requires Valid() && window != []
      ensures r == Median(Latest(series, windowSize))
      ensures SplitsInHalves(window, r)
    {
      MedianSplitsInHalves(window);
      Median(window)
    }

    /** Mean of the window, as `numpy.mean` gives it. */
    function AverageValue(): (r: real)
      reads this
      requires Valid() && window != []
      ensures r == Mean(Latest(series, windowSize))
      ensures count <= windowSize ==> r == GlobalAverageValue()
    {
      Mean(window)
    }

    /** Running total over running count. */
    function GlobalAverageValue(): (r: real)
      reads this
      requires Valid() && count > 0
      ensures r == Mean(series)
    {
      total / count as real
    }
  }

  /** A tracker fed a single value `v` reports `v` as its median, its average and its global average. */
  method FirstValueQueries(windowSize: nat, v: real) returns (median: real, average: real, globalAverage: real)
    requires windowSize > 0
    ensures median == v && average == v && globalAverage == v
  {
    var tracker := new SmoothedValue(windowSize);
    tracker.AddValue(v);
    assert tracker.window == [v];
    assert Sort([v]) == [v] by {
      assert [v][1..] == [];
    }
    median := tracker.MedianValue();
    average := tracker.AverageValue();
    globalAverage := tracker.GlobalAverageValue();
  }

  /** Holds the per-name trackers and, when visualisation is on, the directory it is written to. */
  class Logger {
    const useTensorboard: bool
    const summaryLogdir: Option<string>
    var smoothvalues: map<string, SmoothedValue>
    /** The name each registered tracker is kept under. */
    ghost var names: map<SmoothedValue, string>

    /**
     * Every registered tracker is valid, was made by the registry (window 100) and has been
     * fed at least once; distinct names have distinct trackers.
     */
    ghost predicate Valid()
      reads this, smoothvalues.Values
    {
      && (useTensorboard <==> summaryLogdir.Some?)
      && (forall key | key in smoothvalues :: smoothvalues[key].Fed())
      && (forall key | key in smoothvalues :: smoothvalues[key] in names && names[smoothvalues[key]] == key)
    }

    constructor Init(useTensorboard: bool, summaryLogdir: Option<string>)
      requires useTensorboard <==> summaryLogdir.Some?
      ensures Valid()
      ensures this.useTensorboard == useTensorboard && this.summaryLogdir == summaryLogdir
      ensures smoothvalues == map[]
    {
      this.useTensorboard := useTensorboard;
      this.summaryLogdir := summaryLogdir;
      smoothvalues := map[];
      names := map[];
    }

    /**
     * `Logger(name, level, use_tensorboard, tensorboard_logdir)`: refuses to enable the
     * visualisation writer without a directory for it.
     */
    static method Create(useTensorboard: bool, tensorboardLogdir: Option<string>)
      returns (r: Result<Logger, Error>)
      ensures r.Failure? <==> useTensorboard && tensorboardLogdir.None?
      ensures r.Failure? ==> r.error == ValueError("logdir is not None if you use tensorboard")
      ensures r.Success? ==>
        && fresh(r.value) && r.value.Valid()
        && r.value.useTensorboard == useTensorboard
        && r.value.summaryLogdir == (if useTensorboard then tensorboardLogdir else None)
        && r.value.smoothvalues == map[]
    {
      if useTensorboard && tensorboardLogdir.None? {
        return Failure(ValueError("logdir is not None if you use tensorboard"));
      }
      var logger := new Logger.Init(useTensorboard, if useTensorboard then tensorboardLogdir else None);
      r := Success(logger);
    }

    /** The history of every registered name. */
    ghost function Histories(): (h: map<string, seq<real>>)
      reads this, smoothvalues.Values
      ensures h.Keys == smoothvalues.Keys
    {
      map key | key in smoothvalues :: smoothvalues[key].series
    }

    /** The registered names are those of `h`, and each tracker holds the history `h` gives its name. */
    ghost predicate Tracks(h: map<string, seq<real>>)
      reads this, smoothvalues.Values
    {
      smoothvalues.Keys == h.Keys && forall key | key in smoothvalues :: smoothvalues[key].series == h[key]
    }

    lemma TracksHistories(h: map<string, seq<real>>)
      ensures Tracks(h) <==> Histories() == h
    {
    }

    /** One turn of the registry loop: look up or create the tracker of `key`, then feed it `value`. */
    method AddToRegistry(key: string, value: real, ghost h: map<string, seq<real>>)
      requires Valid() && Tracks(h)
      modifies this`smoothvalues, this`names, smoothvalues.Values
      ensures Valid() && Tracks(Record(h, key, value))
      ensures forall k | k in old(smoothvalues) :: smoothvalues[k] == old(smoothvalues[k])
      ensures key !in old(smoothvalues) ==> fresh(smoothvalues[key])
    {
      if key in smoothvalues {
        FeedTracker(key, value, h);
      } else {
        var tracker := NewTracker(value);
        RegisterTracker(key, tracker, value, h);
      }
    }

    /** Feeds `value` to the tracker already registered under `key`. */
    method FeedTracker(key: string, value: real, ghost h: map<string, seq<real>>)
      requires Valid() && Tracks(h) && key in smoothvalues
      modifies smoothvalues[key]
      ensures Valid() && Tracks(Record(h, key, value))
      ensures smoothvalues == old(smoothvalues)
    {
      var tracker := smoothvalues[key];
      tracker.AddValue(value);
      forall k | k in smoothvalues
        ensures smoothvalues[k].Fed()
        ensures smoothvalues[k].series == Record(h, key, value)[k]
      {
        if k != key {
          assert smoothvalues[k] != tracker;
        }
      }
    }

    /** A fresh tracker of the registry's window size, fed `value`. */
    static method NewTracker(value: real) returns (tracker: SmoothedValue)
      ensures fresh(tracker) && tracker.Fed() && tracker.series == [value]
    {
      tracker := new SmoothedValue(RegistryWindowSize);
      tracker.AddValue(value);
    }

    /** Registers `tracker`, freshly made and fed `value`, under the new name `key`. */
    method RegisterTracker(key: string, tracker: SmoothedValue, value: real, ghost h: map<string, seq<real>>)
      requires Valid() && Tracks(h) && key !in smoothvalues
      requires tracker.Fed() && tracker.series == [value]
      requires forall k | k in smoothvalues :: smoothvalues[k] != tracker
      modifies this`smoothvalues, this`names
      ensures Valid() && Tracks(Record(h, key, value))
      ensures smoothvalues == old(smoothvalues)[key := tracker]
    {
      smoothvalues := smoothvalues[key := tracker];
      names := names[tracker := key];
      forall k | k in smoothvalues
        ensures smoothvalues[k].series == Record(h, key, value)[k]
      {
      }
    }

    /**
     * Feeds each named value to its tracker, creating a tracker of window 100 for a name
     * seen for the first time.
     */
    method FeedAll(lossDict: map<string, real>)
      requires Valid()
      modifies this`smoothvalues, this`names, smoothvalues.Values
      ensures Valid()
      ensures Histories() == RecordAll(old(Histories()), lossDict)
      ensures forall key | key in old(smoothvalues) :: smoothvalues[key] == old(smoothvalues[key])
      ensures forall key | key in smoothvalues && key !in old(smoothvalues) :: fresh(smoothvalues[key])
    {
      ghost var start := Histories();
      ghost var expected := start;
      TracksHistories(start);
      RecordAllNothing(start, lossDict);
      var pending := lossDict.Keys;
      ghost var done: set<string> := {};
      while pending != {}
        invariant pending !! done && pending + done == lossDict.Keys
        invariant expected == RecordAll(start, Restrict(lossDict, done))
        invariant Valid() && Tracks(expected)
        invariant forall key | key in old(smoothvalues) :: smoothvalues[key] == old(smoothvalues[key])
        invariant forall key | key in smoothvalues && key !in old(smoothvalues) :: fresh(smoothvalues[key])
        decreases pending
      {
        var key :| key in pending;
        AddToRegistry(key, lossDict[key], expected);
        RecordAllStep(start, lossDict, done, key);
        MoveKey(pending, done, key);
        expected := Record(expected, key, lossDict[key]);
        pending := pending - {key};
        done := done + {key};
      }
      assert Restrict(lossDict, done) == lossDict;
      TracksHistories(expected);
    }

    /** The windowed average of every registered name: the mean of its latest 100 values. */
    function Averages(): (r: map<string, real>)
      reads this, smoothvalues.Values
      requires Valid()
      ensures r.Keys == smoothvalues.Keys
      ensures forall key | key in r :: r[key] == Mean(Latest(smoothvalues[key].series, RegistryWindowSize))
    {
      map key | key in smoothvalues :: smoothvalues[key].AverageValue()
    }

    /**
     * `create_or_get_smoothvalues`: records every named value and returns the windowed
     * average of every registered name, including names absent from `lossDict`.
     */
    method CreateOrGetSmoothValues(lossDict: map<string, real>) returns (smoothed: map<string, real>)
      requires Valid()
      modifies this`smoothvalues, this`names, smoothvalues.Values
      ensures Valid()
      ensures Histories() == RecordAll(old(Histories()), lossDict)
      ensures forall key | key in old(smoothvalues) :: smoothvalues[key] == old(smoothvalues[key])
      ensures forall key | key in smoothvalues && key !in old(smoothvalues) :: fresh(smoothvalues[key])
      ensures smoothed.Keys == old(smoothvalues).Keys + lossDict.Keys
      ensures forall key | key in smoothed ::
        key in smoothvalues && smoothed[key] == Mean(Latest(smoothvalues[key].series, RegistryWindowSize))
    {
      FeedAll(lossDict);
      smoothed := Averages();
    }
  }
}
