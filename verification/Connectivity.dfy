/**
 gRPC connectivity states and the incremental state evaluator.

 The evaluator belongs to gRPC v1.64.0: it keeps one counter per state (Shutdown is not
 counted) and reports the first of Ready, Connecting, Idle that has a non-zero counter,
 and TransientFailure otherwise. Its counters are unsigned in Go; here they are integers,
 and `Histogram` equality is what rules an underflow out.
 */
module Connectivity {

  /** `Idle` is the zero value of Go's `connectivity.State`. */
  datatype State = Idle | Connecting | Ready | TransientFailure | Shutdown

  datatype Counters = Counters(ready: int, connecting: int, idle: int, transientFailure: int)

  const ZERO := Counters(0, 0, 0, 0)

  function Bump(c: Counters, s: State, delta: int): Counters {
    match s
    case Ready => c.(ready := c.ready + delta)
    case Connecting => c.(connecting := c.connecting + delta)
    case Idle => c.(idle := c.idle + delta)
    case TransientFailure => c.(transientFailure := c.transientFailure + delta)
    case Shutdown => c
  }

  function Transition(c: Counters, from: State, to: State): Counters {
    Bump(Bump(c, from, -1), to, 1)
  }

  function CurrentState(c: Counters): State {
    if c.ready > 0 then Ready
    else if c.connecting > 0 then Connecting
    else if c.idle > 0 then Idle
    else TransientFailure
  }

  class ConnectivityStateEvaluator {
    var numReady: int
    var numConnecting: int
    var numIdle: int
    var numTransientFailure: int

    ghost function View(): Counters
      reads this
    {
      Counters(numReady, numConnecting, numIdle, numTransientFailure)
    }

    constructor ()
      ensures View() == ZERO
    {
      numReady, numConnecting, numIdle, numTransientFailure := 0, 0, 0, 0;
    }

    method Add(s: State, delta: int)
      modifies this
      ensures View() == Bump(old(View()), s, delta)
    {
      match s {
        case Ready => numReady := numReady + delta;
        case Connecting => numConnecting := numConnecting + delta;
        case Idle => numIdle := numIdle + delta;
        case TransientFailure => numTransientFailure := numTransientFailure + delta;
        case Shutdown =>
      }
    }

    method RecordTransition(from: State, to: State) returns (s: State)
      modifies this
      ensures View() == Transition(old(View()), from, to)
      ensures s == CurrentState(View())
    {
      Add(from, -1);
      Add(to, 1);
      if numReady > 0 {
        return Ready;
      }
      if numConnecting > 0 {
        return Connecting;
      }
      if numIdle > 0 {
        return Idle;
      }
      return TransientFailure;
    }
  }

  // ---------- what the counters stand for ----------

  /** The tracked connections that are in state `s`. */
  ghost function InState<K>(m: map<K, State>, s: State): set<K> {
    set k | k in m && m[k] == s
  }

  ghost function Histogram<K>(m: map<K, State>): Counters {
    Counters(|InState(m, Ready)|, |InState(m, Connecting)|, |InState(m, Idle)|,
             |InState(m, TransientFailure)|)
  }

  /** The aggregate the evaluator stands for, defined on the tracked states alone. */
  ghost function Aggregate<K>(m: map<K, State>): State {
    if exists k :: k in m && m[k] == Ready then Ready
    else if exists k :: k in m && m[k] == Connecting then Connecting
    else if exists k :: k in m && m[k] == Idle then Idle
    else TransientFailure
  }

  /** The tracked states after connection `k` reports `s`; a Shutdown report ends tracking. */
  function Track<K>(m: map<K, State>, k: K, s: State): map<K, State> {
    if s == Shutdown then m - {k} else m[k := s]
  }

  lemma InStateEmpty<K>(m: map<K, State>, s: State)
    ensures |InState(m, s)| > 0 <==> exists k :: k in m && m[k] == s
  {
    if k :| k in m && m[k] == s {
      assert k in InState(m, s);
    }
    if |InState(m, s)| > 0 {
      var k :| k in InState(m, s);
    }
  }

  /** The counters give the aggregate they are meant to give. */
  lemma HistogramAggregates<K>(m: map<K, State>)
    ensures CurrentState(Histogram(m)) == Aggregate(m)
  {
    InStateEmpty(m, Ready);
    InStateEmpty(m, Connecting);
    InStateEmpty(m, Idle);
  }

  lemma RemoveOne<K>(s: set<K>, k: K)
    ensures |s| == |s - {k}| + (if k in s then 1 else 0)
  {
  }

  lemma TrackElsewhere<K>(m: map<K, State>, k: K, s: State, t: State)
    ensures InState(m, t) - {k} == InState(Track(m, k, s), t) - {k}
  {
  }

  lemma InStateTrack<K>(m: map<K, State>, k: K, s: State, t: State)
    requires t != Shutdown
    ensures |InState(Track(m, k, s), t)|
         == |InState(m, t)| - (if k in m && m[k] == t then 1 else 0) + (if s == t then 1 else 0)
  {
    RemoveOne(InState(m, t), k);
    RemoveOne(InState(Track(m, k, s), t), k);
    TrackElsewhere(m, k, s, t);
    assert k in InState(Track(m, k, s), t) <==> s == t;
  }

  /** One transition keeps the counters equal to the histogram: creation when `k` is new
      (the transition out of Shutdown), a change when it is tracked, removal on Shutdown. */
  lemma TransitionCounts<K>(m: map<K, State>, k: K, s: State)
    ensures Transition(Histogram(m), if k in m then m[k] else Shutdown, s) == Histogram(Track(m, k, s))
  {
    InStateTrack(m, k, s, Ready);
    InStateTrack(m, k, s, Connecting);
    InStateTrack(m, k, s, Idle);
    InStateTrack(m, k, s, TransientFailure);
  }

  /** The counters after a report of a tracked connection give the new aggregate. */
  lemma TransitionAggregates<K>(m: map<K, State>, c: Counters, k: K, s: State)
    requires c == Histogram(m) && k in m
    ensures Transition(c, m[k], s) == Histogram(Track(m, k, s))
    ensures CurrentState(Transition(c, m[k], s)) == Aggregate(Track(m, k, s))
  {
    TransitionCounts(m, k, s);
    HistogramAggregates(Track(m, k, s));
  }

  lemma TrackKeepsStates<K>(m: map<K, State>, k: K, s: State)
    requires forall c :: c in m ==> m[c] != Shutdown
    ensures forall c :: c in Track(m, k, s) ==> Track(m, k, s)[c] != Shutdown
  {
  }
}
