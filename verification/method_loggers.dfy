/**
 * The concrete observers that record a method's trajectory. Each `update`
 * reads public fields of the observed method and appends to its own lists;
 * it never writes to the method (here it is not given the method at all,
 * only the `View` of its public fields). Reading a field the observed method
 * does not have raises `AttributeError`, modelled as `MissingField`. Wall
 * clock readings (`time.time()`) are the parameter `now`.
 */
module MethodLoggers {
  import opened Wrappers
  import opened Vectors
  import opened Protocol
  import opened ObserverPattern

  datatype Fault = NotImplemented | MissingField(name: string) | IndexError

  datatype LoggerKind = TemplateKind | GenericKind | EnhancedKind | DgmFgmKind | PgmVisKind | SlimKind

  datatype Logger<X> =
    | BaseObserver
    | TemplateLogger(xIterates: seq<int>)
    | GenericLogger(lambdas: seq<Vec>, ds: seq<real>, xs: seq<Option<X>>)
    | EnhancedLogger(lambdas: seq<Vec>, ds: seq<real>, xs: seq<Option<X>>,
                     startTime: real, iterationTime: seq<real>, oracleCalls: seq<nat>)
    | DgmFgmLogger(lambdas: seq<Vec>, ds: seq<real>, xs: seq<Option<X>>,
                   startTime: real, iterationTime: seq<real>, oracleCalls: seq<nat>, lks: seq<real>)
    | PgmVisLogger(lambdas: seq<Vec>, ds: seq<real>, xs: seq<Option<X>>,
                   startTime: real, iterationTime: seq<real>, oracleCalls: seq<nat>, lks: seq<real>,
                   lambdaTildes: seq<Vec>, dTildes: seq<real>)
    | SlimLogger(ds: seq<real>, startTimes: seq<real>, iterationTime: seq<real>, oracleCalls: seq<nat>)

  /** Which logger class a state belongs to; the base observer is none of them. */
  function KindOf<X>(l: Logger<X>): Option<LoggerKind> {
    match l
    case BaseObserver => None
    case TemplateLogger(_) => Some(TemplateKind)
    case GenericLogger(_, _, _) => Some(GenericKind)
    case EnhancedLogger(_, _, _, _, _, _) => Some(EnhancedKind)
    case DgmFgmLogger(_, _, _, _, _, _, _) => Some(DgmFgmKind)
    case PgmVisLogger(_, _, _, _, _, _, _, _, _) => Some(PgmVisKind)
    case SlimLogger(_, _, _, _) => Some(SlimKind)
  }

  /** How many notifications a logger has recorded: the length of its value list, or of the template logger's counter list. */
  function Recorded<X>(l: Logger<X>): nat {
    match l
    case BaseObserver => 0
    case TemplateLogger(xs) => |xs|
    case _ => |l.ds|
  }

  /** The state each logger's constructor leaves behind: that class, with nothing recorded yet. */
  function NewLogger<X>(kind: LoggerKind): (r: Logger<X>)
    ensures KindOf(r) == Some(kind) && Recorded(r) == 0
  {
    match kind
    case TemplateKind => TemplateLogger([])
    case GenericKind => GenericLogger([], [], [])
    case EnhancedKind => EnhancedLogger([], [], [], 0.0, [], [])
    case DgmFgmKind => DgmFgmLogger([], [], [], 0.0, [], [], [])
    case PgmVisKind => PgmVisLogger([], [], [], 0.0, [], [], [], [], [])
    case SlimKind => SlimLogger([], [], [], [])
  }

  /** Number of entries registered under identity `id`. */
  function Occurrences<X>(observers: seq<Entry<Logger<X>>>, id: nat): nat {
    if |observers| == 0 then 0
    else (if observers[0].id == id then 1 else 0) + Occurrences(observers[1..], id)
  }

  lemma {:induction false} OccurrencesAppend<X>(a: seq<Entry<Logger<X>>>, b: seq<Entry<Logger<X>>>, id: nat)
    ensures Occurrences(a + b, id) == Occurrences(a, id) + Occurrences(b, id)
  {
    if |a| == 0 {
      assert a + b == b;
    } else {
      assert (a + b)[0] == a[0];
      assert (a + b)[1..] == a[1..] + b;
      OccurrencesAppend(a[1..], b, id);
    }
  }

  /**
   * A logger's constructor: build the empty logger and register it, once,
   * with the method it observes.
   */
  function Attach<X>(observers: seq<Entry<Logger<X>>>, id: nat, kind: LoggerKind): (r: seq<Entry<Logger<X>>>)
    ensures Occurrences(r, id) == Occurrences(observers, id) + 1
    ensures forall other :: other != id ==> Occurrences(r, other) == Occurrences(observers, other)
    ensures |r| == |observers| + 1 && r[..|observers|] == observers
    ensures r[|observers|] == Entry(id, NewLogger(kind))
  {
    var r := Register(observers, Entry(id, NewLogger(kind)));
    OccurrencesAppend(observers, [Entry(id, NewLogger(kind))], id);
    forall other | other != id
      ensures Occurrences(r, other) == Occurrences(observers, other)
    {
      OccurrencesAppend(observers, [Entry(id, NewLogger(kind))], other);
    }
    r
  }

  /** `L_k` of the observed method, or the `AttributeError` reading it raises. */
  function ReadLk<X>(v: View<X>): Result<real, Fault> {
    if v.DualView? && v.extras.lk.Some? then Success(v.extras.lk.value) else Failure(MissingField("L_k"))
  }

  /**
   * `update` of each logger for one notification carrying view `v`, at wall
   * clock `now`. The base `Observer.update` raises `NotImplementedError`.
   */
  function Update<X>(l: Logger<X>, v: View<X>, now: real): (r: Result<Logger<X>, Fault>)
    ensures r.Success? ==> KindOf(r.value) == KindOf(l) && Recorded(r.value) == Recorded(l) + 1
    ensures l.BaseObserver? ==> r == Failure(NotImplemented)
    ensures l.TemplateLogger? ==> (r.Success? <==> v.TemplateView?)
    ensures l.GenericLogger? || l.EnhancedLogger? ==> (r.Success? <==> v.DualView?)
    ensures l.DgmFgmLogger? ==> (r.Success? <==> v.DualView? && v.extras.lk.Some?)
    ensures l.PgmVisLogger? ==> (r.Success? <==> v.DualView? && v.extras.lk.Some? && v.extras.tilde.Some?)
    ensures l.SlimLogger? ==> (r.Success? <==> v.DualView? && !(|l.ds| > 0 && |l.startTimes| == 0))
  {
    match l
    case BaseObserver => Failure(NotImplemented)
    case TemplateLogger(xs) =>
      if v.TemplateView? then Success(TemplateLogger(xs + [v.x])) else Failure(MissingField("x"))
    case GenericLogger(lambdas, ds, xs) =>
      if v.DualView? then Success(GenericLogger(lambdas + [v.lambda], ds + [v.d], xs + [v.primal]))
      else Failure(MissingField("lambda_k"))
    case EnhancedLogger(lambdas, ds, xs, start, times, calls) =>
      var start' := if start == 0.0 then now else start;
      if v.DualView? then
        Success(EnhancedLogger(lambdas + [v.lambda], ds + [v.d], xs + [v.primal],
                               start', times + [now - start'], calls + [v.oracleCalls]))
      else Failure(MissingField("lambda_k"))
    case DgmFgmLogger(lambdas, ds, xs, start, times, calls, lks) =>
      var start' := if start == 0.0 then now else start;
      if !v.DualView? then Failure(MissingField("lambda_k"))
      else if ReadLk(v).Failure? then Failure(ReadLk(v).error)
      else
        Success(DgmFgmLogger(lambdas + [v.lambda], ds + [v.d], xs + [v.primal],
                             start', times + [now - start'], calls + [v.oracleCalls], lks + [ReadLk(v).value]))
    case PgmVisLogger(lambdas, ds, xs, start, times, calls, lks, tildes, dtildes) =>
      var start' := if start == 0.0 then now else start;
      if !v.DualView? then Failure(MissingField("lambda_k"))
      else if ReadLk(v).Failure? then Failure(ReadLk(v).error)
      else if v.extras.tilde.None? then Failure(MissingField("lambda_tilde_k"))
      else
        Success(PgmVisLogger(lambdas + [v.lambda], ds + [v.d], xs + [v.primal],
                             start', times + [now - start'], calls + [v.oracleCalls], lks + [ReadLk(v).value],
                             tildes + [v.extras.tilde.value.0], dtildes + [v.extras.tilde.value.1]))
    case SlimLogger(ds, starts, times, calls) =>
      var starts' := starts + [now];
      if |ds| > 0 && |starts'| < 2 then Failure(IndexError)
      else
        var times' := if |ds| > 0 then times + [starts'[|starts'| - 1] - starts'[|starts'| - 2]] else times;
        if v.DualView? then Success(SlimLogger(ds + [v.d], starts', times', calls + [v.oracleCalls]))
        else Failure(MissingField("d_k"))
  }

  /** `notify_observers` of a dual method with view `v` at time `now`. */
  function NotifyLoggers<X>(observers: seq<Entry<Logger<X>>>, v: View<X>, now: real): (r: Notified<Logger<X>, Fault>)
    ensures |r.observers| == |observers|
    ensures forall k :: 0 <= k < |observers| ==> r.observers[k].id == observers[k].id
    ensures r.fault.Some? <==> exists k :: 0 <= k < |observers| && Update(observers[k].observer, v, now).Failure?
    ensures r.fault.None? ==> forall k :: 0 <= k < |observers| ==>
              Update(observers[k].observer, v, now) == Success(r.observers[k].observer)
  {
    var update := (l: Logger<X>) => Update(l, v, now);
    var n := Reached(observers, update);
    assert n < |observers| ==> Update(observers[n].observer, v, now).Failure?;
    Notify(observers, update)
  }

  /**
   * One logger receiving a sequence of notifications, the i-th at clock
   * reading `times[i]`; the first raising `update` ends the run.
   */
  function Feed<X>(l: Logger<X>, notices: seq<View<X>>, times: seq<real>): (r: Result<Logger<X>, Fault>)
    requires |times| == |notices|
    ensures r.Success? ==> KindOf(r.value) == KindOf(l) && Recorded(r.value) == Recorded(l) + |notices|
    ensures l.BaseObserver? && |notices| > 0 ==> r == Failure(NotImplemented)
    decreases |notices|
  {
    if |notices| == 0 then Success(l)
    else match Update(l, notices[0], times[0])
      case Failure(f) => Failure(f)
      case Success(l') => Feed(l', notices[1..], times[1..])
  }

  /** Every notice comes from a dual method. */
  predicate AllDual<X>(notices: seq<View<X>>) {
    forall k :: 0 <= k < |notices| ==> notices[k].DualView?
  }

  function Lambdas<X>(notices: seq<View<X>>): (r: seq<Vec>)
    requires AllDual(notices)
    ensures |r| == |notices| && forall k :: 0 <= k < |r| ==> r[k] == notices[k].lambda
  {
    if |notices| == 0 then [] else [notices[0].lambda] + Lambdas(notices[1..])
  }

  function Values<X>(notices: seq<View<X>>): (r: seq<real>)
    requires AllDual(notices)
    ensures |r| == |notices| && forall k :: 0 <= k < |r| ==> r[k] == notices[k].d
  {
    if |notices| == 0 then [] else [notices[0].d] + Values(notices[1..])
  }

  function Primals<X>(notices: seq<View<X>>): (r: seq<Option<X>>)
    requires AllDual(notices)
    ensures |r| == |notices| && forall k :: 0 <= k < |r| ==> r[k] == notices[k].primal
  {
    if |notices| == 0 then [] else [notices[0].primal] + Primals(notices[1..])
  }

  function CallCounts<X>(notices: seq<View<X>>): (r: seq<nat>)
    ensures |r| == |notices| && forall k :: 0 <= k < |r| ==> r[k] == notices[k].oracleCalls
  {
    if |notices| == 0 then [] else [notices[0].oracleCalls] + CallCounts(notices[1..])
  }

  /** Appending one element and then a list is appending their concatenation. */
  lemma AppendCons<T>(a: seq<T>, x: T, b: seq<T>)
    ensures a + [x] + b == a + ([x] + b)
  {
  }

  /** One notification consumed by `Feed`. */
  lemma FeedUnfolds<X>(l: Logger<X>, notices: seq<View<X>>, times: seq<real>, l': Logger<X>)
    requires |times| == |notices| > 0
    requires Update(l, notices[0], times[0]) == Success(l')
    ensures Feed(l, notices, times) == Feed(l', notices[1..], times[1..])
  {
  }

  /**
   * The generic logger records, in notification order, exactly the
   * `lambda_k`, `d_k` and `x_k` it was shown: one entry per notification in
   * each of its three lists.
   */
  lemma {:induction false} GenericRecordsEveryNotice<X>(lambdas: seq<Vec>, ds: seq<real>, xs: seq<Option<X>>,
                                                        notices: seq<View<X>>, times: seq<real>)
    requires |times| == |notices| && AllDual(notices)
    ensures Feed(GenericLogger(lambdas, ds, xs), notices, times)
            == Success(GenericLogger(lambdas + Lambdas(notices), ds + Values(notices), xs + Primals(notices)))
    decreases |notices|
  {
    if |notices| == 0 {
      assert lambdas + Lambdas(notices) == lambdas;
      assert ds + Values(notices) == ds;
      assert xs + Primals(notices) == xs;
    } else {
      var v := notices[0];
      var l' := GenericLogger(lambdas + [v.lambda], ds + [v.d], xs + [v.primal]);
      FeedUnfolds(GenericLogger(lambdas, ds, xs), notices, times, l');
      GenericRecordsEveryNotice(lambdas + [v.lambda], ds + [v.d], xs + [v.primal], notices[1..], times[1..]);
      AppendCons(lambdas, v.lambda, Lambdas(notices[1..]));
      AppendCons(ds, v.d, Values(notices[1..]));
      AppendCons(xs, v.primal, Primals(notices[1..]));
    }
  }

  /**
   * The enhanced logger records, in order, the `oracle_calls` value of every
   * notification, alongside one elapsed-time entry per notification.
   */
  lemma {:induction false} EnhancedRecordsCallCounts<X>(lambdas: seq<Vec>, ds: seq<real>, xs: seq<Option<X>>,
                                                        start: real, elapsed: seq<real>, calls: seq<nat>,
                                                        notices: seq<View<X>>, times: seq<real>)
    requires |times| == |notices| && AllDual(notices)
    requires |elapsed| == |calls| == |ds|
    ensures var r := Feed(EnhancedLogger(lambdas, ds, xs, start, elapsed, calls), notices, times);
            && r.Success? && r.value.EnhancedLogger?
            && r.value.oracleCalls == calls + CallCounts(notices)
            && r.value.lambdas == lambdas + Lambdas(notices)
            && |r.value.iterationTime| == |r.value.ds| == |r.value.oracleCalls|
    decreases |notices|
  {
    if |notices| == 0 {
      assert lambdas + Lambdas(notices) == lambdas;
      assert calls + CallCounts(notices) == calls;
    } else {
      var v := notices[0];
      var start' := if start == 0.0 then times[0] else start;
      var l' := EnhancedLogger(lambdas + [v.lambda], ds + [v.d], xs + [v.primal], start',
                               elapsed + [times[0] - start'], calls + [v.oracleCalls]);
      FeedUnfolds(EnhancedLogger(lambdas, ds, xs, start, elapsed, calls), notices, times, l');
      EnhancedRecordsCallCounts(lambdas + [v.lambda], ds + [v.d], xs + [v.primal], start',
                                elapsed + [times[0] - start'], calls + [v.oracleCalls], notices[1..], times[1..]);
      AppendCons(calls, v.oracleCalls, CallCounts(notices[1..]));
      AppendCons(lambdas, v.lambda, Lambdas(notices[1..]));
    }
  }

  /**
   * The logger for the universal methods also records `L_k` at every
   * notification, and fails on a method that has no `L_k`.
   */
  lemma DgmFgmNeedsLk<X>(l: Logger<X>, v: View<X>, now: real)
    requires l.DgmFgmLogger? && v.DualView?
    ensures Update(l, v, now).Success? <==> v.extras.lk.Some?
    ensures Update(l, v, now).Success? ==>
              Update(l, v, now).value.lks == l.lks + [v.extras.lk.value]
              && Update(l, v, now).value.oracleCalls == l.oracleCalls + [v.oracleCalls]
  {
  }

  /**
   * The visualisation logger also records `L_k` and the tilde pair, and fails
   * on a method that lacks either.
   */
  lemma PgmVisNeedsTilde<X>(l: Logger<X>, v: View<X>, now: real)
    requires l.PgmVisLogger? && v.DualView?
    ensures Update(l, v, now).Success? <==> v.extras.lk.Some? && v.extras.tilde.Some?
    ensures Update(l, v, now).Success? ==>
              && Update(l, v, now).value.lks == l.lks + [v.extras.lk.value]
              && Update(l, v, now).value.lambdaTildes == l.lambdaTildes + [v.extras.tilde.value.0]
              && Update(l, v, now).value.dTildes == l.dTildes + [v.extras.tilde.value.1]
    ensures !v.extras.lk.Some? ==> Update(l, v, now) == Failure(MissingField("L_k"))
    ensures v.extras.lk.Some? && !v.extras.tilde.Some? ==> Update(l, v, now) == Failure(MissingField("lambda_tilde_k"))
  {
  }

  /**
   * The slim logger keeps one fewer inter-notification time than values:
   * the first notification has no predecessor to measure from.
   */
  lemma {:induction false} SlimTimesLagByOne<X>(ds: seq<real>, starts: seq<real>, elapsed: seq<real>, calls: seq<nat>,
                                                notices: seq<View<X>>, times: seq<real>)
    requires |times| == |notices| && AllDual(notices)
    requires |starts| == |ds| && (|ds| == 0 ==> |elapsed| == 0) && (|ds| > 0 ==> |elapsed| == |ds| - 1)
    ensures var r := Feed(SlimLogger(ds, starts, elapsed, calls), notices, times);
            && r.Success? && r.value.SlimLogger?
            && |r.value.ds| == |ds| + |notices|
            && (|r.value.ds| > 0 ==> |r.value.iterationTime| == |r.value.ds| - 1)
    decreases |notices|
  {
    if |notices| > 0 {
      var v := notices[0];
      var starts' := starts + [times[0]];
      var elapsed' := if |ds| > 0 then elapsed + [starts'[|starts'| - 1] - starts'[|starts'| - 2]] else elapsed;
      SlimTimesLagByOne(ds + [v.d], starts', elapsed', calls + [v.oracleCalls], notices[1..], times[1..]);
    }
  }

  /** The base observer cannot be notified: its `update` always raises. */
  lemma BaseObserverRaises<X>(v: View<X>, now: real)
    ensures Update(BaseObserver, v, now) == Failure(NotImplemented)
  {
  }

  /** The template logger records the template method's counter, in order. */
  lemma {:induction false} TemplateRecordsCounter<X>(xs: seq<int>, notices: seq<View<X>>, times: seq<real>)
    requires |times| == |notices|
    requires forall k :: 0 <= k < |notices| ==> notices[k].TemplateView?
    ensures Feed(TemplateLogger(xs), notices, times)
            == Success(TemplateLogger(xs + seq(|notices|, k requires 0 <= k < |notices| => notices[k].x)))
    decreases |notices|
  {
    var counters := seq(|notices|, k requires 0 <= k < |notices| => notices[k].x);
    if |notices| == 0 {
      assert xs + counters == xs;
    } else {
      assert Update(TemplateLogger(xs), notices[0], times[0]) == Success(TemplateLogger(xs + [notices[0].x]));
      TemplateRecordsCounter(xs + [notices[0].x], notices[1..], times[1..]);
      var rest := seq(|notices| - 1, k requires 0 <= k < |notices| - 1 => notices[1..][k].x);
      assert counters == [notices[0].x] + rest;
      assert xs + [notices[0].x] + rest == xs + counters;
    }
  }
}
