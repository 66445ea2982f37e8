/**
 * The template method: the smallest instance of the iteration protocol. It
 * keeps a counter `x`, never queries its oracle, and notifies once per step.
 */
module TemplateMethods {
  import opened Wrappers
  import opened Protocol
  import opened MethodLoggers

  datatype TemplateState = TemplateState(x: int, oracleCalls: nat)

  /** The constructor: counter and oracle-call count both start at zero. */
  function NewTemplate(): (r: TemplateState)
    ensures r.x == 0 && r.oracleCalls == 0
  {
    TemplateState(0, 0)
  }

  /** `dual_step`: bump the counter, then notify with the new value. */
  function Step<X>(s: TemplateState): (r: Stepped<TemplateState, X>)
    ensures r.raised.None?
    ensures r.next.x == s.x + 1 && r.next.oracleCalls == s.oracleCalls
    ensures r.notices == [TemplateView(r.next.x, r.next.oracleCalls)]
  {
    var next := TemplateState(s.x + 1, s.oracleCalls);
    Stepped(next, [TemplateView(next.x, next.oracleCalls)], None)
  }

  /** `n` consecutive steps: the final state and every notification, in order. */
  function Run<X>(s: TemplateState, n: nat): (TemplateState, seq<View<X>>)
    decreases n
  {
    if n == 0 then (s, [])
    else
      var r := Step<X>(s);
      var rest := Run<X>(r.next, n - 1);
      (rest.0, r.notices + rest.1)
  }

  /**
   * After `n` steps the counter has advanced by `n`, the oracle has not been
   * called, and the k-th notification carried counter value `s.x + k + 1`.
   */
  lemma {:induction false} RunCountsSteps<X>(s: TemplateState, n: nat)
    ensures Run<X>(s, n).0 == TemplateState(s.x + n, s.oracleCalls)
    ensures |Run<X>(s, n).1| == n
    ensures forall k :: 0 <= k < n ==> Run<X>(s, n).1[k] == TemplateView(s.x + k + 1, s.oracleCalls)
    decreases n
  {
    if n > 0 {
      RunCountsSteps<X>(TemplateState(s.x + 1, s.oracleCalls), n - 1);
    }
  }

  /** Three steps observed by a template logger record `[1, 2, 3]`. */
  lemma ThreeStepsRecorded<X>(times: seq<real>)
    requires |times| == 3
    ensures Feed(TemplateLogger([]), Run<X>(NewTemplate(), 3).1, times) == Success(TemplateLogger([1, 2, 3]))
  {
    var notices := Run<X>(NewTemplate(), 3).1;
    RunCountsSteps<X>(NewTemplate(), 3);
    assert notices[0].x == 1 && notices[1].x == 2 && notices[2].x == 3;
    TemplateRecordsCounter([], notices, times);
    assert [] + seq(3, k requires 0 <= k < 3 => notices[k].x) == [1, 2, 3];
  }
}
