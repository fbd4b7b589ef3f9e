/** The fan-out combinator the handler uses at every nesting level
    (`async.eachLimit` over SNS records, object keys, trail records and
    instance items), taken sequentially: items run one after another, the
    first failing item ends the iteration and its error is the iteration's
    error, and a run where no item fails completes without error.
    Alongside the completion, a `Trace` records the alert messages that
    were handed to the notification service, in order. */
module FanOut {
  import opened Results

  /** What one unit of work did: alerts it published (attempted), and how it completed. */
  datatype Trace = Trace(alerts: seq<string>, outcome: Outcome<Error>)

  /** A unit of work that completes at once without error and publishes nothing (`cb()`). */
  const Done: Trace := Trace([], Pass)

  /** Runs `f` on every element of `xs` in order, stopping at the first failure. */
  function Each<T>(xs: seq<T>, f: T -> Trace): (r: Trace)
    ensures r.outcome.Pass? <==> forall i :: 0 <= i < |xs| ==> f(xs[i]).outcome.Pass?
    ensures r.outcome.Fail? ==>
              exists k :: 0 <= k < |xs| && f(xs[k]).outcome == r.outcome &&
                          forall j :: 0 <= j < k ==> f(xs[j]).outcome.Pass?
    decreases |xs|
  {
    if |xs| == 0 then Done
    else
      var head := f(xs[0]);
      if head.outcome.Fail? then head
      else
        var rest := Each(xs[1..], f);
        assert forall i :: 1 <= i < |xs| ==> xs[i] == xs[1..][i - 1];
        Trace(head.alerts + rest.alerts, rest.outcome)
  }

  /** Every alert of the combined run was published by one of the items:
      a property every item's alerts have is had by all alerts of the run. */
  lemma {:induction false} EachAlertsSound<T>(xs: seq<T>, f: T -> Trace, ok: string -> bool)
    requires forall i, m :: 0 <= i < |xs| && m in f(xs[i]).alerts ==> ok(m)
    ensures forall m :: m in Each(xs, f).alerts ==> ok(m)
    decreases |xs|
  {
    if |xs| > 0 && f(xs[0]).outcome.Pass? {
      forall i, m | 0 <= i < |xs[1..]| && m in f(xs[1..][i]).alerts
        ensures ok(m)
      {
        assert xs[1..][i] == xs[i + 1];
      }
      EachAlertsSound(xs[1..], f, ok);
    }
  }

  /** When the combined run completes without error, no item's alert is lost. */
  lemma {:induction false} EachAlertsComplete<T>(xs: seq<T>, f: T -> Trace, i: nat, m: string)
    requires Each(xs, f).outcome.Pass?
    requires i < |xs| && m in f(xs[i]).alerts
    ensures m in Each(xs, f).alerts
    decreases |xs|
  {
    if i > 0 {
      assert xs[1..][i - 1] == xs[i];
      EachAlertsComplete(xs[1..], f, i - 1, m);
    }
  }

  /** Items that all complete at once without alert make a run that does too. */
  lemma {:induction false} EachAllDone<T>(xs: seq<T>, f: T -> Trace)
    requires forall i :: 0 <= i < |xs| ==> f(xs[i]) == Done
    ensures Each(xs, f) == Done
    decreases |xs|
  {
    if |xs| > 0 {
      assert forall i :: 0 <= i < |xs[1..]| ==> xs[1..][i] == xs[i + 1];
      EachAllDone(xs[1..], f);
    }
  }
}
