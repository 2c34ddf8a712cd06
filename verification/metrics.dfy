/**
 * Which metrics each exporter reports for a model category. Only the names are
 * modelled; the values come from the library.
 */
module Metrics {

  datatype Metric = Auc | Logloss | MeanPerClassError | Mae | Loss | R2 | Mse

  const BinomialMetrics: seq<Metric> := [Auc, Logloss, MeanPerClassError]

  /**
   * The Java exporters (`AbstractH2O.exportModel`, `H2OJavaGBMExample.exportModel`):
   * two independent tests on the category, then loss, r2 and mse for every model.
   */
  function JavaMetrics(category: string): (ms: seq<Metric>)
    ensures Auc in ms <==> category == "Binomial"
    ensures Logloss in ms <==> category == "Binomial"
    ensures MeanPerClassError in ms <==> category == "Binomial"
    ensures Mae in ms <==> category == "Regression"
    ensures |ms| >= 3 && ms[|ms| - 3..] == [Loss, R2, Mse]
    ensures category != "Binomial" && category != "Regression" ==> ms == [Loss, R2, Mse]
  {
    (if category == "Binomial" then BinomialMetrics else [])
    + (if category == "Regression" then [Mae] else [])
    + [Loss, R2, Mse]
  }

  /**
   * `GBMTrainApp.export_model`: an if/elif on the category, then r2 and mse;
   * loss is never reported.
   */
  function PythonMetrics(category: string): (ms: seq<Metric>)
    ensures Loss !in ms
    ensures Auc in ms <==> category == "Binomial"
    ensures Mae in ms <==> category == "Regression"
    ensures |ms| >= 2 && ms[|ms| - 2..] == [R2, Mse]
  {
    (if category == "Binomial" then BinomialMetrics
     else if category == "Regression" then [Mae]
     else [])
    + [R2, Mse]
  }

  function Without(ms: seq<Metric>, m: Metric): (r: seq<Metric>)
    ensures m !in r
    ensures forall x :: x != m ==> (x in r <==> x in ms)
  {
    if |ms| == 0 then []
    else if ms[0] == m then Without(ms[1..], m)
    else [ms[0]] + Without(ms[1..], m)
  }

  lemma {:induction false} WithoutConcat(a: seq<Metric>, b: seq<Metric>, m: Metric)
    ensures Without(a + b, m) == Without(a, m) + Without(b, m)
  {
    if |a| > 0 {
      WithoutConcat(a[1..], b, m);
      assert (a + b)[1..] == a[1..] + b;
    } else {
      assert a + b == b;
    }
  }

  /** Removing a metric from a list that lacks it changes nothing. */
  lemma {:induction false} WithoutAbsent(ms: seq<Metric>, m: Metric)
    requires m !in ms
    ensures Without(ms, m) == ms
  {
    if |ms| > 0 {
      WithoutAbsent(ms[1..], m);
      assert ms == [ms[0]] + ms[1..];
    }
  }

  /** The Python exporter reports the Java list minus loss, in the same order. */
  lemma PythonIsJavaWithoutLoss(category: string)
    ensures PythonMetrics(category) == Without(JavaMetrics(category), Loss)
  {
    var head := if category == "Binomial" then BinomialMetrics else [];
    var mid: seq<Metric> := if category == "Regression" then [Mae] else [];
    var tail := [Loss, R2, Mse];
    assert JavaMetrics(category) == head + mid + tail;
    WithoutConcat(head + mid, tail, Loss);
    WithoutConcat(head, mid, Loss);
    WithoutAbsent(head, Loss);
    WithoutAbsent(mid, Loss);
    assert Without(tail, Loss) == [R2, Mse] by {
      assert tail[1..] == [R2, Mse];
      WithoutAbsent([R2, Mse], Loss);
    }
  }

  /** No metric is reported twice, whatever the category. */
  lemma JavaMetricsDistinct(category: string)
    ensures forall i, j :: 0 <= i < j < |JavaMetrics(category)| ==>
              JavaMetrics(category)[i] != JavaMetrics(category)[j]
  {
  }
}
