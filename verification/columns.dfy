/**
 * Predictor selection: every script keeps the frame's column names that are
 * neither in a fixed ignore list nor the response column, in frame order.
 */
module Columns {

  /** Ignore list of both regression scripts (Java and Python `GBMRegressionApp`). */
  const RegressionIgnored: seq<string> :=
    ["Group", "EventTime", "EventIndex", "DTA", "Target", "Fraction"]
  const RegressionResponse: string := "TTATA"

  /** Ignore list of `H2OJavaGBMExample` and `GBMTrainApp`. */
  const ExampleIgnored: seq<string> :=
    ["Group", "EventTime", "EventIndex", "DTA", "TTATA", "Fraction"]
  const ExampleResponse: string := "Target"

  predicate Excluded(c: string, ignored: seq<string>, response: string) {
    c in ignored || c == response
  }

  /** `a` can be obtained from `b` by deleting elements. */
  predicate IsSubsequence<T(==)>(a: seq<T>, b: seq<T>)
    decreases |b|
  {
    if |a| == 0 then true
    else if |b| == 0 then false
    else (a[0] == b[0] && IsSubsequence(a[1..], b[1..])) || IsSubsequence(a, b[1..])
  }

  /**
   * The filter of every script: a column is kept when it is not ignored and not
   * the response. Ignored names absent from the frame are simply never met.
   */
  function SelectPredictors(columns: seq<string>, ignored: seq<string>, response: string)
    : (p: seq<string>)
    ensures |p| <= |columns|
    ensures forall i :: 0 <= i < |p| ==> !Excluded(p[i], ignored, response)
  {
    if |columns| == 0 then []
    else
      var rest := SelectPredictors(columns[1..], ignored, response);
      if Excluded(columns[0], ignored, response) then rest else [columns[0]] + rest
  }

  /** A name is a predictor exactly when the frame has it and it is not excluded. */
  lemma {:induction false} SelectMembership(
      columns: seq<string>, ignored: seq<string>, response: string, c: string)
    ensures c in SelectPredictors(columns, ignored, response) <==>
            c in columns && !Excluded(c, ignored, response)
  {
    if |columns| > 0 {
      SelectMembership(columns[1..], ignored, response, c);
      assert columns == [columns[0]] + columns[1..];
    }
  }

  /** Every kept name keeps its multiplicity; excluded names occur zero times. */
  lemma {:induction false} SelectMultiplicity(
      columns: seq<string>, ignored: seq<string>, response: string, c: string)
    ensures multiset(SelectPredictors(columns, ignored, response))[c]
            == if Excluded(c, ignored, response) then 0 else multiset(columns)[c]
  {
    if |columns| > 0 {
      SelectMultiplicity(columns[1..], ignored, response, c);
      assert columns == [columns[0]] + columns[1..];
    }
  }

  /** The predictors keep the frame's order: they are a subsequence of its names. */
  lemma {:induction false} SelectIsSubsequence(
      columns: seq<string>, ignored: seq<string>, response: string)
    ensures IsSubsequence(SelectPredictors(columns, ignored, response), columns)
  {
    if |columns| > 0 {
      var rest := SelectPredictors(columns[1..], ignored, response);
      SelectIsSubsequence(columns[1..], ignored, response);
      if !Excluded(columns[0], ignored, response) {
        assert ([columns[0]] + rest)[1..] == rest;
      }
    }
  }

  /** One step of the filter: the head is kept or dropped, the tail filtered. */
  lemma SelectUnfold(columns: seq<string>, ignored: seq<string>, response: string)
    requires |columns| > 0
    ensures SelectPredictors(columns, ignored, response)
            == (if Excluded(columns[0], ignored, response) then [] else [columns[0]])
               + SelectPredictors(columns[1..], ignored, response)
  {
  }

  /**
   * `GBMTrainApp` writes the filter as one membership test against the
   * ignore list with the response appended.
   */
  function SelectByConcatenation(columns: seq<string>, ignored: seq<string>, response: string)
    : (p: seq<string>)
    ensures forall i :: 0 <= i < |p| ==> p[i] !in ignored + [response]
  {
    if |columns| == 0 then []
    else
      var rest := SelectByConcatenation(columns[1..], ignored, response);
      if columns[0] in ignored + [response] then rest else [columns[0]] + rest
  }

  /** The single-test formulation selects exactly what the two-test one does. */
  lemma {:induction false} ConcatenationAgrees(
      columns: seq<string>, ignored: seq<string>, response: string)
    ensures SelectByConcatenation(columns, ignored, response) ==
            SelectPredictors(columns, ignored, response)
  {
    if |columns| > 0 {
      ConcatenationAgrees(columns[1..], ignored, response);
      var c := columns[0];
      assert c in ignored + [response] <==> Excluded(c, ignored, response);
    }
  }

  /**
   * The explicit loop of `H2OJavaGBMExample.train`, appending each kept column
   * to a growing list.
   */
  method SelectPredictorsLoop(names: seq<string>, ignored: seq<string>, response: string)
    returns (predictors: seq<string>)
    ensures predictors == SelectPredictors(names, ignored, response)
  {
    predictors := [];
    var i := 0;
    while i < |names|
      invariant 0 <= i <= |names|
      invariant predictors + SelectPredictors(names[i..], ignored, response)
                == SelectPredictors(names, ignored, response)
    {
      var col := names[i];
      SelectUnfold(names[i..], ignored, response);
      assert names[i..][1..] == names[i + 1..];
      if !(col in ignored) && !(col == response) {
        predictors := predictors + [col];
      }
      i := i + 1;
    }
    assert names[i..] == [];
  }

  /**
   * The predictors, as a set, are the frame's names minus the ignored names and
   * the response: the set the library is told to infer from `_ignored_columns`.
   */
  lemma PredictorsAreComplement(columns: seq<string>, ignored: seq<string>, response: string)
    ensures (set c | c in SelectPredictors(columns, ignored, response))
            == (set c | c in columns) - ((set c | c in ignored) + {response})
  {
    forall c {
      SelectMembership(columns, ignored, response, c);
    }
  }

  /** The regression scripts never hand the library "TTATA" or "Target" as a predictor. */
  lemma RegressionExcludesResponseAndTarget(columns: seq<string>)
    ensures "TTATA" !in SelectPredictors(columns, RegressionIgnored, RegressionResponse)
    ensures "Target" !in SelectPredictors(columns, RegressionIgnored, RegressionResponse)
  {
    assert "Target" in RegressionIgnored;
    SelectMembership(columns, RegressionIgnored, RegressionResponse, "TTATA");
    SelectMembership(columns, RegressionIgnored, RegressionResponse, "Target");
  }

  /**
   * The regression ignore list does not name its response, and the example
   * list does not name its own; the equality test is what excludes them.
   */
  lemma ResponsesNotInOwnIgnoreLists()
    ensures RegressionResponse !in RegressionIgnored
    ensures ExampleResponse !in ExampleIgnored
    ensures "TTATA" in ExampleIgnored && "Target" in RegressionIgnored
  {
    assert ExampleIgnored[4] == "TTATA";
    assert RegressionIgnored[4] == "Target";
  }

  /**
   * The two configurations swap "TTATA" and "Target" between ignore list and
   * response, so both select the same predictors from any frame.
   */
  lemma {:induction false} BothConfigurationsAgree(columns: seq<string>)
    ensures SelectPredictors(columns, RegressionIgnored, RegressionResponse)
            == SelectPredictors(columns, ExampleIgnored, ExampleResponse)
  {
    if |columns| > 0 {
      BothConfigurationsAgree(columns[1..]);
      var c := columns[0];
      assert Excluded(c, RegressionIgnored, RegressionResponse) <==>
             Excluded(c, ExampleIgnored, ExampleResponse);
    }
  }

  /** An example frame: ["A", "Group", "TTATA", "B"] keeps "A" and "B". */
  lemma RegressionExample()
    ensures SelectPredictors(["A", "Group", "TTATA", "B"], RegressionIgnored, RegressionResponse) ==
            ["A", "B"]
  {
    assert "Group" in RegressionIgnored && "A" !in RegressionIgnored && "B" !in RegressionIgnored;
    SelectUnfold(["A", "Group", "TTATA", "B"], RegressionIgnored, RegressionResponse);
    assert ["A", "Group", "TTATA", "B"][1..] == ["Group", "TTATA", "B"];
    SelectUnfold(["Group", "TTATA", "B"], RegressionIgnored, RegressionResponse);
    assert ["Group", "TTATA", "B"][1..] == ["TTATA", "B"];
    SelectUnfold(["TTATA", "B"], RegressionIgnored, RegressionResponse);
    assert ["TTATA", "B"][1..] == ["B"];
    SelectUnfold(["B"], RegressionIgnored, RegressionResponse);
    assert ["B"][1..] == [];
  }
}
