/**
 * Step sequencing with partial failure. Every library call that decides what
 * runs next is abstracted to a step that either completes or raises; `faults`
 * is the set of steps that raise when attempted. Each script is modelled by what it attempts,
 * which files it writes and whether it reaches its normal end.
 */
module Pipeline {
  import opened Wrappers
  import opened Args
  import opened Columns
  import opened Naming

  datatype Step =
    | Import        // read and parse the training CSV into a frame
    | Configure     // construct the estimator from its parameters
    | Train         // fit the GBM model
    | WriteJson     // write the hyperparameters as JSON
    | ReportMetrics // read the model category and query the metrics it reports
    | ExportMojo    // export the portable scoring artifact
    | ExportBinary  // export or save the native binary model
    | RemoveModel   // drop the model from the cluster
    | RemoveFrame   // drop the frame from the cluster
    | LogDone       // log "Done!"
    | Shutdown      // shut the engine down

  /** Steps attempted in order, and the step whose exception escaped, if any. */
  datatype Trace = Trace(attempted: seq<Step>, raised: Option<Step>)

  /**
   * A straight-line block with no local handler: steps run in order and the
   * first one that raises ends the block.
   */
  function RunUnguarded(steps: seq<Step>, faults: set<Step>): (t: Trace)
    ensures |t.attempted| <= |steps| && t.attempted == steps[..|t.attempted|]
    ensures t.raised.None? ==> t.attempted == steps
    ensures t.raised.Some? ==>
              && |t.attempted| > 0
              && t.attempted[|t.attempted| - 1] == t.raised.value
              && t.raised.value in faults
    ensures forall k :: 0 <= k < |t.attempted| && (t.raised.None? || k < |t.attempted| - 1) ==>
              t.attempted[k] !in faults
  {
    if |steps| == 0 then Trace([], None)
    else if steps[0] in faults then Trace([steps[0]], Some(steps[0]))
    else
      var rest := RunUnguarded(steps[1..], faults);
      Trace([steps[0]] + rest.attempted, rest.raised)
  }

  /** A two-step block ends at the first step that raises. */
  lemma RunTwo(a: Step, b: Step, faults: set<Step>)
    ensures RunUnguarded([a, b], faults)
            == if a in faults then Trace([a], Some(a))
               else if b in faults then Trace([a, b], Some(b))
               else Trace([a, b], None)
  {
    assert [a, b][1..] == [b];
    assert [b][1..] == [];
  }

  /** A three-step block ends at the first step that raises. */
  lemma RunThree(a: Step, b: Step, c: Step, faults: set<Step>)
    ensures RunUnguarded([a, b, c], faults)
            == if a in faults then Trace([a], Some(a))
               else if b in faults then Trace([a, b], Some(b))
               else if c in faults then Trace([a, b, c], Some(c))
               else Trace([a, b, c], None)
  {
    assert [a, b, c][1..] == [b, c];
    RunTwo(b, c, faults);
  }

  /** A four-step block ends at the first step that raises. */
  lemma RunFour(a: Step, b: Step, c: Step, d: Step, faults: set<Step>)
    ensures RunUnguarded([a, b, c, d], faults)
            == if a in faults then Trace([a], Some(a))
               else if b in faults then Trace([a, b], Some(b))
               else if c in faults then Trace([a, b, c], Some(c))
               else if d in faults then Trace([a, b, c, d], Some(d))
               else Trace([a, b, c, d], None)
  {
    assert [a, b, c, d][1..] == [b, c, d];
    RunThree(b, c, d, faults);
  }

  /**
   * What a script did: steps attempted, artifact files written, predictors
   * chosen, normal end reached.
   */
  datatype Run = Run(
    attempted: seq<Step>,
    written: seq<string>,
    predictors: Option<seq<string>>,
    completed: bool)

  // ---------------------------------------------------------------- AbstractH2O

  /**
   * `AbstractH2O.exportModel` with no local handler: JSON write, category and
   * metric queries, MOJO export, binary export.
   */
  const JavaExportSteps: seq<Step> := [WriteJson, ReportMetrics, ExportMojo, ExportBinary]

  /** The artifacts an export wrote, all under one basename. */
  datatype Export = Export(basename: string, trace: Trace, written: seq<ArtifactKind>)

  /** The artifact paths of a Java export: "./work/<model>_<when>" plus a suffix. */
  function JavaArtifacts(modelName: string, when: string): Artifacts {
    ArtifactPaths(Basename(JavaDir, modelName, when))
  }

  /**
   * `AbstractH2O.exportModel`: each artifact goes to its path under
   * "./work/<model>_<when>", and a failing step skips every later one.
   */
  function ExportModel(modelName: string, when: string, faults: set<Step>): (e: Export)
    ensures e.basename == Basename(JavaDir, modelName, when)
    ensures e.trace == RunUnguarded(JavaExportSteps, faults)
    ensures |e.written| <= 3 && e.written == [JsonFile, MojoFile, BinaryFile][..|e.written|]
    ensures JsonFile in e.written <==> WriteJson !in faults
    ensures MojoFile in e.written <==>
              WriteJson !in faults && ReportMetrics !in faults && ExportMojo !in faults
    ensures BinaryFile in e.written <==>
              && WriteJson !in faults && ReportMetrics !in faults
              && ExportMojo !in faults && ExportBinary !in faults
  {
    var base := Basename(JavaDir, modelName, when);
    RunFour(WriteJson, ReportMetrics, ExportMojo, ExportBinary, faults);
    if WriteJson in faults then
      Export(base, Trace([WriteJson], Some(WriteJson)), [])
    else if ReportMetrics in faults then
      Export(base, Trace([WriteJson, ReportMetrics], Some(ReportMetrics)), [JsonFile])
    else if ExportMojo in faults then
      Export(base, Trace([WriteJson, ReportMetrics, ExportMojo], Some(ExportMojo)), [JsonFile])
    else if ExportBinary in faults then
      Export(base, Trace(JavaExportSteps, Some(ExportBinary)), [JsonFile, MojoFile])
    else
      Export(base, Trace(JavaExportSteps, None), [JsonFile, MojoFile, BinaryFile])
  }

  /** Each export step is attempted exactly when every earlier one succeeded. */
  lemma ExportAttempts(modelName: string, when: string, faults: set<Step>)
    ensures var t := ExportModel(modelName, when, faults).trace;
            && |t.attempted| > 0 && t.attempted[0] == WriteJson
            && (ReportMetrics in t.attempted <==> WriteJson !in faults)
            && (ExportMojo in t.attempted <==> WriteJson !in faults && ReportMetrics !in faults)
            && (ExportBinary in t.attempted <==>
                  WriteJson !in faults && ReportMetrics !in faults && ExportMojo !in faults)
            && (t.raised.None? <==>
                  && WriteJson !in faults && ReportMetrics !in faults
                  && ExportMojo !in faults && ExportBinary !in faults)
  {
    RunFour(WriteJson, ReportMetrics, ExportMojo, ExportBinary, faults);
  }

  /** A failed MOJO export leaves the binary artifact unattempted and unwritten. */
  lemma MojoFailureSkipsBinary(modelName: string, when: string, faults: set<Step>)
    requires ExportMojo in faults
    ensures ExportBinary !in ExportModel(modelName, when, faults).trace.attempted
    ensures BinaryFile !in ExportModel(modelName, when, faults).written
  {
  }

  /** A failed metric query after a good JSON write leaves only the JSON file. */
  lemma MetricFailureSkipsExports(modelName: string, when: string, faults: set<Step>)
    requires WriteJson !in faults && ReportMetrics in faults
    ensures ExportModel(modelName, when, faults).written == [JsonFile]
    ensures ExportModel(modelName, when, faults).trace.raised == Some(ReportMetrics)
  {
  }

  // ---------------------------------------------------------------- GBMRegressionApp.java

  const RegressionFamily: string := "GBMRegression"

  /**
   * `GBMRegressionApp.train`: import, fit, export, all under one handler that
   * swallows every exception.
   */
  function JavaRegressionTrain(cfg: Config, faults: set<Step>): (r: Run)
    ensures r.completed
    ensures |r.attempted| > 0 && r.attempted[0] == Import
    ensures Train in r.attempted <==> Import !in faults
    ensures WriteJson in r.attempted <==> Import !in faults && Train !in faults
    ensures r.written == [] <==> Import in faults || Train in faults || WriteJson in faults
    ensures Import !in faults && Train !in faults ==>
              var name := ModelName(RegressionFamily, cfg.ntrees, cfg.maxDepth);
              r.written ==
                PathsOf(JavaArtifacts(name, cfg.when), ExportModel(name, cfg.when, faults).written)
  {
    var t := RunUnguarded([Import, Train], faults);
    RunTwo(Import, Train, faults);
    if t.raised.Some? then
      Run(t.attempted, [], None, true)
    else
      var e := ExportModel(ModelName(RegressionFamily, cfg.ntrees, cfg.maxDepth), cfg.when, faults);
      var written := PathsOf(ArtifactPaths(e.basename), e.written);
      Run(t.attempted + e.trace.attempted, written, None, true)
  }

  /**
   * `GBMRegressionApp.main`: resolve the arguments and train inside a handler
   * that catches every exception, then log "Done!" and exit with status 0. A
   * malformed number means training is never called, yet "Done!" is still
   * logged; only a failure of that log itself, outside the handler, ends the
   * run abnormally.
   */
  function JavaRegressionMain(args: seq<string>, faults: set<Step>): (r: Run)
    ensures r.completed <==> LogDone !in faults
    ensures |r.attempted| > 0 && r.attempted[|r.attempted| - 1] == LogDone
    ensures Import in r.attempted <==> ResolveJava(args).Success?
    ensures ResolveJava(args).Failure? ==> r.attempted == [LogDone] && r.written == []
    ensures ResolveJava(args).Success? ==>
              r.attempted ==
                JavaRegressionTrain(ResolveJava(args).value, faults).attempted + [LogDone]
    ensures ResolveJava(args).Success? ==>
              r.written == JavaRegressionTrain(ResolveJava(args).value, faults).written
  {
    match ResolveJava(args)
    case Failure(_) => Run([LogDone], [], None, LogDone !in faults)
    case Success(cfg) =>
      var tr := JavaRegressionTrain(cfg, faults);
      tr.(attempted := tr.attempted + [LogDone], completed := LogDone !in faults)
  }

  /**
   * With one argument and no failures, all three artifacts are written under the
   * default model name "GBMRegression_30_10" and the label "now".
   */
  lemma OneArgumentArtifacts(train: string)
    ensures var b := Basename(JavaDir, "GBMRegression_30_10", "now");
            JavaRegressionMain([train], {}).written == [b + ".json", b + ".zip", b + ".h2o"]
  {
    var cfg := Config(train, 30, 10, "now");
    assert ResolveJava([train]) == Success(cfg);
    DefaultRegressionModelName();
    assert ExportModel("GBMRegression_30_10", "now", {}).written ==
           [JsonFile, MojoFile, BinaryFile];
    PathsOfAll(JavaArtifacts("GBMRegression_30_10", "now"));
  }

  // ---------------------------------------------------------------- GBMRegressionApp.py

  /**
   * `GBMRegressionApp.main` in Python: a failed `int()` escapes `main`, so
   * training, the "Done!" log and shutdown are all skipped. Otherwise
   * `train_model` catches every failure of import and fit, and `export_model`
   * catches a failed save itself; the "Done!" log and the shutdown that follow
   * have no handler.
   */
  function PythonRegressionMain(argv: seq<string>, columns: seq<string>, faults: set<Step>)
    : (r: Run)
    ensures r.completed <==>
              ResolvePython(argv).Success? && LogDone !in faults && Shutdown !in faults
    ensures LogDone in r.attempted <==> ResolvePython(argv).Success?
    ensures Shutdown in r.attempted <==> ResolvePython(argv).Success? && LogDone !in faults
    ensures Import in r.attempted <==> ResolvePython(argv).Success?
    ensures ExportBinary in r.attempted <==>
              ResolvePython(argv).Success? && Import !in faults && Train !in faults
    ensures r.predictors.Some? <==> ResolvePython(argv).Success? && Import !in faults
    ensures r.predictors.Some? ==>
              r.predictors.value == SelectPredictors(columns, RegressionIgnored, RegressionResponse)
  {
    match ResolvePython(argv)
    case Failure(_) => Run([], [], None, false)
    case Success(_) =>
      var predictors :=
        if Import in faults then None
        else Some(SelectPredictors(columns, RegressionIgnored, RegressionResponse));
      var trained :=
        if Import in faults then [Import]
        else if Train in faults then [Import, Train]
        else [Import, Train, ExportBinary];
      if LogDone in faults then Run(trained + [LogDone], [], predictors, false)
      else Run(trained + [LogDone, Shutdown], [], predictors, Shutdown !in faults)
  }

  /** A failed save never propagates: the run is the same whether or not it fails. */
  lemma PythonSaveFailureContained(argv: seq<string>, columns: seq<string>, faults: set<Step>)
    ensures PythonRegressionMain(argv, columns, faults + {ExportBinary})
            == PythonRegressionMain(argv, columns, faults - {ExportBinary})
  {
  }

  // ---------------------------------------------------------------- H2OJavaGBMExample

  const ExampleFamily: string := "GBM"
  const ExampleNtrees: int := 80
  const ExampleMaxDepth: int := 16
  const ExampleWhen: string := "now"

  /** The model name both fixed-hyperparameter programs use. */
  const ExampleModel: string := ModelName(ExampleFamily, ExampleNtrees, ExampleMaxDepth)

  /** The JSON path of the example, "./work/GBM_80_16_now.json". */
  const ExampleJson: string := "./work/" + "GBM_80_16" + "_" + "now" + ".json"

  /** That path is the one the naming rules derive from the example's fixed model and label. */
  lemma ExampleJsonDerived()
    ensures ExampleJson
            == ArtifactPaths(Basename(JavaDir, ExampleModel, ExampleWhen)).json
  {
    ExampleJavaBasename();
  }

  /**
   * `H2OJavaGBMExample.train`: a failed import returns before predictor
   * selection. The estimator is constructed outside any handler, so its failure
   * escapes `train`; a failed fit returns before export and skips cleanup. Its
   * `exportModel` writes the JSON file and queries the metrics (the MOJO and
   * binary exports are commented out); only an `IOException`, i.e. a failed
   * JSON write, is caught, after which cleanup still runs. A failed metric
   * query escapes `train`, as does a failure of either cleanup call.
   */
  function ExampleTrain(names: seq<string>, faults: set<Step>): (r: Run)
    ensures r.predictors.Some? <==> Import !in faults
    ensures r.predictors.Some? ==>
              r.predictors.value == SelectPredictors(names, ExampleIgnored, ExampleResponse)
    ensures Configure in r.attempted <==> Import !in faults
    ensures Train in r.attempted <==> Import !in faults && Configure !in faults
    ensures ReportMetrics in r.attempted <==>
              Import !in faults && Configure !in faults && Train !in faults && WriteJson !in faults
    ensures RemoveModel in r.attempted <==>
              && Import !in faults && Configure !in faults && Train !in faults
              && (WriteJson in faults || ReportMetrics !in faults)
    ensures RemoveFrame in r.attempted <==> RemoveModel in r.attempted && RemoveModel !in faults
    ensures ExportMojo !in r.attempted && ExportBinary !in r.attempted && Shutdown !in r.attempted
    ensures r.written ==
              if && Import !in faults && Configure !in faults
                 && Train !in faults && WriteJson !in faults
              then [ExampleJson] else []
    ensures r.completed <==>
              || Import in faults
              || (Configure !in faults && Train in faults)
              || (&& Configure !in faults
                  && (WriteJson in faults || ReportMetrics !in faults)
                  && RemoveModel !in faults && RemoveFrame !in faults)
  {
    if Import in faults then
      Run([Import], [], None, true)
    else
      var p := Some(SelectPredictors(names, ExampleIgnored, ExampleResponse));
      if Configure in faults then
        Run([Import, Configure], [], p, false)
      else if Train in faults then
        Run([Import, Configure, Train], [], p, true)
      else
        var json := ExampleJson;
        if WriteJson in faults then
          if RemoveModel in faults then
            Run([Import, Configure, Train, WriteJson, RemoveModel], [], p, false)
          else
            Run([Import, Configure, Train, WriteJson, RemoveModel, RemoveFrame], [], p,
                RemoveFrame !in faults)
        else if ReportMetrics in faults then
          Run([Import, Configure, Train, WriteJson, ReportMetrics], [json], p, false)
        else if RemoveModel in faults then
          Run([Import, Configure, Train, WriteJson, ReportMetrics, RemoveModel], [json], p, false)
        else
          Run(
            [Import, Configure, Train, WriteJson, ReportMetrics, RemoveModel, RemoveFrame],
            [json], p, RemoveFrame !in faults)
  }

  /**
   * `H2OJavaGBMExample.main`: after `train` returns normally the engine is shut
   * down; an exception escaping `train` skips the shutdown.
   */
  function ExampleMain(names: seq<string>, faults: set<Step>): (r: Run)
    ensures Shutdown in r.attempted <==> ExampleTrain(names, faults).completed
    ensures r.completed <==> ExampleTrain(names, faults).completed && Shutdown !in faults
    ensures r.written == ExampleTrain(names, faults).written
  {
    var t := ExampleTrain(names, faults);
    if t.completed then
      Run(t.attempted + [Shutdown], t.written, t.predictors, Shutdown !in faults)
    else
      t
  }

  // ---------------------------------------------------------------- GBMTrainApp.py

  const TrainAppWhen: string := "20250308_080101"

  /** The JSON path of `GBMTrainApp`, "./GBM_80_16_20250308_080101.json". */
  const TrainAppJson: string := "./" + "GBM_80_16" + "_" + "20250308_080101" + ".json"

  /** That path is the one the naming rules derive from the script's fixed model and label. */
  lemma TrainAppJsonDerived()
    ensures TrainAppJson
            == ArtifactPaths(Basename(PythonDir, ExampleModel, TrainAppWhen)).json
  {
    TrainAppBasename();
  }

  /**
   * `GBMTrainApp.train` and `export_model`: import, fit, JSON write and the
   * category and metric queries have no handler and end the script on
   * failure; the MOJO export and the binary save each sit in their own handler.
   */
  function TrainAppRun(columns: seq<string>, faults: set<Step>): (r: Run)
    ensures r.completed <==>
              && Import !in faults && Train !in faults
              && WriteJson !in faults && ReportMetrics !in faults
    ensures ExportMojo in r.attempted <==> r.completed
    ensures ExportBinary in r.attempted <==> r.completed
    ensures r.predictors.Some? <==> Import !in faults
    ensures r.predictors.Some? ==>
              r.predictors.value == SelectPredictors(columns, ExampleIgnored, ExampleResponse)
    ensures r.written == if Import !in faults && Train !in faults && WriteJson !in faults
                         then [TrainAppJson] else []
  {
    var json := TrainAppJson;
    if Import in faults then Run([Import], [], None, false)
    else
      var p := Some(SelectByConcatenation(columns, ExampleIgnored, ExampleResponse));
      ConcatenationAgrees(columns, ExampleIgnored, ExampleResponse);
      if Train in faults then Run([Import, Train], [], p, false)
      else if WriteJson in faults then Run([Import, Train, WriteJson], [], p, false)
      else if ReportMetrics in faults then
        Run([Import, Train, WriteJson, ReportMetrics], [json], p, false)
      else Run([Import, Train, WriteJson, ReportMetrics, ExportMojo, ExportBinary], [json], p, true)
  }

  /** Only the unguarded steps decide the run; the guarded exports' failures do not. */
  lemma TrainAppDependsOnlyOnUnguarded(columns: seq<string>, f1: set<Step>, f2: set<Step>)
    requires Import in f1 <==> Import in f2
    requires Train in f1 <==> Train in f2
    requires WriteJson in f1 <==> WriteJson in f2
    requires ReportMetrics in f1 <==> ReportMetrics in f2
    ensures TrainAppRun(columns, f1) == TrainAppRun(columns, f2)
  {
  }

  /** A failed MOJO export does not skip the binary save: the run is unchanged. */
  lemma TrainAppExportsIndependent(columns: seq<string>, faults: set<Step>)
    ensures TrainAppRun(columns, faults + {ExportMojo}) ==
            TrainAppRun(columns, faults - {ExportMojo})
    ensures TrainAppRun(columns, faults + {ExportBinary}) ==
            TrainAppRun(columns, faults - {ExportBinary})
  {
    TrainAppDependsOnlyOnUnguarded(columns, faults + {ExportMojo}, faults - {ExportMojo});
    TrainAppDependsOnlyOnUnguarded(columns, faults + {ExportBinary}, faults - {ExportBinary});
  }
}
