# GBM training glue: a Dafny model

The repository holds three near-duplicate programs. Each one trains a gradient-boosted
regression model with the H2O engine and exports it: `GBMRegressionApp` (Java and
Python), `H2OJavaGBMExample` (Java) and `GBMTrainApp` (Python). The Java
`GBMRegressionApp` extends the helper class `AbstractH2O`, which holds the engine
start-up, the CSV import and the export. `H2OJavaGBMExample` is a standalone class with
its own `exportModel`, whose MOJO and binary exports are commented out. Each Python
script has its own functions. Training, CSV parsing, cluster start-up and serialisation
are library calls. This project models the small amount of sequential logic around those
calls and proves properties of it:

- **Argument resolution** (`Args`). An argument vector becomes a record
  `(train, ntrees, maxDepth, when)`, chosen by arity. Java accepts 1 or 4 arguments.
  Python accepts `sys.argv` of length 2 or 5, because the script name is at index 0.
  The numeric fields go through a partial integer parse (`Decimal`).
- **Predictor selection** (`Columns`). An order-preserving filter over the frame's
  column names. It drops a fixed ignore list and the response column.
- **Name and path derivation** (`Naming`). This covers the frame key taken from the
  training path, the model name `<family>_<ntrees>_<depth>`, the basename
  `<dir><model>_<when>`, and the `.json`/`.zip`/`.h2o` artifact paths.
- **Metric selection by model category** (`Metrics`), for the Java and Python exporters.
- **Engine start-up** (`Engine`). The cloud-size clamp of `stall_till_cloudsize` and its
  once-only start-up flag.
- **Step sequencing with partial failure** (`Pipeline`). Every library call whose
  failure changes what runs next is an abstract step that either completes or raises:
  import, estimator construction, fit, JSON write, the category and metric queries, the MOJO and binary exports,
  the two cleanup calls, the "Done!" log and shutdown. A `faults` set says which steps
  raise. For each program, the model states which later steps still run, which files get
  written, and whether the program reaches its normal end. The other log calls are
  treated as never raising (see "Left out"). Estimator construction is a step of its own
  only in `H2OJavaGBMExample`. It sits outside both handlers there. The other programs
  construct the estimator in the same handler or unguarded block as the fit, so there
  the fit step covers it.

Files: `wrappers.dfy` (Option/Result), `decimal.dfy`, `args.dfy`, `columns.dfy`,
`naming.dfy`, `metrics.dfy`, `engine.dfy`, `pipeline.dfy`.

Behaviour of the code that is easy to misread, and which the model follows:

- A malformed numeric argument is not fatal in Java. `GBMRegressionApp.main` catches
  the exception, logs "Done!" and exits with status 0 (`Pipeline.JavaRegressionMain`).
  In Python the `int()` failure is not caught, so the program stops before training,
  the "Done!" log and shutdown (`Pipeline.PythonRegressionMain`).
- The exports in `AbstractH2O.exportModel` are not independent. The JSON write, the
  category and metric queries, the MOJO export and the binary export run in order with
  no local handler, so a failure skips every later step (`Pipeline.ExportModel`). Only
  `GBMTrainApp` guards its MOJO and binary exports separately; its JSON write and metric
  queries are unguarded there.
- In `H2OJavaGBMExample` only an `IOException` from the export is caught. A failed
  metric query escapes `train`, skipping cleanup and the shutdown in `main`
  (`Pipeline.ExampleTrain`, `Pipeline.ExampleMain`).
- The Java programs write under `./work/`, not `models/`. `H2OJavaGBMExample` writes only
  the `.json` file, because its MOJO and binary exports are commented out. `GBMTrainApp`
  writes `./<model>_<when>.json`. The library names its MOJO and binary files, and those
  names are not derived from the basename.
- The programs make no range check of their own on the tree count or depth. Zero and
  negative values reach training unchanged (`Args.PythonPassesAnyIntegers`,
  `Args.JavaPassesAnyInt32`). Java's `int` bounds the values; Python's `int()` has no
  value bound, only the interpreter's digit-count limit (see "Left out").

## Model

| member | source | states |
|---|---|---|
| `Decimal.ParseInt` | python/GBMRegressionApp.py:25-26 | The parse succeeds exactly on an optional sign followed by at least one digit. A result without a leading '-' is non-negative. |
| `Decimal.ParseJavaInt` | src/main/java/com/mannetroll/analysis/GBMRegressionApp.java:27-28 | `Integer.parseInt` accepts the same literals, but only values that fit in a 32-bit `int`. |
| `Decimal.NatToString` | src/main/java/com/mannetroll/analysis/GBMRegressionApp.java:71 | A natural number renders as digits only, with no leading zero, using more than one digit exactly when it is at least 10. |
| `Decimal.IntToString` | python/GBMRegressionApp.py:75 | An integer renders with a leading '-' exactly when it is negative, never contains '_' or '/', and is canonical: no '+', no leading zero, no "-0". |
| `Decimal.CanonicalIsRendering` | python/GBMRegressionApp.py:75 | Every canonical numeral parses and is the rendering of its value, so the rendering of a number is the only canonical text for it. |
| `Decimal.NatToStringOfDigits` | python/GBMRegressionApp.py:75 | A digit string without a leading zero is the rendering of its own value. |
| `Decimal.NatRoundTrip` | src/main/java/com/mannetroll/analysis/GBMRegressionApp.java:71 | Reading a rendered natural number back gives the number. |
| `Decimal.IntRoundTrip` | python/GBMRegressionApp.py:25-26 | `int(str(n)) == n` for every integer. |
| `Decimal.JavaIntRoundTrip` | src/main/java/com/mannetroll/analysis/GBMRegressionApp.java:27 | `Integer.parseInt` inverts Java's decimal rendering on every 32-bit value. |
| `Decimal.IntToStringInjective` | src/main/java/com/mannetroll/analysis/GBMRegressionApp.java:71 | Different integers render differently. |
| `Args.ResolveNumbers` | src/main/java/com/mannetroll/analysis/GBMRegressionApp.java:26-29 | The four-argument branch succeeds exactly when both numbers parse. It fills every field from its argument. The error names the tree-count text when that parse fails, otherwise the depth text. |
| `Args.ResolveJava` | src/main/java/com/mannetroll/analysis/GBMRegressionApp.java:19-30 | One argument sets only the training file. Four arguments set all fields, with 32-bit parses. Any other count (0, 2, 3, 5 or more) gives `("../csv/small.csv", 30, 10, "now")`. |
| `Args.ResolvePython` | python/GBMRegressionApp.py:16-27 | `argv` of length 2 sets only the training file. Length 5 sets all fields from `argv[1..4]`. Any other length keeps the defaults. |
| `Args.PythonPassesAnyIntegers` | python/GBMRegressionApp.py:23-27 | Any integers written in decimal, zero and negatives included, reach the record unchanged. The script adds no range check of its own. |
| `Args.JavaPassesAnyInt32` | src/main/java/com/mannetroll/analysis/GBMRegressionApp.java:25-31 | Any 32-bit tree count and depth, zero and negatives included, reach `train` unchanged. |
| `Args.JavaRejectsOutOfRange` | src/main/java/com/mannetroll/analysis/GBMRegressionApp.java:27 | A tree count outside the `int` range raises, and the error names its text. |
| `Args.PythonAgreesWithJava` | python/GBMRegressionApp.py:21-27 | With the script name dropped, Python resolves every vector that Java resolves, to the same record. Wherever Python fails, Java fails too. |
| `Columns.SelectPredictors` | python/GBMRegressionApp.py:62 | No selected name is ignored or the response, and the list is never longer than the frame's. |
| `Columns.SelectMembership` | src/main/java/com/mannetroll/analysis/H2OJavaGBMExample.java:75-79 | A name is a predictor exactly when the frame has it and it is neither ignored nor the response. |
| `Columns.SelectMultiplicity` | python/GBMTrainApp.py:39-40 | Every kept name appears as often as in the frame. Excluded names never appear. |
| `Columns.SelectIsSubsequence` | python/GBMRegressionApp.py:62 | The predictors keep the frame's order: they are a subsequence of its names. |
| `Columns.SelectByConcatenation` | python/GBMTrainApp.py:39-40 | The single membership test against `ignored + [response]` never keeps an excluded name. |
| `Columns.ConcatenationAgrees` | python/GBMTrainApp.py:39-40 | That single-test filter selects exactly what the two-test filter selects. |
| `Columns.SelectPredictorsLoop` | src/main/java/com/mannetroll/analysis/H2OJavaGBMExample.java:74-79 | The explicit append loop computes exactly the filter. |
| `Columns.PredictorsAreComplement` | src/main/java/com/mannetroll/analysis/H2OJavaGBMExample.java:84-87 | As a set, the predictors are the frame's names minus (ignored ∪ {response}). That is the set the source comment at H2OJavaGBMExample.java:85-86 says the library infers. |
| `Columns.RegressionExcludesResponseAndTarget` | python/GBMRegressionApp.py:49-62 | The regression programs never select "TTATA" or "Target". |
| `Columns.ResponsesNotInOwnIgnoreLists` | src/main/java/com/mannetroll/analysis/H2OJavaGBMExample.java:57-76 | "TTATA" is not in the regression ignore list, and "Target" is not in the example ignore list, so the explicit response test is what excludes each. |
| `Columns.BothConfigurationsAgree` | python/GBMTrainApp.py:29-40 | The regression configuration and the example configuration select the same predictors from any frame. |
| `Columns.RegressionExample` | python/GBMRegressionApp.py:62 | `["A","Group","TTATA","B"]` yields `["A","B"]`. |
| `Naming.LastIndexOf` | src/main/java/com/mannetroll/analysis/AbstractH2O.java:67 | The result is -1 exactly when the character is absent. Otherwise it is an index holding the character, with none after it. |
| `Naming.KeyName` | src/main/java/com/mannetroll/analysis/AbstractH2O.java:66-70 | The key is always a suffix of the path. If the last '/' is past index 0, the key is the part after it and contains no '/'. Otherwise the key is the whole path. |
| `Naming.KeyNameOfPath` | src/main/java/com/mannetroll/analysis/AbstractH2O.java:66-70 | `dir + "/" + file`, with a non-empty `dir`, is keyed `file`. |
| `Naming.KeyNameOfRootedFile` | src/main/java/com/mannetroll/analysis/AbstractH2O.java:66-68 | `"/" + file` keeps its leading slash: a path whose only '/' is at index 0 keeps it, because the test is `lastIndexOf('/') > 0`. |
| `Naming.KeyNameWithoutSlash` | src/main/java/com/mannetroll/analysis/AbstractH2O.java:66-67 | A path without '/' is its own key. |
| `Naming.DefaultTrainKey` | src/main/java/com/mannetroll/analysis/AbstractH2O.java:65-71 | The default training file is keyed "small.csv". |
| `Naming.ModelName` | src/main/java/com/mannetroll/analysis/GBMRegressionApp.java:71 | The model name `<family>_<ntrees>_<depth>` starts with the family and '_', and `ParseModelName`, which accepts only canonically written numbers, reads the tree count and depth back out of it. The same rule names the models at python/GBMRegressionApp.py:75, H2OJavaGBMExample.java:105 and python/GBMTrainApp.py:52. |
| `Naming.ParsedNameIsModelName` | src/main/java/com/mannetroll/analysis/GBMRegressionApp.java:71 | Any name `ParseModelName` accepts is exactly the name built from the two numbers it returns, so no other text ("GBM_080_+16") reads as a model name. |
| `Naming.ModelNameInjective` | python/GBMRegressionApp.py:75 | Different hyperparameters never share a model name within a family. |
| `Naming.ExampleModelName` | src/main/java/com/mannetroll/analysis/H2OJavaGBMExample.java:105 | The fixed 80 trees and depth 16 give "GBM_80_16". |
| `Naming.DefaultRegressionModelName` | src/main/java/com/mannetroll/analysis/GBMRegressionApp.java:20-21 | The default 30 trees and depth 10 give "GBMRegression_30_10". |
| `Naming.Basename` | src/main/java/com/mannetroll/analysis/AbstractH2O.java:26 | The basename `<dir><model>_<when>` has the length of its parts, and the model name between the directory and `"_" + when` can be read back from it. The same rule builds the basenames at H2OJavaGBMExample.java:122 and python/GBMTrainApp.py:57. `ArtifactPaths` then appends the suffixes. |
| `Naming.BasenameInjective` | python/GBMTrainApp.py:57 | Within one directory and label, different model names give different basenames. |
| `Naming.ArtifactPaths` | src/main/java/com/mannetroll/analysis/AbstractH2O.java:26-44 | The three paths are the basename followed by ".json", ".zip" and ".h2o". They share that prefix and are pairwise distinct. |
| `Naming.ArtifactPathsInjective` | src/main/java/com/mannetroll/analysis/AbstractH2O.java:26-27 | Different basenames never produce the same JSON path. |
| `Naming.TrainAppBasename` | python/GBMTrainApp.py:57-60 | The basename is "./GBM_80_16_20250308_080101", and the JSON path is that basename plus ".json". |
| `Naming.ExampleJavaBasename` | src/main/java/com/mannetroll/analysis/H2OJavaGBMExample.java:122 | The example's basename is "./work/GBM_80_16_now". |
| `Metrics.JavaMetrics` | src/main/java/com/mannetroll/analysis/AbstractH2O.java:30-40 | AUC, logloss and mean_per_class_error are reported exactly for "Binomial", and mae exactly for "Regression". The list always ends with loss, r2, mse. Any other category reports only those three. |
| `Metrics.PythonMetrics` | python/GBMTrainApp.py:66-74 | Binomial reports AUC, and Regression reports mae. The list ends with r2, mse. Loss is never reported. |
| `Metrics.PythonIsJavaWithoutLoss` | python/GBMTrainApp.py:66-74 | For every category, the Python list is the Java list with loss removed, in the same order. |
| `Metrics.JavaMetricsDistinct` | src/main/java/com/mannetroll/analysis/H2OJavaGBMExample.java:127-137 | No metric is reported twice for any category. |
| `Engine.ClampCloudSize` | src/main/java/com/mannetroll/analysis/AbstractH2O.java:52 | The size waited for is at least 1 and at least `x`, and it is `x` or 1. |
| `Engine.Stall` | src/main/java/com/mannetroll/analysis/AbstractH2O.java:51-59 | Start-up runs exactly when the flag is down, and the flag is up afterwards. The wait is for `Math.max(1, x)` nodes: at least one, and `x` itself when `x >= 1`. |
| `Engine.StallPreservesConsistent` | src/main/java/com/mannetroll/analysis/AbstractH2O.java:53-58 | One call keeps this invariant: start-up has run once exactly when the flag is up, and every wait was for at least one node. |
| `Engine.StartupAtMostOnce` | src/main/java/com/mannetroll/analysis/AbstractH2O.java:20-59 | Over any sequence of calls, start-up runs at most once and the flag is never lowered. One wait is recorded per call. |
| `Engine.FreshProcess` | src/main/java/com/mannetroll/analysis/AbstractH2O.java:20 | From process start, start-up has run once exactly when some call was made. |
| `Pipeline.RunUnguarded` | src/main/java/com/mannetroll/analysis/AbstractH2O.java:27-44 | A block with no handler attempts a prefix of its steps. Every attempted step but a raising last one succeeded. The block completes only if every step succeeds. |
| `Pipeline.ExportModel` | src/main/java/com/mannetroll/analysis/AbstractH2O.java:24-45 | The JSON write, the category and metric queries, the MOJO export and the binary export run as one block with no handler, under the basename `./work/<model>_<when>`. The artifacts written are a prefix of JSON, MOJO, binary. The JSON file is written exactly when its write succeeds. The MOJO file also needs the metric queries to succeed. The binary file needs every step to succeed. |
| `Pipeline.ExportAttempts` | src/main/java/com/mannetroll/analysis/AbstractH2O.java:27-44 | The JSON write comes first. Each later export step is attempted exactly when every earlier one succeeded. The export returns normally exactly when all four succeed. |
| `Pipeline.MojoFailureSkipsBinary` | src/main/java/com/mannetroll/analysis/AbstractH2O.java:43-44 | A failed MOJO export leaves the binary export unattempted and its file unwritten. |
| `Pipeline.MetricFailureSkipsExports` | src/main/java/com/mannetroll/analysis/AbstractH2O.java:27-40 | A failed category or metric query after a good JSON write leaves only the JSON file, and the export raises. |
| `Pipeline.JavaRegressionTrain` | src/main/java/com/mannetroll/analysis/GBMRegressionApp.java:39-79 | Import, fit and export sit under one catch-all, so training always returns normally. Export runs only after import and fit succeed, under the model name `GBMRegression_<ntrees>_<depth>`. |
| `Pipeline.JavaRegressionMain` | src/main/java/com/mannetroll/analysis/GBMRegressionApp.java:16-37 | "Done!" is always the last step. The exit is normal unless that log itself raises, since everything before it sits under a catch-all. Training is called exactly when resolution succeeds. On a malformed number, only "Done!" happens. Otherwise the files written are those of `JavaRegressionTrain`. |
| `Pipeline.OneArgumentArtifacts` | src/main/java/com/mannetroll/analysis/GBMRegressionApp.java:19-31 | With one argument and no failures, all three files are written under the basename `./work/GBMRegression_30_10_now`, which is the default model name with the label "now". |
| `Pipeline.PythonRegressionMain` | python/GBMRegressionApp.py:10-31 | On an `int()` failure, training, "Done!" and shutdown are all skipped. Otherwise training's own handlers contain import, fit and save failures. The "Done!" log and shutdown have no handler, so the run ends normally exactly when resolution succeeds and neither of them raises. The save runs only after import and fit succeed. |
| `Pipeline.PythonSaveFailureContained` | python/GBMRegressionApp.py:83-89 | The run is identical whether or not the save fails. |
| `Pipeline.ExampleTrain` | src/main/java/com/mannetroll/analysis/H2OJavaGBMExample.java:37-142 | A failed import returns before predictor selection. A failed estimator construction (`new GBM(params)`, outside both handlers) escapes `train` after predictor selection, skipping cleanup. A failed fit returns before export and cleanup. A failed JSON write is an `IOException`: it is caught, and cleanup still runs. A failed metric query escapes `train` without cleanup. Frame removal runs only after model removal succeeds. `train` returns normally unless the construction, the metric query or a cleanup call raises. The only file ever written is the JSON one, and only when its write succeeds. |
| `Pipeline.ExampleMain` | src/main/java/com/mannetroll/analysis/H2OJavaGBMExample.java:27-35 | Shutdown is attempted exactly when `train` returns normally. The program ends normally exactly when, in addition, shutdown does not raise. |
| `Pipeline.ExampleJsonDerived` | src/main/java/com/mannetroll/analysis/H2OJavaGBMExample.java:105-123 | The example's JSON path "./work/GBM_80_16_now.json" is the one the naming rules derive from its fixed model name and label. |
| `Pipeline.TrainAppRun` | python/GBMTrainApp.py:9-91 | The script ends normally exactly when import, fit, JSON write and the metric queries succeed. The MOJO and binary exports are both attempted exactly then. The JSON file is written whenever import, fit and the write succeed, even if a metric query then raises. |
| `Pipeline.TrainAppJsonDerived` | python/GBMTrainApp.py:52-60 | The script's JSON path "./GBM_80_16_20250308_080101.json" is the one the naming rules derive from its fixed model name and label. |
| `Pipeline.TrainAppDependsOnlyOnUnguarded` | python/GBMTrainApp.py:60-91 | Only the unguarded steps decide the run. |
| `Pipeline.TrainAppExportsIndependent` | python/GBMTrainApp.py:79-91 | A failed MOJO export does not skip the binary save, and a failed binary save changes nothing either. |

## Left out

- H2O itself is not modelled: `H2O.main`, `waitForCloudSize`, REST API registration,
  model training and `h2o.init`/`shutdown`. These are opaque library calls with their own
  concurrency. They appear only as abstract steps that succeed or raise. The start-up and
  the wait in `stall_till_cloudsize` are recorded, not performed.
- `_initial_keycnt` is not modelled, because it is a count read from the engine's store.
  The two-argument `stall_till_cloudsize` overload only forwards an empty argument array,
  so it adds nothing.
- The failure of `stall_till_cloudsize` before the `try` in the Java `main` is not
  modelled, and neither is the failure of `h2o.init()` in Python. Both are engine
  start-up failures.
- CSV import and file writes (`NFSFileVec`, `ParseDataset`, `h2o.import_file`,
  `FileUtils.writeStringToFile`, `json.dump`, `exportMojo`, `download_mojo`,
  `save_model`) are I/O. Only whether each one is attempted and whether it raises is
  modelled. A JSON write that raises counts as writing no file, although, in either
  language, it may leave an empty or partly written file behind.
- The names the library gives to the MOJO and binary files in the Python programs are
  chosen inside the library, so those files are not listed among the written paths.
- Floating-point hyperparameters (learn rate, min_rows, min_split_improvement) and
  metric values are library floats. Metrics are modelled by name only.
- Log messages and logging frameworks are not modelled, except for the "Done!" log,
  which is a step that may raise. Every other log call is treated as never raising. That
  includes the `model.toString()`/`str(model)` log at the top of each export, and the
  string building around the metric values. The metric getters they call are the
  `ReportMetrics` step.
- `Decimal.ParseInt` does not model the extra leniency of Python `int()`: surrounding
  whitespace, '_' between digits and non-ASCII digits. A text with those characters is
  modelled as rejected although Python accepts it. It also does not model the
  integer-string conversion limit of CPython 3.11 and later, which rejects a numeral of
  more than 4300 digits by default. The model accepts numerals of any length.
- `Args.PythonPassesAnyIntegers` is stated for numerals of any length. Under CPython 3.11
  or later with the default limit, a tree count or depth of more than 4300 digits
  raises `ValueError` instead, as an unparsable text would.
- `Decimal.ParseJavaInt` does not model non-ASCII digits, which `Integer.parseInt` also
  accepts.
- The engine start-up in `H2OJavaGBMExample.main` (`H2O.main`, `waitForCloudSize`) is
  not a step: like the other start-ups it is assumed to succeed.
- `Pipeline.ExampleTrain`: a failed JSON write is modelled as an `IOException`, which is
  caught. A runtime failure of `toJsonString` would instead escape like a failed metric
  query does.
- The `GBMRegressionApp.java` `train` passes the ignore list to the library and lets it
  infer the predictors. Its run therefore carries no predictor list.
  `Columns.PredictorsAreComplement` characterises the set that the source comment at
  H2OJavaGBMExample.java:85-86 says the library infers. H2O's own constant-column
  dropping (`ignore_const_cols`) can remove further columns and is not modelled.
