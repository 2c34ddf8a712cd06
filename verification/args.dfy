/**
 * The argument resolvers of the two regression scripts: the Java `main`, which
 * sees only the user's arguments, and the Python `main`, whose `sys.argv`
 * also holds the script name at index 0.
 */
module Args {
  import opened Wrappers
  import opened Decimal

  /** The training configuration both scripts pass to their training routine. */
  datatype Config = Config(train: string, ntrees: int, maxDepth: int, when: string)

  const DefaultTrain: string := "../csv/small.csv"
  const DefaultNtrees: int := 30
  const DefaultMaxDepth: int := 10
  const DefaultWhen: string := "now"

  const DefaultConfig: Config := Config(DefaultTrain, DefaultNtrees, DefaultMaxDepth, DefaultWhen)

  /** The exception raised by the integer parse, naming the text it rejected. */
  datatype ArgError = NotAnInteger(text: string)

  /** Parses the tree count, then the depth; the first text that fails is the one reported. */
  function ResolveNumbers(
    parse: string -> Option<int>, train: string, ntreesText: string, depthText: string, when: string
  ): (r: Result<Config, ArgError>)
    ensures r.Success? <==> parse(ntreesText).Some? && parse(depthText).Some?
    ensures r.Success? ==>
              r.value == Config(train, parse(ntreesText).value, parse(depthText).value, when)
    ensures r.Failure? && parse(ntreesText).None? ==> r.error == NotAnInteger(ntreesText)
    ensures r.Failure? && parse(ntreesText).Some? ==> r.error == NotAnInteger(depthText)
  {
    match parse(ntreesText)
    case None => Failure(NotAnInteger(ntreesText))
    case Some(ntrees) =>
      match parse(depthText)
      case None => Failure(NotAnInteger(depthText))
      case Some(depth) => Success(Config(train, ntrees, depth, when))
  }

  /**
   * Java `GBMRegressionApp.main`: one argument sets the training file, four set
   * every field, any other count keeps the defaults. No range check is made.
   */
  function ResolveJava(args: seq<string>): (r: Result<Config, ArgError>)
    ensures |args| == 1 ==> r == Success(DefaultConfig.(train := args[0]))
    ensures |args| != 1 && |args| != 4 ==> r == Success(DefaultConfig)
    ensures |args| == 4 ==>
              (r.Success? <==> ParseJavaInt(args[1]).Some? && ParseJavaInt(args[2]).Some?)
    ensures |args| == 4 && r.Success? ==>
              && r.value.train == args[0] && r.value.when == args[3]
              && Some(r.value.ntrees) == ParseJavaInt(args[1])
              && Some(r.value.maxDepth) == ParseJavaInt(args[2])
    ensures r.Success? ==> IsInt32(r.value.ntrees) && IsInt32(r.value.maxDepth)
  {
    if |args| == 1 then
      Success(DefaultConfig.(train := args[0]))
    else if |args| == 4 then
      ResolveNumbers(ParseJavaInt, args[0], args[1], args[2], args[3])
    else
      Success(DefaultConfig)
  }

  /**
   * Python `GBMRegressionApp.main`: `argv` of length 2 sets the training file,
   * length 5 sets every field, any other length keeps the defaults.
   */
  function ResolvePython(argv: seq<string>): (r: Result<Config, ArgError>)
    ensures |argv| == 2 ==> r == Success(DefaultConfig.(train := argv[1]))
    ensures |argv| != 2 && |argv| != 5 ==> r == Success(DefaultConfig)
    ensures |argv| == 5 ==>
              (r.Success? <==> ParseInt(argv[2]).Some? && ParseInt(argv[3]).Some?)
    ensures |argv| == 5 && r.Success? ==>
              && r.value.train == argv[1] && r.value.when == argv[4]
              && Some(r.value.ntrees) == ParseInt(argv[2])
              && Some(r.value.maxDepth) == ParseInt(argv[3])
  {
    if |argv| == 2 then
      Success(DefaultConfig.(train := argv[1]))
    else if |argv| == 5 then
      ResolveNumbers(ParseInt, argv[1], argv[2], argv[3], argv[4])
    else
      Success(DefaultConfig)
  }

  /**
   * Any tree count and depth a user writes in decimal, zero and negatives
   * included, reaches the Python training routine unchanged.
   */
  lemma PythonPassesAnyIntegers(
      script: string, train: string, ntrees: int, depth: int, when: string)
    ensures ResolvePython([script, train, IntToString(ntrees), IntToString(depth), when])
            == Success(Config(train, ntrees, depth, when))
  {
    IntRoundTrip(ntrees);
    IntRoundTrip(depth);
  }

  /** The same for Java, for every value an `int` can hold. */
  lemma JavaPassesAnyInt32(train: string, ntrees: int, depth: int, when: string)
    requires IsInt32(ntrees) && IsInt32(depth)
    ensures ResolveJava([train, IntToString(ntrees), IntToString(depth), when])
            == Success(Config(train, ntrees, depth, when))
  {
    JavaIntRoundTrip(ntrees);
    JavaIntRoundTrip(depth);
  }

  /** A tree count outside the `int` range makes the Java resolver raise. */
  lemma JavaRejectsOutOfRange(train: string, ntrees: int, depthText: string, when: string)
    requires !IsInt32(ntrees)
    ensures ResolveJava([train, IntToString(ntrees), depthText, when])
            == Failure(NotAnInteger(IntToString(ntrees)))
  {
    IntRoundTrip(ntrees);
  }

  /**
   * Dropping the script name from `sys.argv` gives the Java argument vector:
   * wherever Java succeeds Python succeeds with the same record, and wherever
   * Python fails Java fails too (Java also rejects values outside the `int`
   * range, so the text it reports may be the earlier one).
   */
  lemma PythonAgreesWithJava(argv: seq<string>)
    requires |argv| >= 1
    ensures ResolveJava(argv[1..]).Success? ==> ResolvePython(argv) == ResolveJava(argv[1..])
    ensures ResolvePython(argv).Failure? ==> ResolveJava(argv[1..]).Failure?
  {
    var args := argv[1..];
    if |argv| == 5 {
      assert args == [argv[1], argv[2], argv[3], argv[4]];
    } else if |argv| == 2 {
      assert args == [argv[1]];
    }
  }
}
