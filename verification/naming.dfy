/**
 * Names derived from the inputs: the frame key of `AbstractH2O.parse_csv_file`,
 * the model name built from the tree count and depth, and the artifact paths
 * written by the exporters.
 */
module Naming {
  import opened Wrappers
  import opened Decimal

  /** Java `String.lastIndexOf(char)`: the last index holding `c`, or -1. */
  function LastIndexOf(s: string, c: char): (r: int)
    ensures -1 <= r < |s|
    ensures r == -1 <==> c !in s
    ensures r >= 0 ==> s[r] == c
    ensures forall j :: r < j < |s| ==> s[j] != c
  {
    if |s| == 0 then -1
    else if s[|s| - 1] == c then |s| - 1
    else LastIndexOf(s[..|s| - 1], c)
  }

  /** Java `String.indexOf(char)`: the first index holding `c`, or -1. */
  function IndexOf(s: string, c: char): (r: int)
    ensures -1 <= r < |s|
    ensures r == -1 <==> c !in s
    ensures r >= 0 ==> s[r] == c
    ensures forall j :: 0 <= j < r || (r == -1 && 0 <= j < |s|) ==> s[j] != c
  {
    if |s| == 0 then -1
    else if s[0] == c then 0
    else
      var k := IndexOf(s[1..], c);
      if k == -1 then -1 else k + 1
  }

  /**
   * Key name of the parsed frame: the part after the last '/', but only when
   * that '/' is past index 0; a path with no '/' or whose last '/' leads it
   * is used whole.
   */
  function KeyName(fname: string): (name: string)
    ensures |name| <= |fname| && name == fname[|fname| - |name|..]
    ensures LastIndexOf(fname, '/') > 0 ==>
              '/' !in name && |name| == |fname| - LastIndexOf(fname, '/') - 1
    ensures LastIndexOf(fname, '/') <= 0 ==> name == fname
  {
    var last := LastIndexOf(fname, '/');
    if last > 0 then fname[last + 1..] else fname
  }

  /** A path with a non-empty directory part is keyed by its file name alone. */
  lemma KeyNameOfPath(dir: string, file: string)
    requires |dir| > 0 && '/' !in file
    ensures KeyName(dir + "/" + file) == file
  {
    var fname := dir + "/" + file;
    assert fname[|dir|] == '/';
    assert fname[|dir| + 1..] == file;
  }

  /** A path whose only '/' is at index 0 keeps it, because the test is `lastIndexOf('/') > 0`. */
  lemma KeyNameOfRootedFile(file: string)
    requires '/' !in file
    ensures KeyName("/" + file) == "/" + file
  {
    var fname := "/" + file;
    assert fname[0] == '/';
    assert forall j :: 0 < j < |fname| ==> fname[j] == file[j - 1];
  }

  lemma KeyNameWithoutSlash(fname: string)
    requires '/' !in fname
    ensures KeyName(fname) == fname
  {
  }

  /** The default training file is keyed "small.csv". */
  lemma DefaultTrainKey()
    ensures KeyName("../csv/small.csv") == "small.csv"
  {
    KeyNameOfPath("../csv", "small.csv");
    assert "../csv" + "/" + "small.csv" == "../csv/small.csv";
  }

  /**
   * Model name: the family, then the tree count and the depth in decimal, joined
   * by '_'. The name records its hyperparameters: parsing it gives them back.
   */
  function ModelName(family: string, ntrees: int, depth: int): (name: string)
    ensures |name| > |family| && name[..|family| + 1] == family + "_"
    ensures ParseModelName(family, name) == Some((ntrees, depth))
  {
    var a, b := IntToString(ntrees), IntToString(depth);
    assert IsCanonical(a) && IsCanonical(b);
    StripFamily(family, a + "_" + b);
    SplitAtFirstUnderscore(a, b);
    IntRoundTrip(ntrees);
    IntRoundTrip(depth);
    family + "_" + (a + "_" + b)
  }

  /**
   * Reads the tree count and depth back out of a model name of the given
   * family; both numbers must be written canonically, as the programs write them.
   */
  function ParseModelName(family: string, name: string): (r: Option<(int, int)>)
    ensures r.Some? ==> |name| > |family| && name[..|family| + 1] == family + "_"
  {
    if |name| <= |family| || name[..|family| + 1] != family + "_" then None
    else
      var rest := name[|family| + 1..];
      var k := IndexOf(rest, '_');
      if k < 0 || !IsCanonical(rest[..k]) || !IsCanonical(rest[k + 1..]) then None
      else
        match (ParseInt(rest[..k]), ParseInt(rest[k + 1..]))
        case (Some(a), Some(b)) => Some((a, b))
        case _ => None
  }

  /**
   * The converse of `ModelName`'s round trip: a name that parses to a tree
   * count and depth is exactly the model name built from them, so the text
   * `<family>_<ntrees>_<depth>` is fixed digit by digit.
   */
  lemma ParsedNameIsModelName(family: string, name: string)
    requires ParseModelName(family, name).Some?
    ensures var (a, b) := ParseModelName(family, name).value;
            name == ModelName(family, a, b)
  {
    var rest := name[|family| + 1..];
    var k := IndexOf(rest, '_');
    var (a, b) := ParseModelName(family, name).value;
    CanonicalIsRendering(rest[..k]);
    CanonicalIsRendering(rest[k + 1..]);
    assert rest == rest[..k] + "_" + rest[k + 1..];
    assert name == name[..|family| + 1] + rest;
  }

  /** Splitting `a + "_" + b` at its first '_' gives back `a` and `b` when `a` has no '_'. */
  lemma SplitAtFirstUnderscore(a: string, b: string)
    requires '_' !in a
    ensures IndexOf(a + "_" + b, '_') == |a|
    ensures (a + "_" + b)[..|a|] == a && (a + "_" + b)[|a| + 1..] == b
  {
    var s := a + "_" + b;
    var k := IndexOf(s, '_');
    assert s[|a|] == '_';
    assert forall j :: 0 <= j < |a| ==> s[j] == a[j];
  }

  /** Stripping `family + "_"` from the front of a name. */
  lemma StripFamily(family: string, rest: string)
    ensures (family + "_" + rest)[..|family| + 1] == family + "_"
    ensures (family + "_" + rest)[|family| + 1..] == rest
  {
  }

  /** Distinct hyperparameters never share a model name within a family. */
  lemma ModelNameInjective(family: string, a: int, b: int, c: int, d: int)
    requires ModelName(family, a, b) == ModelName(family, c, d)
    ensures a == c && b == d
  {
  }

  /** The fixed hyperparameters of the example programs name their model "GBM_80_16". */
  lemma ExampleModelName()
    ensures ModelName("GBM", 80, 16) == "GBM_80_16"
  {
    assert NatToString(8) == "8";
    assert NatToString(80) == "80";
    assert NatToString(1) == "1";
    assert NatToString(16) == "16";
    assert IntToString(80) == "80" && IntToString(16) == "16";
    assert "GBM" + "_" + ("80" + "_" + "16") == "GBM_80_16";
  }

  /** The regression defaults name their model "GBMRegression_30_10". */
  lemma DefaultRegressionModelName()
    ensures ModelName("GBMRegression", 30, 10) == "GBMRegression_30_10"
  {
    assert NatToString(3) == "3";
    assert NatToString(30) == "30";
    assert NatToString(1) == "1";
    assert NatToString(10) == "10";
    assert IntToString(30) == "30" && IntToString(10) == "10";
    assert "GBMRegression" + "_" + ("30" + "_" + "10") == "GBMRegression_30_10";
  }

  /** The Java exporters write under "./work/", `GBMTrainApp` under "./". */
  const JavaDir: string := "./work/"
  const PythonDir: string := "./"

  /**
   * Basename of every artifact: directory, model name, '_', label. Within one
   * directory and label the model name can be read back from it.
   */
  function Basename(dir: string, modelName: string, when: string): (b: string)
    ensures |b| == |dir| + |modelName| + 1 + |when|
    ensures ModelOfBasename(dir, when, b) == Some(modelName)
  {
    var b := dir + modelName + "_" + when;
    assert b[..|dir|] == dir;
    assert b[|b| - |when| - 1..] == "_" + when;
    assert b[|dir|..|b| - |when| - 1] == modelName;
    b
  }

  /** The model name between `dir` and `"_" + when`, when `b` has that shape. */
  function ModelOfBasename(dir: string, when: string, b: string): Option<string> {
    if || |b| < |dir| + 1 + |when|
       || b[..|dir|] != dir
       || b[|b| - |when| - 1..] != "_" + when
    then None
    else Some(b[|dir|..|b| - |when| - 1])
  }

  /** Within one directory and label, distinct model names give distinct basenames. */
  lemma BasenameInjective(dir: string, m1: string, m2: string, when: string)
    requires Basename(dir, m1, when) == Basename(dir, m2, when)
    ensures m1 == m2
  {
  }

  /** Paths of the three artifacts: hyperparameters, portable scorer, native binary. */
  datatype Artifacts = Artifacts(json: string, mojo: string, binary: string)

  function ArtifactPaths(basename: string): (a: Artifacts)
    ensures |a.json| == |basename| + 5 && |a.mojo| == |basename| + 4 && |a.binary| == |basename| + 4
    ensures a.json[..|basename|] == basename && a.json[|basename|..] == ".json"
    ensures a.mojo[..|basename|] == basename && a.mojo[|basename|..] == ".zip"
    ensures a.binary[..|basename|] == basename && a.binary[|basename|..] == ".h2o"
    ensures a.json != a.mojo && a.json != a.binary && a.mojo != a.binary
  {
    var r := Artifacts(basename + ".json", basename + ".zip", basename + ".h2o");
    assert r.mojo[|basename| + 1] == 'z' && r.binary[|basename| + 1] == 'h';
    r
  }

  /** The three kinds of artifact an exporter writes. */
  datatype ArtifactKind = JsonFile | MojoFile | BinaryFile

  function PathOf(a: Artifacts, k: ArtifactKind): string {
    match k
    case JsonFile => a.json
    case MojoFile => a.mojo
    case BinaryFile => a.binary
  }

  /** Paths of the given artifact kinds, in the same order. */
  function PathsOf(a: Artifacts, ks: seq<ArtifactKind>): (ps: seq<string>)
    ensures |ps| == |ks| && forall i :: 0 <= i < |ks| ==> ps[i] == PathOf(a, ks[i])
  {
    seq(|ks|, i requires 0 <= i < |ks| => PathOf(a, ks[i]))
  }

  lemma PathsOfAll(a: Artifacts)
    ensures PathsOf(a, [JsonFile, MojoFile, BinaryFile]) == [a.json, a.mojo, a.binary]
  {
  }

  /** Artifacts of different basenames never collide (same suffix, different prefix). */
  lemma ArtifactPathsInjective(b1: string, b2: string)
    requires ArtifactPaths(b1).json == ArtifactPaths(b2).json
    ensures b1 == b2
  {
    assert |b1| == |b2|;
    assert b1 == ArtifactPaths(b1).json[..|b1|];
  }

  /** The label and hyperparameters fixed in `GBMTrainApp`: "GBM", 80, 16, "20250308_080101". */
  lemma TrainAppBasename()
    ensures Basename(PythonDir, ModelName("GBM", 80, 16), "20250308_080101")
            == "./" + "GBM_80_16" + "_" + "20250308_080101"
    ensures ArtifactPaths(Basename(PythonDir, ModelName("GBM", 80, 16), "20250308_080101")).json
            == "./" + "GBM_80_16" + "_" + "20250308_080101" + ".json"
  {
    ExampleModelName();
  }

  /** The basename of `H2OJavaGBMExample` with its fixed label "now". */
  lemma ExampleJavaBasename()
    ensures Basename(JavaDir, ModelName("GBM", 80, 16), "now") ==
            "./work/" + "GBM_80_16" + "_" + "now"
    ensures ArtifactPaths(Basename(JavaDir, ModelName("GBM", 80, 16), "now")).json
            == "./work/" + "GBM_80_16" + "_" + "now" + ".json"
  {
    ExampleModelName();
  }
}
