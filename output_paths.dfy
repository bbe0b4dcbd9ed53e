/**
 * The default locations of the task's three output directories
 * (InstrumentationTestTask.getCoverageDir, getResultsDir, getReportsDir).
 * A directory is the build directory, a separator, a fixed prefix that
 * depends on the kind of output, and the flavour name.
 */
module OutputPaths {
  import opened Nullable

  /** Flavour used when the extension names none. */
  const DefaultFlavor: string := "default_flavor"

  /** The three output directories the task manages. */
  datatype DirKind = Coverage | Results | Reports

  /** The flavour name, or `DefaultFlavor` when it is null. */
  function FlavorOrDefault(flavorName: Option<string>): (f: string)
    ensures flavorName.Some? ==> f == flavorName.value
    ensures flavorName.None? ==> f == DefaultFlavor
  {
    match flavorName
    case Some(name) => name
    case None => DefaultFlavor
  }

  /** The format string of each directory, up to the flavour. */
  function KindPrefix(kind: DirKind): string
  {
    match kind
    case Coverage => "outputs/androidTest/coverage/"
    case Results => "outputs/androidTest/"
    case Reports => "outputs/reports/androidTest/"
  }

  /** `new File(parent, child)` on a normalised parent path. */
  function Child(dir: string, name: string): string
  {
    dir + "/" + name
  }

  /** The directory a getter generates when none was set. */
  function DefaultDir(buildDir: string, kind: DirKind, flavorName: Option<string>): (d: string)
    ensures ParseDefaultDir(buildDir, kind, d) == Some(FlavorOrDefault(flavorName))
  {
    var prefix := buildDir + "/" + KindPrefix(kind);
    var flavor := FlavorOrDefault(flavorName);
    assert Child(buildDir, KindPrefix(kind) + flavor) == prefix + flavor;
    assert (prefix + flavor)[..|prefix|] == prefix;
    prefix + flavor
  }

  /**
   * A task without a flavour and a task whose flavour is literally
   * "default_flavor" share all three default directories.
   */
  lemma NoFlavorSharesDefaultFlavorDirs(buildDir: string, kind: DirKind)
    ensures DefaultDir(buildDir, kind, None) == DefaultDir(buildDir, kind, Some(DefaultFlavor))
  {
  }

  /** The flavour a default directory of this kind was generated for, if `dir` is one. */
  function ParseDefaultDir(buildDir: string, kind: DirKind, dir: string): Option<string>
  {
    var prefix := buildDir + "/" + KindPrefix(kind);
    if prefix <= dir then Some(dir[|prefix|..]) else None
  }

  /** Every directory the parser accepts is the default directory of the flavour it returns. */
  lemma ParseDefaultDirSound(buildDir: string, kind: DirKind, dir: string, flavor: string)
    requires ParseDefaultDir(buildDir, kind, dir) == Some(flavor)
    ensures dir == DefaultDir(buildDir, kind, Some(flavor))
  {
  }

  /** Two default directories of one kind coincide only for the same (defaulted) flavour. */
  lemma DefaultDirInjective(buildDir: string, kind: DirKind, f: Option<string>, g: Option<string>)
    requires DefaultDir(buildDir, kind, f) == DefaultDir(buildDir, kind, g)
    ensures FlavorOrDefault(f) == FlavorOrDefault(g)
  {
  }

  /** `path` is the directory `dir` itself or lies somewhere below it. */
  predicate Within(path: string, dir: string)
  {
    path == dir || dir + "/" <= path
  }

  /** For one flavour the three default directories are pairwise different. */
  lemma DefaultDirsDistinct(buildDir: string, k1: DirKind, k2: DirKind, flavorName: Option<string>)
    requires k1 != k2
    ensures DefaultDir(buildDir, k1, flavorName) != DefaultDir(buildDir, k2, flavorName)
  {
  }

  /**
   * Whatever the flavours, the default reports directory and the default
   * results or coverage directory are not inside one another, so cleaning
   * one of them never removes the other's files.
   */
  lemma ReportsDirApart(buildDir: string, kind: DirKind, f: Option<string>, g: Option<string>)
    requires kind != Reports
    ensures !Within(DefaultDir(buildDir, Reports, f), DefaultDir(buildDir, kind, g))
    ensures !Within(DefaultDir(buildDir, kind, g), DefaultDir(buildDir, Reports, f))
  {
    var root := buildDir + "/";
    var i := |root| + 8;
    var reports := DefaultDir(buildDir, Reports, f);
    var other := DefaultDir(buildDir, kind, g);
    PrefixCharAt(root, KindPrefix(Reports), FlavorOrDefault(f), 8);
    PrefixCharAt(root, KindPrefix(kind), FlavorOrDefault(g), 8);
    DifferentCharNotWithin(reports, other, i);
  }

  /** Character `j` of a prefix, read through the whole path. */
  lemma PrefixCharAt(root: string, prefix: string, flavor: string, j: nat)
    requires j < |prefix|
    ensures |root + prefix + flavor| > |root| + j
    ensures (root + prefix + flavor)[|root| + j] == prefix[j]
  {
  }

  /** Two paths that differ at a position both reach are not inside one another. */
  lemma DifferentCharNotWithin(p: string, q: string, i: nat)
    requires i < |p| && i < |q| && p[i] != q[i]
    ensures !Within(p, q) && !Within(q, p)
  {
  }

  /** The flavour "coverage" puts the default coverage directory inside the default results directory. */
  lemma CoverageInsideResultsForFlavorCoverage(buildDir: string)
    ensures Within(DefaultDir(buildDir, Coverage, Some("coverage")),
                   DefaultDir(buildDir, Results, Some("coverage")))
  {
    // spelled out step by step: the solver is slow to find these on its own
    var root, flavor := buildDir + "/", "coverage";
    var results := root + KindPrefix(Results) + flavor;
    assert KindPrefix(Coverage) == KindPrefix(Results) + flavor + "/";
    assert DefaultDir(buildDir, Results, Some(flavor)) == results;
    assert DefaultDir(buildDir, Coverage, Some(flavor)) == root + KindPrefix(Coverage) + flavor;
    assert root + (KindPrefix(Results) + flavor + "/") + flavor == (results + "/") + flavor;
  }

  /** A path as `java.io.File` keeps it: non-empty, no doubled separator and no trailing one. */
  predicate Normalised(p: string)
  {
    |p| > 0 && p[|p| - 1] != '/' && forall i :: 0 <= i < |p| - 1 ==> !(p[i] == '/' && p[i + 1] == '/')
  }

  /** A single path component other than `.` and `..`. */
  predicate PlainName(s: string)
  {
    |s| > 0 && s != "." && s != ".." && forall i :: 0 <= i < |s| ==> s[i] != '/'
  }

  /** The directory part of each format string, without its trailing separator. */
  function KindDir(kind: DirKind): (d: string)
    ensures KindPrefix(kind) == d + "/"
  {
    match kind
    case Coverage => "outputs/androidTest/coverage"
    case Results => "outputs/androidTest"
    case Reports => "outputs/reports/androidTest"
  }

  /** Joining two normalised paths, the second relative, with one separator gives a normalised path. */
  lemma JoinNormalised(x: string, y: string)
    requires Normalised(x) && Normalised(y) && y[0] != '/'
    ensures Normalised(x + "/" + y) && (x + "/" + y)[0] == x[0]
  {
    var p := x + "/" + y;
    forall i | 0 <= i < |p| - 1
      ensures !(p[i] == '/' && p[i + 1] == '/')
    {
      if i < |x| - 1 {
        assert p[i] == x[i] && p[i + 1] == x[i + 1];
      } else if i == |x| - 1 {
        assert p[i] == x[i];
      } else if i == |x| {
        assert p[i + 1] == y[0];
      } else {
        assert p[i] == y[i - |x| - 1] && p[i + 1] == y[i - |x|];
      }
    }
    assert p[|p| - 1] == y[|y| - 1];
  }

  /** Each kind's directory part is a normalised relative path. */
  lemma KindDirNormalised(kind: DirKind)
    ensures Normalised(KindDir(kind)) && KindDir(kind)[0] != '/'
  {
    match kind
    case Coverage => CoverageDirNormalised();
    case Results => ResultsDirNormalised();
    case Reports => ReportsDirNormalised();
  }

  lemma ResultsDirNormalised()
    ensures Normalised(KindDir(Results)) && KindDir(Results)[0] != '/'
  {
    JoinNormalised("outputs", "androidTest");
  }

  lemma CoverageDirNormalised()
    ensures Normalised(KindDir(Coverage)) && KindDir(Coverage)[0] != '/'
  {
    ResultsDirNormalised();
    JoinNormalised(KindDir(Results), "coverage");
  }

  lemma ReportsDirNormalised()
    ensures Normalised(KindDir(Reports)) && KindDir(Reports)[0] != '/'
  {
    JoinNormalised("outputs", "reports");
    JoinNormalised("outputs/reports", "androidTest");
  }

  /**
   * For a normalised build directory and a flavour that is a plain name,
   * the generated path is already normalised, so it is the path
   * `new File(buildDir, "outputs/.../" + flavor)` denotes.
   */
  lemma DefaultDirNormalised(buildDir: string, kind: DirKind, flavorName: Option<string>)
    requires Normalised(buildDir) && PlainName(FlavorOrDefault(flavorName))
    ensures Normalised(DefaultDir(buildDir, kind, flavorName))
  {
    var flavor := FlavorOrDefault(flavorName);
    KindDirNormalised(kind);
    JoinNormalised(KindDir(kind), flavor);
    JoinNormalised(buildDir, KindDir(kind) + "/" + flavor);
    assert DefaultDir(buildDir, kind, flavorName) == buildDir + "/" + (KindDir(kind) + "/" + flavor);
  }
}
