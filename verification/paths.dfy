/**
 * The destination paths `writing` computes before it emits anything: the
 * package name's folder form and the six directory prefixes.
 */
module Paths {

  /**
   * `packageName.replace(/\./g, '/')`: every dot becomes a slash, every other
   * character stays where it is.
   */
  function PackageFolder(packageName: string): (r: string)
    ensures |r| == |packageName|
  {
    if packageName == [] then []
    else [if packageName[0] == '.' then '/' else packageName[0]] + PackageFolder(packageName[1..])
  }

  /**
   * Character by character: a dot becomes a slash and anything else is kept,
   * so the folder has no dot left, and a name without dots is its own folder.
   */
  lemma {:induction false} PackageFolderReplacesDots(packageName: string)
    ensures forall i :: 0 <= i < |packageName| ==>
      PackageFolder(packageName)[i] == (if packageName[i] == '.' then '/' else packageName[i])
    ensures '.' !in PackageFolder(packageName)
    ensures '.' !in packageName ==> PackageFolder(packageName) == packageName
  {
    if packageName != [] {
      var rest := packageName[1..];
      PackageFolderReplacesDots(rest);
      var r := PackageFolder(packageName);
      assert r == [if packageName[0] == '.' then '/' else packageName[0]] + PackageFolder(rest);
      assert forall i :: 1 <= i < |packageName| ==> packageName[i] == rest[i - 1];
    }
  }

  /** The segments of a dotted name glued back together with `sep`. */
  function JoinWith(segments: seq<string>, sep: char): string {
    if |segments| == 0 then ""
    else if |segments| == 1 then segments[0]
    else segments[0] + [sep] + JoinWith(segments[1..], sep)
  }

  /** The folder form distributes over concatenation. */
  lemma {:induction false} PackageFolderAppend(a: string, b: string)
    ensures PackageFolder(a + b) == PackageFolder(a) + PackageFolder(b)
  {
    if a == [] {
      assert a + b == b;
    } else {
      assert (a + b)[1..] == a[1..] + b;
      PackageFolderAppend(a[1..], b);
    }
  }

  /**
   * A dotted identifier `s1.s2. ... .sn` whose segments hold no dot becomes
   * the nested folder `s1/s2/.../sn`; a one-segment name stays as it is.
   */
  lemma {:induction false} PackageFolderOfSegments(segments: seq<string>)
    requires forall k :: 0 <= k < |segments| ==> '.' !in segments[k]
    ensures PackageFolder(JoinWith(segments, '.')) == JoinWith(segments, '/')
  {
    if |segments| == 0 {
    } else if |segments| == 1 {
      PackageFolderReplacesDots(segments[0]);
    } else {
      var rest := segments[1..];
      assert forall k :: 0 <= k < |rest| ==> rest[k] == segments[k + 1];
      PackageFolderOfSegments(rest);
      PackageFolderAppend(segments[0] + ['.'], JoinWith(rest, '.'));
      PackageFolderAppend(segments[0], ['.']);
      assert PackageFolder(['.']) == ['/'];
      PackageFolderReplacesDots(segments[0]);
    }
  }

  /** The directory prefixes of `writing`, each ending in a slash. */
  datatype Layout = Layout(
    srcDir: string,
    testDir: string,
    controllerDir: string,
    apiDir: string,
    configDir: string,
    resourceDir: string
  )

  /**
   * `srcDir`, `testDir`, the three sub-package folders and `resourceDir`.
   * All six lie under `baseName/`, and the three sub-package folders under
   * `srcDir`.
   */
  function MakeLayout(baseName: string, packageName: string): (d: Layout)
    ensures baseName + "/" <= d.srcDir && baseName + "/" <= d.testDir
    ensures baseName + "/" <= d.resourceDir
    ensures d.srcDir <= d.controllerDir && d.srcDir <= d.apiDir && d.srcDir <= d.configDir
    ensures baseName + "/" <= d.controllerDir && baseName + "/" <= d.apiDir
    ensures baseName + "/" <= d.configDir
  {
    var packageFolder := PackageFolder(packageName);
    var srcDir := baseName + "/src/main/java/" + packageFolder + "/";
    var testDir := baseName + "/src/test/java/" + packageFolder + "/";
    Layout(
      srcDir := srcDir,
      testDir := testDir,
      controllerDir := srcDir + "controller/",
      apiDir := srcDir + "api/",
      configDir := srcDir + "configuration/",
      resourceDir := baseName + "/src/main/resources/"
    )
  }
}
