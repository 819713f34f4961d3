/**
 * Concrete runs of the generator, from the answers to the files requested.
 * Answers not mentioned may be anything.
 */
module Scenarios {
  import opened Answers
  import opened Paths
  import opened Emission
  import opened PlanProperties

  /** The package `com.myapp` lives in the folder `com/myapp`. */
  lemma ComMyappFolder(packageName: string)
    requires packageName == "com.myapp"
    ensures PackageFolder(packageName) == "com/myapp"
  {
    PackageFolderReplacesDots(packageName);
    assert PackageFolder(packageName)[3] == '/';
  }

  /** The folders of the project `app` with the package `com.myapp`. */
  lemma ComMyappLayout(baseName: string, packageName: string)
    requires baseName == "app" && packageName == "com.myapp"
    ensures var d := MakeLayout(baseName, packageName);
      && d.srcDir == "app/src/main/java/com/myapp/"
      && d.testDir == "app/src/test/java/com/myapp/"
      && d.controllerDir == "app/src/main/java/com/myapp/controller/"
      && d.resourceDir == "app/src/main/resources/"
  {
    ComMyappFolder(packageName);
    SourceFolders(baseName, PackageFolder(packageName));
    TestFolders(baseName, PackageFolder(packageName));
  }

  /** The main source prefixes of `MakeLayout` spelled out for `app` and `com/myapp`. */
  lemma SourceFolders(baseName: string, packageFolder: string)
    requires baseName == "app" && packageFolder == "com/myapp"
    ensures baseName + "/src/main/java/" + packageFolder + "/" == "app/src/main/java/com/myapp/"
    ensures "app/src/main/java/com/myapp/" + "controller/" == "app/src/main/java/com/myapp/controller/"
  {
  }

  /** The test and resource prefixes of `MakeLayout` spelled out for `app` and `com/myapp`. */
  lemma TestFolders(baseName: string, packageFolder: string)
    requires baseName == "app" && packageFolder == "com/myapp"
    ensures baseName + "/src/test/java/" + packageFolder + "/" == "app/src/test/java/com/myapp/"
    ensures baseName + "/src/main/resources/" == "app/src/main/resources/"
  {
  }

  /** The files of the project `app`, package `com.myapp`, that the runs below look for. */
  lemma AppFiles(baseName: string, d: Layout)
    requires baseName == "app"
    requires d.srcDir == "app/src/main/java/com/myapp/" && d.resourceDir == "app/src/main/resources/"
    ensures baseName + "/pom.xml" == "app/pom.xml"
    ensures d.srcDir + "Application.java" == "app/src/main/java/com/myapp/Application.java"
    ensures d.resourceDir + "application.yml" == "app/src/main/resources/application.yml"
    ensures d.resourceDir + "bootstrap.yml" == "app/src/main/resources/bootstrap.yml"
  {
  }

  /**
   * Maven, project `app`, package `com.myapp`, no Spring Cloud starter:
   * `app/pom.xml`, the application class under `com/myapp` and
   * `application.yml` are written; `build.gradle` and `bootstrap.yml` are not.
   */
  lemma MavenApplication(props: AnswerRecord)
    requires props.baseName == "app" && props.packageName == "com.myapp"
    requires props.buildTool == ["maven"] && props.cloud == []
    ensures var p := PlanFor(props);
      && "app/pom.xml" in Destinations(p)
      && "app/src/main/java/com/myapp/Application.java" in Destinations(p)
      && "app/src/main/resources/application.yml" in Destinations(p)
      && "build.gradle" !in Templates(p) && "bootstrap.yml" !in Templates(p)
  {
    var f := DeriveFlags(props);
    KeyFilesEmitted(f);
    ComMyappLayout(f.baseName, f.packageName);
    AppFiles(f.baseName, LayoutOf(f));
    ManifestRule(f);
    YmlRule(f);
  }

  /**
   * The same run with the config client ticked writes
   * `app/src/main/resources/bootstrap.yml` instead of `application.yml`.
   */
  lemma ConfigClientBootstrap(props: AnswerRecord)
    requires props.baseName == "app" && props.packageName == "com.myapp"
    requires props.buildTool == ["maven"] && props.cloud == ["configclient"]
    ensures var p := PlanFor(props);
      && "app/src/main/resources/bootstrap.yml" in Destinations(p)
      && "application.yml" !in Templates(p)
  {
    var f := DeriveFlags(props);
    assert props.cloud[0] == "configclient";
    KeyFilesEmitted(f);
    ComMyappLayout(f.baseName, f.packageName);
    AppFiles(f.baseName, LayoutOf(f));
    YmlRule(f);
  }

  /**
   * Both build tools ticked, maven listed first: only `pom.xml` is written,
   * because only the first element of the array is consulted.
   */
  lemma MavenBeforeGradle(props: AnswerRecord)
    requires props.buildTool == ["maven", "gradle"]
    ensures var p := PlanFor(props);
      && |p| == 16
      && "pom.xml" in Templates(p) && "build.gradle" !in Templates(p)
  {
    var f := DeriveFlags(props);
    PlanShape(f);
    ManifestRule(f);
  }

  /** No build tool ticked: no manifest at all, and fifteen jobs. */
  lemma NoBuildTool(props: AnswerRecord)
    requires props.buildTool == []
    ensures var p := PlanFor(props);
      && |p| == 15
      && "pom.xml" !in Templates(p) && "build.gradle" !in Templates(p)
  {
    var f := DeriveFlags(props);
    PlanShape(f);
    ManifestRule(f);
  }
}
