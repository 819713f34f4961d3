/**
 * What the emission plan guarantees for every set of flags: its shape and
 * order, the two mutually exclusive pairs, where files land and what each
 * template is rendered with.
 */
module PlanProperties {
  import opened Answers
  import opened Paths
  import opened ObjectLiterals
  import opened Emission

  lemma {:induction false} TemplatesAppend(a: seq<Job>, b: seq<Job>)
    ensures Templates(a + b) == Templates(a) + Templates(b)
  {
    var l, r := Templates(a + b), Templates(a) + Templates(b);
    assert |l| == |r|;
    forall i | 0 <= i < |l| ensures l[i] == r[i] {
      if i < |a| {
        assert (a + b)[i] == a[i];
      } else {
        assert (a + b)[i] == b[i - |a|];
      }
    }
  }

  /** The template names of the manifest jobs: zero or one of the two manifests. */
  function ManifestTemplates(f: Flags): seq<string> {
    if FirstIs(f.buildTool, "gradle") then ["build.gradle"]
    else if FirstIs(f.buildTool, "maven") then ["pom.xml"]
    else []
  }

  /** The name of the configuration file the run emits. */
  function YmlTemplate(f: Flags): string {
    if f.configClient then "bootstrap.yml" else "application.yml"
  }

  /** The order of templates in a run, as one equation. */
  lemma PlanTemplates(f: Flags)
    ensures Templates(Plan(f)) == ManifestTemplates(f) + AlwaysEmitted[..10] + [YmlTemplate(f)] + AlwaysEmitted[10..]
  {
    var m, l := ManifestJobs(f), LeadingJobs(f.baseName, f.packageName, LayoutOf(f));
    var y, t := [YmlJob(f.baseName, LayoutOf(f), f.configClient)], TrailingJobs(f.baseName, f.imageName, f.registry);
    TemplatesAppend(m, l);
    TemplatesAppend(m + l, y);
    TemplatesAppend(m + l + y, t);
    ManifestJobsTemplates(f);
    LeadingJobsTemplates(f.baseName, f.packageName, LayoutOf(f));
    TrailingJobsTemplates(f.baseName, f.imageName, f.registry);
    assert Templates(y) == [YmlTemplate(f)] by {
      assert Templates(y)[0] == y[0].template;
    }
  }

  lemma ManifestJobsTemplates(f: Flags)
    ensures Templates(ManifestJobs(f)) == ManifestTemplates(f)
  {
    var m := ManifestJobs(f);
    if FirstIs(f.buildTool, "gradle") {
      assert Templates(m)[0] == m[0].template;
    } else if FirstIs(f.buildTool, "maven") {
      assert Templates(m)[0] == m[0].template;
    }
  }

  lemma LeadingJobsTemplates(baseName: string, packageName: string, d: Layout)
    ensures Templates(LeadingJobs(baseName, packageName, d)) == AlwaysEmitted[..10]
  {
    var l := LeadingJobs(baseName, packageName, d);
    var tl := Templates(l);
    forall i | 0 <= i < 10 ensures tl[i] == AlwaysEmitted[i] {
      assert tl[i] == l[i].template;
    }
  }

  lemma TrailingJobsTemplates(baseName: string, imageName: string, registry: string)
    ensures Templates(TrailingJobs(baseName, imageName, registry)) == AlwaysEmitted[10..]
  {
    var t := TrailingJobs(baseName, imageName, registry);
    var tt := Templates(t);
    forall i | 0 <= i < 4 ensures tt[i] == AlwaysEmitted[10 + i] {
      assert tt[i] == t[i].template;
    }
  }

  /**
   * The manifest, if any, comes first; then the first ten always-emitted
   * templates; then exactly one yml file; then the last four. So a run emits
   * 15 jobs, or 16 when `buildTool[0]` names gradle or maven.
   */
  lemma PlanShape(f: Flags)
    ensures var m := if HasManifest(f) then 1 else 0;
      && |Plan(f)| == 15 + m
      && (m == 1 ==> Plan(f)[0].template == (if FirstIs(f.buildTool, "gradle") then "build.gradle" else "pom.xml"))
      && Templates(Plan(f))[m..m + 10] == AlwaysEmitted[..10]
      && Plan(f)[m + 10].template == (if f.configClient then "bootstrap.yml" else "application.yml")
      && Templates(Plan(f))[m + 11..] == AlwaysEmitted[10..]
  {
    PlanTemplates(f);
    var mt := ManifestTemplates(f);
    var t := Templates(Plan(f));
    assert |mt| == if HasManifest(f) then 1 else 0;
    SplitAroundYml(t, mt, YmlTemplate(f));
    if |mt| == 1 {
      assert t[0] == Plan(f)[0].template;
    }
    assert t[|mt| + 10] == Plan(f)[|mt| + 10].template;
  }

  /** Where the pieces of a template list built like a plan's sit. */
  lemma SplitAroundYml(t: seq<string>, mt: seq<string>, y: string)
    requires t == mt + AlwaysEmitted[..10] + [y] + AlwaysEmitted[10..]
    ensures |t| == |mt| + 15
    ensures t[|mt|..|mt| + 10] == AlwaysEmitted[..10]
    ensures t[|mt| + 10] == y
    ensures t[|mt| + 11..] == AlwaysEmitted[10..]
    ensures |mt| > 0 ==> t[0] == mt[0]
  {
    var m := |mt|;
    assert t[m..m + 10] == AlwaysEmitted[..10];
    assert t[m + 11..] == AlwaysEmitted[10..];
  }

  /** None of the fourteen fixed templates is a manifest or a yml file. */
  lemma FixedTemplatesAreOrdinary()
    ensures "build.gradle" !in AlwaysEmitted && "pom.xml" !in AlwaysEmitted
    ensures "bootstrap.yml" !in AlwaysEmitted && "application.yml" !in AlwaysEmitted
  {
  }

  /**
   * `build.gradle` is emitted iff `buildTool[0]` is "gradle", `pom.xml` iff
   * it is "maven"; never both, and neither (without any error) when no build
   * tool was ticked.
   */
  lemma ManifestRule(f: Flags)
    ensures "build.gradle" in Templates(Plan(f)) <==> FirstIs(f.buildTool, "gradle")
    ensures "pom.xml" in Templates(Plan(f)) <==> FirstIs(f.buildTool, "maven")
    ensures !("build.gradle" in Templates(Plan(f)) && "pom.xml" in Templates(Plan(f)))
    ensures f.buildTool == [] ==> "build.gradle" !in Templates(Plan(f)) && "pom.xml" !in Templates(Plan(f))
  {
    PlanTemplates(f);
    FixedTemplatesAreOrdinary();
    assert AlwaysEmitted == AlwaysEmitted[..10] + AlwaysEmitted[10..];
  }

  /** Only the first ticked build tool matters; later ticks are ignored. */
  lemma OnlyFirstBuildToolCounts(f: Flags, rest: seq<string>)
    requires |f.buildTool| > 0
    ensures Plan(f.(buildTool := [f.buildTool[0]] + rest)) == Plan(f)
  {
    var g := f.(buildTool := [f.buildTool[0]] + rest);
    assert ManifestJobs(g) == ManifestJobs(f) by {
      assert GradleProperties(g) == GradleProperties(f);
      assert MavenProperties(g) == MavenProperties(f);
    }
  }

  /**
   * Exactly one of `bootstrap.yml` (config client) and `application.yml`
   * (otherwise) is emitted; `YmlJobShape` gives its folder and context.
   */
  lemma YmlRule(f: Flags)
    ensures "bootstrap.yml" in Templates(Plan(f)) <==> f.configClient
    ensures "application.yml" in Templates(Plan(f)) <==> !f.configClient
  {
    PlanTemplates(f);
    FixedTemplatesAreOrdinary();
    assert AlwaysEmitted == AlwaysEmitted[..10] + AlwaysEmitted[10..];
  }

  /**
   * The yml job, right after the ten leading jobs, lands in the resources
   * folder and is rendered with `{baseName}` only.
   */
  lemma YmlJobShape(f: Flags)
    ensures var j := Plan(f)[if HasManifest(f) then 11 else 10];
      && j.CopyTpl?
      && j.template == YmlTemplate(f)
      && j.dest == f.baseName + "/src/main/resources/" + j.template
      && j.context == map["baseName" := Str(f.baseName)]
  {
    var m := ManifestJobs(f);
    var l := LeadingJobs(f.baseName, f.packageName, LayoutOf(f));
    assert |m| == if HasManifest(f) then 1 else 0;
    assert Plan(f)[|m| + 10] == YmlJob(f.baseName, LayoutOf(f), f.configClient);
    OnePropertyLiteral("baseName", Str(f.baseName));
  }

  /**
   * The first `usesSpringCloud` property of the manifest literal (the
   * never-assigned field, `undefined`) is overwritten by the later `true`,
   * so it may as well not be there.
   */
  lemma ShadowedUsesSpringCloudIsDead(f: Flags)
    ensures var props := GradleProperties(f);
      ObjectLiteral(props) == ObjectLiteral(props[..6] + props[7..])
  {
    var props := GradleProperties(f);
    ShadowedPropertyIsDead(props, 6, 21);
  }

  /** In the manifest context `usesSpringCloud` is `true`, whatever the answers. */
  lemma UsesSpringCloudIsTrue(f: Flags)
    ensures "usesSpringCloud" in ObjectLiteral(GradleProperties(f))
    ensures ObjectLiteral(GradleProperties(f))["usesSpringCloud"] == Bool(true)
  {
    LastOccurrenceWins(GradleProperties(f), 21);
  }

  /** Every manifest property other than the shadowed one holds the value written for it. */
  lemma ManifestPropertiesHold(f: Flags)
    ensures var props := GradleProperties(f);
      forall i | 0 <= i < |props| && i != 6 ::
        props[i].0 in ObjectLiteral(props) && ObjectLiteral(props)[props[i].0] == props[i].1
  {
    var props := GradleProperties(f);
    forall i | 0 <= i < |props| && i != 6
      ensures props[i].0 in ObjectLiteral(props) && ObjectLiteral(props)[props[i].0] == props[i].1
    {
      LastOccurrenceWins(props, i);
    }
  }

  /** No property of the manifest context is `undefined`. */
  lemma ManifestContextDefined(f: Flags)
    ensures forall k | k in ObjectLiteral(GradleProperties(f)) :: ObjectLiteral(GradleProperties(f))[k] != Undefined
  {
    var props := GradleProperties(f);
    OnlyShadowedIsUndefined(f);
    forall k | k in ObjectLiteral(props) ensures ObjectLiteral(props)[k] != Undefined {
      var i := LastWrite(props, k);
    }
  }

  /** Only the shadowed property of the manifest literal is written as `undefined`. */
  lemma OnlyShadowedIsUndefined(f: Flags)
    ensures forall i | 0 <= i < |GradleProperties(f)| :: GradleProperties(f)[i].1 == Undefined <==> i == 6
  {
  }

  /** The gradle and maven manifests are rendered with the same object. */
  lemma ManifestContextsAgree(f: Flags)
    ensures ObjectLiteral(MavenProperties(f)) == ObjectLiteral(GradleProperties(f))
  {
  }

  /** Every job of a run comes from one of the four parts of `Plan`. */
  lemma PlanParts(f: Flags, j: Job)
    requires j in Plan(f)
    ensures || j in ManifestJobs(f)
            || j in LeadingJobs(f.baseName, f.packageName, LayoutOf(f))
            || j == YmlJob(f.baseName, LayoutOf(f), f.configClient)
            || j in TrailingJobs(f.baseName, f.imageName, f.registry)
  {
  }

  /**
   * The files named in the layout of the produced project: the manifest of
   * the first ticked build tool at the top of the output folder, the
   * application class in the source folder, and the yml file in the
   * resources folder.
   */
  lemma KeyFilesEmitted(f: Flags)
    ensures FirstIs(f.buildTool, "gradle") ==> f.baseName + "/build.gradle" in Destinations(Plan(f))
    ensures FirstIs(f.buildTool, "maven") ==> f.baseName + "/pom.xml" in Destinations(Plan(f))
    ensures LayoutOf(f).srcDir + "Application.java" in Destinations(Plan(f))
    ensures LayoutOf(f).resourceDir + YmlTemplate(f) in Destinations(Plan(f))
  {
    var p := Plan(f);
    var m := ManifestJobs(f);
    var k := |m|;
    assert p[k] == LeadingJobs(f.baseName, f.packageName, LayoutOf(f))[0];
    assert p[k + 10] == YmlJob(f.baseName, LayoutOf(f), f.configClient);
    if HasManifest(f) {
      assert p[0] == m[0];
    }
  }

  /** `s` ends with `suffix`. */
  predicate EndsWith(s: string, suffix: string) {
    |suffix| <= |s| && s[|s| - |suffix|..] == suffix
  }

  lemma AppendKeepsPrefix(p: string, a: string, b: string)
    requires p <= a
    ensures p <= a + b && EndsWith(a + b, b)
  {
    assert (a + b)[..|a|] == a;
    assert (a + b)[|a + b| - |b|..] == b;
  }

  /** A destination inside the output folder whose file name is the template's. */
  predicate Placed(baseName: string, j: Job) {
    baseName + "/" <= j.dest && EndsWith(j.dest, j.template)
  }

  /** `baseName + "/name"` lies in the output folder and ends with `name`. */
  lemma TopLevelPlaced(baseName: string, j: Job, name: string)
    requires j.template == name && j.dest == baseName + "/" + name
    ensures Placed(baseName, j)
  {
    AppendKeepsPrefix(baseName + "/", baseName + "/", name);
  }

  /** A manifest is written at the top of the output folder. */
  lemma ManifestJobsPlaced(f: Flags)
    ensures forall j | j in ManifestJobs(f) :: j.dest == f.baseName + "/" + j.template && Placed(f.baseName, j)
  {
    var base := f.baseName;
    forall j | j in ManifestJobs(f) ensures j.dest == base + "/" + j.template && Placed(base, j) {
      if j.template == "build.gradle" {
        assert base + "/build.gradle" == base + "/" + "build.gradle";
      } else {
        assert base + "/pom.xml" == base + "/" + "pom.xml";
      }
      TopLevelPlaced(base, j, j.template);
    }
  }

  lemma LeadingJobsPlaced(baseName: string, packageName: string, d: Layout)
    requires baseName + "/" <= d.srcDir && baseName + "/" <= d.testDir
    requires baseName + "/" <= d.apiDir && baseName + "/" <= d.configDir
    requires baseName + "/" <= d.controllerDir
    ensures forall j | j in LeadingJobs(baseName, packageName, d) :: Placed(baseName, j)
  {
    var l := LeadingJobs(baseName, packageName, d);
    JavaSourcesPlaced(baseName, packageName, d);
    DockerFilesPlaced(baseName, packageName, d);
    forall j | j in l ensures Placed(baseName, j) {
      var i :| 0 <= i < |l| && l[i] == j;
    }
  }

  /** The eight Java sources land in folders inside the output folder. */
  lemma JavaSourcesPlaced(baseName: string, packageName: string, d: Layout)
    requires baseName + "/" <= d.srcDir && baseName + "/" <= d.testDir
    requires baseName + "/" <= d.apiDir && baseName + "/" <= d.configDir
    requires baseName + "/" <= d.controllerDir
    ensures var l := LeadingJobs(baseName, packageName, d);
      && Placed(baseName, l[0]) && Placed(baseName, l[1]) && Placed(baseName, l[2]) && Placed(baseName, l[3])
      && Placed(baseName, l[4]) && Placed(baseName, l[5]) && Placed(baseName, l[6]) && Placed(baseName, l[7])
  {
    var base := baseName;
    var l := LeadingJobs(base, packageName, d);
    InDirPlaced(base, d.srcDir, l[0]);
    InDirPlaced(base, d.srcDir, l[1]);
    InDirPlaced(base, d.testDir, l[2]);
    InDirPlaced(base, d.apiDir, l[3]);
    InDirPlaced(base, d.apiDir, l[4]);
    InDirPlaced(base, d.apiDir, l[5]);
    InDirPlaced(base, d.configDir, l[6]);
    InDirPlaced(base, d.controllerDir, l[7]);
  }

  /** The Dockerfile and the entry point script land at the top of the output folder. */
  lemma DockerFilesPlaced(baseName: string, packageName: string, d: Layout)
    ensures var l := LeadingJobs(baseName, packageName, d);
      && l[8].dest == baseName + "/" + l[8].template && Placed(baseName, l[8])
      && l[9].dest == baseName + "/" + l[9].template && Placed(baseName, l[9])
  {
    var base := baseName;
    var l := LeadingJobs(base, packageName, d);
    assert base + "/Dockerfile" == base + "/" + "Dockerfile";
    InDirPlaced(base, base + "/", l[8]);
    assert base + "/entrypoint.sh" == base + "/" + "entrypoint.sh";
    InDirPlaced(base, base + "/", l[9]);
  }

  /** A file written into a folder that lies in the output folder is placed. */
  lemma InDirPlaced(baseName: string, dir: string, j: Job)
    requires baseName + "/" <= dir && j.dest == dir + j.template
    ensures Placed(baseName, j)
  {
    AppendKeepsPrefix(baseName + "/", dir, j.template);
  }

  /** The scripts and the ignore file are written at the top of the output folder. */
  lemma TrailingJobsPlaced(baseName: string, imageName: string, registry: string)
    ensures forall j | j in TrailingJobs(baseName, imageName, registry) ::
      j.dest == baseName + "/" + j.template && Placed(baseName, j)
  {
    var base := baseName;
    var t := TrailingJobs(base, imageName, registry);
    forall i | 0 <= i < 4 ensures t[i].dest == base + "/" + t[i].template && Placed(base, t[i]) {
      if i == 0 {
        assert base + "/build.sh" == base + "/" + "build.sh";
      } else if i == 1 {
        assert base + "/run.sh" == base + "/" + "run.sh";
      } else if i == 2 {
        assert base + "/push.sh" == base + "/" + "push.sh";
      } else {
        assert base + "/.gitignore" == base + "/" + ".gitignore";
      }
      TopLevelPlaced(base, t[i], t[i].template);
    }
  }

  /**
   * Every destination lies in the `baseName/` folder and ends with the name
   * of the template rendered into it.
   */
  lemma DestinationsUnderBase(f: Flags)
    ensures forall j | j in Plan(f) :: f.baseName + "/" <= j.dest && EndsWith(j.dest, j.template)
  {
    var d := LayoutOf(f);
    var y := YmlJob(f.baseName, d, f.configClient);
    ManifestJobsPlaced(f);
    LeadingJobsPlaced(f.baseName, f.packageName, d);
    AppendKeepsPrefix(f.baseName + "/", d.resourceDir, y.template);
    TrailingJobsPlaced(f.baseName, f.imageName, f.registry);
    forall j | j in Plan(f) ensures Placed(f.baseName, j) {
      PlanParts(f, j);
    }
  }

  /**
   * The substitution context each template is rendered with: the eight Java
   * sources get `{packageName}`; the Dockerfile and the yml file
   * `{baseName}`; `build.sh` and `run.sh` `{imageName}`; `push.sh`
   * `{imageName, registry}`; `entrypoint.sh` and `.gitignore` are copied
   * verbatim; and a manifest gets the full manifest context. No other
   * template is ever emitted.
   */
  predicate ContextRule(f: Flags, j: Job) {
    if j.template in AlwaysEmitted[..8] then
      j.CopyTpl? && j.context == map["packageName" := Str(f.packageName)]
    else if j.template == "Dockerfile" || j.template == "bootstrap.yml" || j.template == "application.yml" then
      j.CopyTpl? && j.context == map["baseName" := Str(f.baseName)]
    else if j.template == "build.sh" || j.template == "run.sh" then
      j.CopyTpl? && j.context == map["imageName" := Str(f.imageName)]
    else if j.template == "push.sh" then
      j.CopyTpl? && j.context == map["imageName" := Str(f.imageName), "registry" := Str(f.registry)]
    else if j.template == "entrypoint.sh" || j.template == ".gitignore" then
      j.Copy?
    else
      && (j.template == "build.gradle" || j.template == "pom.xml")
      && j.CopyTpl? && j.context == ObjectLiteral(GradleProperties(f))
  }

  lemma OnePropertyLiteral(k: string, v: Value)
    ensures ObjectLiteral([(k, v)]) == map[k := v]
  {
    assert [(k, v)][..0] == [];
  }

  lemma TwoPropertyLiteral(k1: string, v1: Value, k2: string, v2: Value)
    ensures ObjectLiteral([(k1, v1), (k2, v2)]) == map[k1 := v1, k2 := v2]
  {
    assert [(k1, v1), (k2, v2)][..1] == [(k1, v1)];
    OnePropertyLiteral(k1, v1);
  }

  lemma ManifestJobsContexts(f: Flags)
    ensures forall j | j in ManifestJobs(f) :: ContextRule(f, j)
  {
    ManifestContextsAgree(f);
    forall j | j in ManifestJobs(f) ensures ContextRule(f, j) {
      assert j.template == "build.gradle" || j.template == "pom.xml";
      FixedTemplatesAreOrdinary();
      assert j.template !in AlwaysEmitted[..8];
    }
  }

  lemma LeadingJobsContexts(f: Flags, d: Layout)
    ensures forall j | j in LeadingJobs(f.baseName, f.packageName, d) :: ContextRule(f, j)
  {
    OnePropertyLiteral("packageName", Str(f.packageName));
    OnePropertyLiteral("baseName", Str(f.baseName));
    var l := LeadingJobs(f.baseName, f.packageName, d);
    forall i | 0 <= i < 10 ensures ContextRule(f, l[i]) {
      assert i < 8 ==> l[i].template == AlwaysEmitted[i];
    }
  }

  lemma YmlJobContext(f: Flags, d: Layout)
    ensures ContextRule(f, YmlJob(f.baseName, d, f.configClient))
  {
    OnePropertyLiteral("baseName", Str(f.baseName));
  }

  lemma TrailingJobsContexts(f: Flags)
    ensures forall j | j in TrailingJobs(f.baseName, f.imageName, f.registry) :: ContextRule(f, j)
  {
    OnePropertyLiteral("imageName", Str(f.imageName));
    TwoPropertyLiteral("imageName", Str(f.imageName), "registry", Str(f.registry));
    var t := TrailingJobs(f.baseName, f.imageName, f.registry);
    forall i | 0 <= i < 4 ensures ContextRule(f, t[i]) {
    }
  }

  /** Every job of a run is rendered with the context its template calls for. */
  lemma ContextsByTemplate(f: Flags)
    ensures forall j | j in Plan(f) :: ContextRule(f, j)
  {
    ManifestJobsContexts(f);
    LeadingJobsContexts(f, LayoutOf(f));
    YmlJobContext(f, LayoutOf(f));
    TrailingJobsContexts(f);
    forall j | j in Plan(f) ensures ContextRule(f, j) {
      PlanParts(f, j);
    }
  }

  /**
   * The folder each template is written into: the two application classes
   * into the source folder, the test class into the test folder, the api,
   * configuration and controller classes into their sub-package folders,
   * the yml file into the resources folder, and every other file at the top
   * of the output folder.
   */
  function FolderFor(baseName: string, d: Layout, template: string): string {
    if template == "Application.java" || template == "RFC3339DateFormat.java" then d.srcDir
    else if template == "ApplicationTests.java" then d.testDir
    else if template == "ApiException.java" || template == "ApiResponseMessage.java"
         || template == "NotFoundException.java" then d.apiDir
    else if template == "SwaggerDocumentationConfig.java" then d.configDir
    else if template == "HomeController.java" then d.controllerDir
    else if template == "bootstrap.yml" || template == "application.yml" then d.resourceDir
    else baseName + "/"
  }

  /** `j` is written into the folder its template calls for, under the template's own name. */
  predicate FolderRule(baseName: string, d: Layout, j: Job) {
    j.dest == FolderFor(baseName, d, j.template) + j.template
  }

  /** The files written at the top of the output folder. */
  lemma TopLevelFolder(baseName: string, d: Layout, template: string)
    requires template in ["build.gradle", "pom.xml", "Dockerfile", "entrypoint.sh", "build.sh", "run.sh", "push.sh", ".gitignore"]
    ensures FolderFor(baseName, d, template) == baseName + "/"
  {
  }

  lemma ManifestJobsFolders(f: Flags, d: Layout)
    ensures forall j | j in ManifestJobs(f) :: FolderRule(f.baseName, d, j)
  {
    ManifestJobsPlaced(f);
    forall j | j in ManifestJobs(f) ensures FolderRule(f.baseName, d, j) {
      TopLevelFolder(f.baseName, d, j.template);
    }
  }

  lemma LeadingJobsFolders(baseName: string, packageName: string, d: Layout)
    ensures forall j | j in LeadingJobs(baseName, packageName, d) :: FolderRule(baseName, d, j)
  {
    var l := LeadingJobs(baseName, packageName, d);
    DockerFilesPlaced(baseName, packageName, d);
    forall i | 0 <= i < 10 ensures FolderRule(baseName, d, l[i]) {
    }
  }

  lemma YmlJobFolder(baseName: string, d: Layout, configClient: bool)
    ensures FolderRule(baseName, d, YmlJob(baseName, d, configClient))
  {
  }

  lemma TrailingJobsFolders(baseName: string, imageName: string, registry: string, d: Layout)
    ensures forall j | j in TrailingJobs(baseName, imageName, registry) :: FolderRule(baseName, d, j)
  {
    var t := TrailingJobs(baseName, imageName, registry);
    TrailingJobsPlaced(baseName, imageName, registry);
    forall i | 0 <= i < 4 ensures FolderRule(baseName, d, t[i]) {
      TopLevelFolder(baseName, d, t[i].template);
    }
  }

  /**
   * Every job of a run is written into the folder its template calls for:
   * the files of the produced project's layout, each in its place.
   */
  lemma FoldersByTemplate(f: Flags)
    ensures forall j | j in Plan(f) :: j.dest == FolderFor(f.baseName, LayoutOf(f), j.template) + j.template
  {
    var d := LayoutOf(f);
    ManifestJobsFolders(f, d);
    LeadingJobsFolders(f.baseName, f.packageName, d);
    YmlJobFolder(f.baseName, d, f.configClient);
    TrailingJobsFolders(f.baseName, f.imageName, f.registry, d);
    forall j | j in Plan(f) ensures FolderRule(f.baseName, d, j) {
      PlanParts(f, j);
    }
  }
}
