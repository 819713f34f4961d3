/**
 * What `writing` emits. Every `this.fs.copyTpl(template, destination,
 * context)` or `this.fs.copy(template, destination)` call is recorded as a
 * `Job`; `Plan` is the ordered list of jobs one run of `writing` records.
 */
module Emission {
  import opened Answers
  import opened Paths
  import opened ObjectLiterals

  datatype Job =
    | CopyTpl(template: string, dest: string, context: Context)  // rendered with the context
    | Copy(template: string, dest: string)                       // copied verbatim

  /**
   * `tool === buildTool[0]`. On an empty array the element is `undefined`,
   * which equals no string, so the test is simply false.
   */
  predicate FirstIs(buildTool: seq<string>, tool: string) {
    |buildTool| > 0 && buildTool[0] == tool
  }

  /**
   * The context literal of the `build.gradle` job, property by property. It
   * writes `usesSpringCloud` twice: first from `this.usesSpringCloud`, a
   * field the generator never assigns (so it reads `undefined`), then as
   * `true`.
   */
  function GradleProperties(f: Flags): seq<Property> {
    [ ("packageName", Str(f.packageName)),
      ("baseName", Str(f.baseName)),
      ("jar", Bool(f.jar)),
      ("war", Bool(f.war)),
      ("bootVersion", Str(f.bootVersion)),
      ("javaVersion", Str(f.javaVersion)),
      ("usesSpringCloud", Undefined),
      ("springCloudVersion", Str(f.springCloudVersion)),
      ("springFoxVersion", Str(f.springFoxVersion)),
      ("cassandra", Bool(f.cassandra)),
      ("es", Bool(f.es)),
      ("mongo", Bool(f.mongo)),
      ("redis", Bool(f.redis)),
      ("jpa", Bool(f.jpa)),
      ("jdbc", Bool(f.jdbc)),
      ("mysql", Bool(f.mysql)),
      ("mssql", Bool(f.mssql)),
      ("configClient", Bool(f.configClient)),
      ("eureka", Bool(f.eureka)),
      ("hystrix", Bool(f.hystrix)),
      ("ribbon", Bool(f.ribbon)),
      ("usesSpringCloud", Bool(true)),
      ("zipkin", Bool(f.zipkin)) ]
  }

  /** The context literal of the `pom.xml` job, written separately in the generator. */
  function MavenProperties(f: Flags): seq<Property> {
    [ ("packageName", Str(f.packageName)),
      ("baseName", Str(f.baseName)),
      ("jar", Bool(f.jar)),
      ("war", Bool(f.war)),
      ("bootVersion", Str(f.bootVersion)),
      ("javaVersion", Str(f.javaVersion)),
      ("usesSpringCloud", Undefined),
      ("springCloudVersion", Str(f.springCloudVersion)),
      ("springFoxVersion", Str(f.springFoxVersion)),
      ("cassandra", Bool(f.cassandra)),
      ("es", Bool(f.es)),
      ("mongo", Bool(f.mongo)),
      ("redis", Bool(f.redis)),
      ("jpa", Bool(f.jpa)),
      ("jdbc", Bool(f.jdbc)),
      ("mysql", Bool(f.mysql)),
      ("mssql", Bool(f.mssql)),
      ("configClient", Bool(f.configClient)),
      ("eureka", Bool(f.eureka)),
      ("hystrix", Bool(f.hystrix)),
      ("ribbon", Bool(f.ribbon)),
      ("usesSpringCloud", Bool(true)),
      ("zipkin", Bool(f.zipkin)) ]
  }

  /** The two guarded manifest jobs, gradle's test first. */
  function ManifestJobs(f: Flags): seq<Job> {
    (if FirstIs(f.buildTool, "gradle")
     then [CopyTpl("build.gradle", f.baseName + "/build.gradle", ObjectLiteral(GradleProperties(f)))]
     else [])
    + (if FirstIs(f.buildTool, "maven")
       then [CopyTpl("pom.xml", f.baseName + "/pom.xml", ObjectLiteral(MavenProperties(f)))]
       else [])
  }

  /** The configuration file: `bootstrap.yml` for a config client, `application.yml` otherwise. */
  function YmlJob(baseName: string, d: Layout, configClient: bool): Job {
    var context := ObjectLiteral([("baseName", Str(baseName))]);
    if configClient then CopyTpl("bootstrap.yml", d.resourceDir + "bootstrap.yml", context)
    else CopyTpl("application.yml", d.resourceDir + "application.yml", context)
  }

  /** The ten jobs between the manifest and the yml file, written into the folders of `d`. */
  function LeadingJobs(baseName: string, packageName: string, d: Layout): seq<Job> {
    var pkg := ObjectLiteral([("packageName", Str(packageName))]);
    [ CopyTpl("Application.java", d.srcDir + "Application.java", pkg),
      CopyTpl("RFC3339DateFormat.java", d.srcDir + "RFC3339DateFormat.java", pkg),
      CopyTpl("ApplicationTests.java", d.testDir + "ApplicationTests.java", pkg),
      CopyTpl("ApiException.java", d.apiDir + "ApiException.java", pkg),
      CopyTpl("ApiResponseMessage.java", d.apiDir + "ApiResponseMessage.java", pkg),
      CopyTpl("NotFoundException.java", d.apiDir + "NotFoundException.java", pkg),
      CopyTpl("SwaggerDocumentationConfig.java", d.configDir + "SwaggerDocumentationConfig.java", pkg),
      CopyTpl("HomeController.java", d.controllerDir + "HomeController.java", pkg),
      CopyTpl("Dockerfile", baseName + "/Dockerfile", ObjectLiteral([("baseName", Str(baseName))])),
      Copy("entrypoint.sh", baseName + "/entrypoint.sh") ]
  }

  /** The four jobs after the yml file. */
  function TrailingJobs(baseName: string, imageName: string, registry: string): seq<Job> {
    [ CopyTpl("build.sh", baseName + "/build.sh", ObjectLiteral([("imageName", Str(imageName))])),
      CopyTpl("run.sh", baseName + "/run.sh", ObjectLiteral([("imageName", Str(imageName))])),
      CopyTpl("push.sh", baseName + "/push.sh",
              ObjectLiteral([("imageName", Str(imageName)), ("registry", Str(registry))])),
      Copy(".gitignore", baseName + "/.gitignore") ]
  }

  /** The folders of a run, computed once before anything is emitted. */
  function LayoutOf(f: Flags): Layout {
    MakeLayout(f.baseName, f.packageName)
  }

  /** The jobs of one run of `writing`, in the order they are issued. */
  function Plan(f: Flags): seq<Job> {
    ManifestJobs(f)
    + LeadingJobs(f.baseName, f.packageName, LayoutOf(f))
    + [YmlJob(f.baseName, LayoutOf(f), f.configClient)]
    + TrailingJobs(f.baseName, f.imageName, f.registry)
  }

  /** The plan for an answer record: derive the flags, then write. */
  function PlanFor(props: AnswerRecord): seq<Job> {
    Plan(DeriveFlags(props))
  }

  /** The template names of a job list, in order. */
  function Templates(jobs: seq<Job>): (names: seq<string>)
    ensures |names| == |jobs|
    ensures forall i :: 0 <= i < |jobs| ==> names[i] == jobs[i].template
  {
    if jobs == [] then [] else [jobs[0].template] + Templates(jobs[1..])
  }

  /** The destination paths of a job list, in order. */
  function Destinations(jobs: seq<Job>): (paths: seq<string>)
    ensures |paths| == |jobs|
    ensures forall i :: 0 <= i < |jobs| ==> paths[i] == jobs[i].dest
  {
    if jobs == [] then [] else [jobs[0].dest] + Destinations(jobs[1..])
  }

  /** The fourteen templates every run emits, in emission order. */
  const AlwaysEmitted: seq<string> := [
    "Application.java", "RFC3339DateFormat.java", "ApplicationTests.java",
    "ApiException.java", "ApiResponseMessage.java", "NotFoundException.java",
    "SwaggerDocumentationConfig.java", "HomeController.java",
    "Dockerfile", "entrypoint.sh",
    "build.sh", "run.sh", "push.sh", ".gitignore" ]

  /** Whether the run emits a build manifest at all. */
  predicate HasManifest(f: Flags) {
    FirstIs(f.buildTool, "gradle") || FirstIs(f.buildTool, "maven")
  }
}
