/**
 * The generator object itself. `prompting` stores the answers and the
 * derived flags in fields of `this`; `writing` reads those fields and asks
 * the in-memory file system for one template job after another. Here the
 * file system is the `jobs` field, which records the requests in order.
 */
module App {
  import opened Answers
  import opened Paths
  import opened ObjectLiterals
  import opened Emission

  class Generator {
    var props: AnswerRecord
    var bootVersion: string
    var springCloudVersion: string
    var springFoxVersion: string
    var packageName: string
    var baseName: string
    var javaVersion: string
    var registry: string
    var imageName: string
    var jar: bool
    var war: bool
    var buildTool: seq<string>
    var es: bool
    var mongo: bool
    var redis: bool
    var cassandra: bool
    var mssql: bool
    var mysql: bool
    var jdbc: bool
    var jpa: bool
    var configClient: bool
    var eureka: bool
    var hystrix: bool
    var zipkin: bool
    var ribbon: bool

    /** The `copyTpl`/`copy` requests issued so far, oldest first. */
    var jobs: seq<Job>

    /** The fields `writing` reads, as one value. */
    function State(): Flags
      reads this`bootVersion, this`springCloudVersion, this`springFoxVersion, this`packageName
      reads this`baseName, this`javaVersion, this`registry, this`imageName, this`jar, this`war
      reads this`buildTool, this`es, this`mongo, this`redis, this`cassandra, this`mssql
      reads this`mysql, this`jdbc, this`jpa, this`configClient, this`eureka, this`hystrix
      reads this`zipkin, this`ribbon
    {
      Flags(bootVersion, springCloudVersion, springFoxVersion, packageName, baseName,
            javaVersion, registry, imageName, jar, war, buildTool, es, mongo, redis,
            cassandra, mssql, mysql, jdbc, jpa, configClient, eureka, hystrix, zipkin, ribbon)
    }

    /** A generator that has asked nothing and written nothing. */
    constructor ()
      ensures jobs == []
    {
      props := AnswerRecord("", "", "", "", "", "", [], [], [], [], [], "", "");
      bootVersion, springCloudVersion, springFoxVersion := "", "", "";
      packageName, baseName, javaVersion := "", "", "";
      registry, imageName := "", "";
      jar, war, buildTool := false, false, [];
      es, mongo, redis, cassandra := false, false, false, false;
      mssql, mysql, jdbc, jpa := false, false, false, false;
      configClient, eureka, hystrix, zipkin, ribbon := false, false, false, false, false;
      jobs := [];
    }

    /** The answers `writing` uses as they are have been copied from `answers`. */
    predicate AnswersStored(answers: AnswerRecord)
      reads this`bootVersion, this`springCloudVersion, this`springFoxVersion, this`packageName
      reads this`baseName, this`javaVersion, this`registry, this`imageName, this`buildTool
    {
      && bootVersion == answers.bootVersion && springCloudVersion == answers.springCloudVersion
      && springFoxVersion == answers.springFoxVersion && packageName == answers.packageName
      && baseName == answers.baseName && javaVersion == answers.javaVersion
      && registry == answers.registry && imageName == answers.imageName
      && buildTool == answers.buildTool
    }

    /** Each of the fifteen booleans is set exactly when its option was ticked. */
    predicate TicksStored(answers: AnswerRecord)
      reads this`jar, this`war, this`es, this`mongo, this`redis, this`cassandra
      reads this`mssql, this`mysql, this`jdbc, this`jpa
      reads this`configClient, this`eureka, this`hystrix, this`zipkin, this`ribbon
    {
      && (jar <==> "jar" in answers.packagingType) && (war <==> "war" in answers.packagingType)
      && (es <==> "elasticsearch" in answers.nosql) && (mongo <==> "mongo" in answers.nosql)
      && (redis <==> "redis" in answers.nosql) && (cassandra <==> "cassandra" in answers.nosql)
      && (mssql <==> "mssql" in answers.db) && (mysql <==> "mysql" in answers.db)
      && (jdbc <==> "jdbc" in answers.db) && (jpa <==> "jpa" in answers.db)
      && (configClient <==> "configclient" in answers.cloud) && (eureka <==> "eureka" in answers.cloud)
      && (hystrix <==> "hystrix" in answers.cloud) && (zipkin <==> "zipkin" in answers.cloud)
      && (ribbon <==> "ribbon" in answers.cloud)
    }

    /**
     * The `.then` callback of `prompting`: store the answer record, the
     * answers `writing` uses as they are, and the fifteen flags. Together
     * these say that `State()` is `DeriveFlags(answers)` (see `FlagsOfTicks`).
     */
    method Prompting(answers: AnswerRecord)
      modifies this
      ensures props == answers && AnswersStored(answers) && TicksStored(answers)
      ensures jobs == old(jobs)
    {
      StoreAnswers(answers);
      StoreFlags(answers);
    }

    /** The answer record and the answers `writing` uses as they are. */
    method StoreAnswers(answers: AnswerRecord)
      modifies this`props, this`bootVersion, this`springCloudVersion, this`springFoxVersion
      modifies this`packageName, this`baseName, this`javaVersion, this`registry, this`imageName
      modifies this`buildTool
      ensures props == answers && AnswersStored(answers)
    {
      props := answers;
      bootVersion := answers.bootVersion;
      springCloudVersion := answers.springCloudVersion;
      springFoxVersion := answers.springFoxVersion;
      packageName := answers.packageName;
      baseName := answers.baseName;
      javaVersion := answers.javaVersion;
      registry := answers.registry;
      imageName := answers.imageName;
      buildTool := answers.buildTool;
    }

    /** The fifteen booleans, through the four membership helpers, in the order of the callback. */
    method StoreFlags(answers: AnswerRecord)
      modifies this`jar, this`war, this`es, this`mongo, this`redis, this`cassandra
      modifies this`mssql, this`mysql, this`jdbc, this`jpa
      modifies this`configClient, this`eureka, this`hystrix, this`zipkin, this`ribbon
      ensures TicksStored(answers)
    {
      StorePackagingType(answers);
      StoreNoSql(answers);
      StoreDb(answers);
      StoreCloud(answers);
    }

    /** `this.jar` and `this.war`, through `hasPackagingType`. */
    method StorePackagingType(answers: AnswerRecord)
      modifies this`jar, this`war
      ensures (jar <==> "jar" in answers.packagingType) && (war <==> "war" in answers.packagingType)
    {
      jar := HasPackagingType(answers, "jar");
      war := HasPackagingType(answers, "war");
    }

    /** `this.es`, `this.mongo`, `this.redis`, `this.cassandra`, through `hasNoSql`. */
    method StoreNoSql(answers: AnswerRecord)
      modifies this`es, this`mongo, this`redis, this`cassandra
      ensures (es <==> "elasticsearch" in answers.nosql) && (mongo <==> "mongo" in answers.nosql)
      ensures (redis <==> "redis" in answers.nosql) && (cassandra <==> "cassandra" in answers.nosql)
    {
      es := HasNoSql(answers, "elasticsearch");
      mongo := HasNoSql(answers, "mongo");
      redis := HasNoSql(answers, "redis");
      cassandra := HasNoSql(answers, "cassandra");
    }

    /** `this.mssql`, `this.mysql`, `this.jdbc`, `this.jpa`, through `hasDb`. */
    method StoreDb(answers: AnswerRecord)
      modifies this`mssql, this`mysql, this`jdbc, this`jpa
      ensures (mssql <==> "mssql" in answers.db) && (mysql <==> "mysql" in answers.db)
      ensures (jdbc <==> "jdbc" in answers.db) && (jpa <==> "jpa" in answers.db)
    {
      mssql := HasDb(answers, "mssql");
      mysql := HasDb(answers, "mysql");
      jdbc := HasDb(answers, "jdbc");
      jpa := HasDb(answers, "jpa");
    }

    /** The five Spring Cloud flags, through `hasCloud`. */
    method StoreCloud(answers: AnswerRecord)
      modifies this`configClient, this`eureka, this`hystrix, this`zipkin, this`ribbon
      ensures (configClient <==> "configclient" in answers.cloud) && (eureka <==> "eureka" in answers.cloud)
      ensures (hystrix <==> "hystrix" in answers.cloud) && (zipkin <==> "zipkin" in answers.cloud)
      ensures (ribbon <==> "ribbon" in answers.cloud)
    {
      configClient := HasCloud(answers, "configclient");
      eureka := HasCloud(answers, "eureka");
      hystrix := HasCloud(answers, "hystrix");
      zipkin := HasCloud(answers, "zipkin");
      ribbon := HasCloud(answers, "ribbon");
    }

    /**
     * `writing`: compute the folders, then issue the jobs section by section
     * in source order. It appends exactly the plan for the fields it found
     * and changes nothing else; since it assigns none of the fields it reads,
     * reading them once up front is the same as reading them as it goes.
     */
    method Writing()
      modifies this`jobs
      ensures jobs == old(jobs) + Plan(old(State()))
    {
      var f := State();
      var d := MakeLayout(f.baseName, f.packageName);
      ghost var j0 := jobs;
      WriteManifest(f);
      WriteSources(f.baseName, f.packageName, d);
      WriteConfig(f.baseName, d, f.configClient);
      WriteScripts(f.baseName, f.imageName, f.registry);
      AppendRegroup(j0, ManifestJobs(f), LeadingJobs(f.baseName, f.packageName, d),
                    [YmlJob(f.baseName, d, f.configClient)], TrailingJobs(f.baseName, f.imageName, f.registry));
    }

    /** The build manifest chosen by the first ticked build tool, if any. */
    method WriteManifest(f: Flags)
      modifies this`jobs
      ensures jobs == old(jobs) + ManifestJobs(f)
    {
      if |f.buildTool| > 0 && "gradle" == f.buildTool[0] {
        jobs := jobs + [CopyTpl("build.gradle", f.baseName + "/build.gradle", ObjectLiteral(GradleProperties(f)))];
      }
      if |f.buildTool| > 0 && "maven" == f.buildTool[0] {
        jobs := jobs + [CopyTpl("pom.xml", f.baseName + "/pom.xml", ObjectLiteral(MavenProperties(f)))];
      }
    }

    /** The Java sources into the folders of `d`, then the Dockerfile and the entry point script. */
    method WriteSources(baseName: string, packageName: string, d: Layout)
      modifies this`jobs
      ensures jobs == old(jobs) + LeadingJobs(baseName, packageName, d)
    {
      var pkg := ObjectLiteral([("packageName", Str(packageName))]);
      jobs := jobs + [CopyTpl("Application.java", d.srcDir + "Application.java", pkg)];
      jobs := jobs + [CopyTpl("RFC3339DateFormat.java", d.srcDir + "RFC3339DateFormat.java", pkg)];
      jobs := jobs + [CopyTpl("ApplicationTests.java", d.testDir + "ApplicationTests.java", pkg)];
      jobs := jobs + [CopyTpl("ApiException.java", d.apiDir + "ApiException.java", pkg)];
      jobs := jobs + [CopyTpl("ApiResponseMessage.java", d.apiDir + "ApiResponseMessage.java", pkg)];
      jobs := jobs + [CopyTpl("NotFoundException.java", d.apiDir + "NotFoundException.java", pkg)];
      jobs := jobs + [CopyTpl("SwaggerDocumentationConfig.java", d.configDir + "SwaggerDocumentationConfig.java", pkg)];
      jobs := jobs + [CopyTpl("HomeController.java", d.controllerDir + "HomeController.java", pkg)];
      jobs := jobs + [CopyTpl("Dockerfile", baseName + "/Dockerfile", ObjectLiteral([("baseName", Str(baseName))]))];
      jobs := jobs + [Copy("entrypoint.sh", baseName + "/entrypoint.sh")];
    }

    /** `bootstrap.yml` for a config client, `application.yml` otherwise. */
    method WriteConfig(baseName: string, d: Layout, configClient: bool)
      modifies this`jobs
      ensures jobs == old(jobs) + [YmlJob(baseName, d, configClient)]
    {
      if configClient {
        jobs := jobs + [CopyTpl("bootstrap.yml", d.resourceDir + "bootstrap.yml", ObjectLiteral([("baseName", Str(baseName))]))];
      } else {
        jobs := jobs + [CopyTpl("application.yml", d.resourceDir + "application.yml", ObjectLiteral([("baseName", Str(baseName))]))];
      }
    }

    /** The Docker helper scripts and the ignore file. */
    method WriteScripts(baseName: string, imageName: string, registry: string)
      modifies this`jobs
      ensures jobs == old(jobs) + TrailingJobs(baseName, imageName, registry)
    {
      jobs := jobs + [CopyTpl("build.sh", baseName + "/build.sh", ObjectLiteral([("imageName", Str(imageName))]))];
      jobs := jobs + [CopyTpl("run.sh", baseName + "/run.sh", ObjectLiteral([("imageName", Str(imageName))]))];
      jobs := jobs + [CopyTpl("push.sh", baseName + "/push.sh",
                              ObjectLiteral([("imageName", Str(imageName)), ("registry", Str(registry))]))];
      jobs := jobs + [Copy(".gitignore", baseName + "/.gitignore")];
    }
  }

  /** Regrouping the four sections of `writing` after the jobs already there. */
  lemma AppendRegroup(j0: seq<Job>, m: seq<Job>, l: seq<Job>, y: seq<Job>, t: seq<Job>)
    ensures j0 + m + l + y + t == j0 + (m + l + y + t)
  {
  }

  /**
   * One run of the generator on a fresh object: `prompting`, then `writing`.
   * The jobs requested are exactly the plan for the answers.
   */
  method Run(answers: AnswerRecord) returns (jobs: seq<Job>)
    ensures jobs == PlanFor(answers)
  {
    var g := new Generator();
    g.Prompting(answers);
    FlagsOfTicks(answers, g.State());
    g.Writing();
    jobs := g.jobs;
  }
}
