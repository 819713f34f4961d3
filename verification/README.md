# springboot-restapi-generator, modelled in Dafny

This project models the core of the Yeoman generator `generators/app/index.js`. That file scaffolds a Spring Boot REST API project. It covers two steps:

- **`prompting`.** The `.then` callback of the prompts stores the answer record on the generator object. It also derives one boolean flag per checkbox option through the membership helpers `hasPackagingType`, `hasNoSql`, `hasDb` and `hasCloud` (each is `list.indexOf(option) !== -1`).
- **`writing`.** It turns the package name into a folder (`packageName.replace(/\./g, '/')`) and computes the directory prefixes. It then issues an ordered sequence of `copyTpl`/`copy` jobs:
  - the build manifest chosen by `buildTool[0]`;
  - eight Java sources;
  - the Dockerfile and the entry point script;
  - exactly one of `bootstrap.yml` and `application.yml`;
  - three Docker scripts and `.gitignore`.

Modules, one per concern of the source:

- `Answers` (`answers.dfy`): the answer record, `indexOf`, the four membership helpers and the flags they produce.
- `Paths` (`paths.dfy`): the package folder and the six directory prefixes of `writing`.
- `ObjectLiterals` (`object_literal.dfy`): the substitution contexts are JavaScript object literals. The manifest contexts write the key `usesSpringCloud` twice, so this module models literals with duplicate keys, where the later value wins.
- `Emission` (`plan.dfy`): a `Job` is one template request (template name, destination, context). `Plan` is the ordered job list of one run of `writing`.
- `PlanProperties` (`plan_properties.dfy`): what every plan guarantees: its shape and order, the two mutually exclusive pairs, where the files land and which context each template gets.
- `App` (`generator.dfy`): the generator as a class. Its fields are the ones `prompting` assigns and `writing` reads. The `jobs` field records the requests made to the in-memory file system. `Prompting` and `Writing` are proved against `DeriveFlags` and `Plan`. `Run` (prompting, then writing, on a fresh object) yields exactly `PlanFor(answers)`.
- `Scenarios` (`scenarios.dfy`): concrete runs with project `app` and package `com.myapp`.

## Model

| member | source | states |
|---|---|---|
| Answers.IndexOf | generators/app/index.js:178-180 | the result is -1 exactly when the value is absent; otherwise it is the first index holding the value |
| Answers.Selected | generators/app/index.js:178-180 | `list.indexOf(option) !== -1` holds exactly when the option is in the list |
| Answers.HasPackagingType | generators/app/index.js:178-180 | `hasPackagingType(pt)` holds exactly when `pt` was ticked for packaging |
| Answers.HasNoSql | generators/app/index.js:186-188 | `hasNoSql(starter)` holds exactly when the starter was ticked for NoSQL |
| Answers.HasDb | generators/app/index.js:194-196 | `hasDb(starter)` holds exactly when the starter was ticked for databases |
| Answers.HasCloud | generators/app/index.js:202-204 | `hasCloud(starter)` holds exactly when the starter was ticked for Spring Cloud |
| Answers.DeriveFlags | generators/app/index.js:166-209 | each of the fifteen flags is true iff its option value is among the ticked values of its question; the string answers and `buildTool` pass through unchanged |
| Answers.FlagsOfTicks | generators/app/index.js:166-209 | any flag record satisfying those membership facts and pass-throughs is `DeriveFlags` of the answers (the derivation is determined by them) |
| Answers.FlagsDependOnlyOnTickedSets | generators/app/index.js:178-209 | reordering or repeating ticks in the packaging, db, nosql or cloud answers changes no flag |
| Answers.JarAndWarTogether | generators/app/index.js:178-182 | ticking both packaging types sets both `jar` and `war`; nothing makes them exclusive |
| Paths.PackageFolder | generators/app/index.js:215 | the folder form has the same length as the package name |
| Paths.PackageFolderReplacesDots | generators/app/index.js:215 | every dot becomes a slash and every other character is kept in place; the result has no dot; a name without dots is its own folder |
| Paths.PackageFolderAppend | generators/app/index.js:215 | the replacement distributes over concatenation |
| Paths.PackageFolderOfSegments | generators/app/index.js:215 | a dotted identifier `a.b.c` with dot-free segments becomes `a/b/c`; a one-segment name stays as it is |
| Paths.MakeLayout | generators/app/index.js:215-222 | the source, test and resource prefixes lie under `baseName/`; the controller, api and configuration prefixes extend the source prefix |
| ObjectLiterals.ObjectLiteral | generators/app/index.js:228-252 | the object a literal evaluates to; specified by `LiteralKeysAndValues`, `LastOccurrenceWins`, `LastWrite`, `ShadowedPropertyIsDead` |
| ObjectLiterals.LiteralKeysAndValues | generators/app/index.js:228-252 | the object holds exactly the keys written in the literal, each with a value written for it |
| ObjectLiterals.LastOccurrenceWins | generators/app/index.js:228-252 | a key holds the value of its last occurrence in the literal |
| ObjectLiterals.LastWrite | generators/app/index.js:228-252 | conversely, every value the object holds comes from the last occurrence of its key |
| ObjectLiterals.ShadowedPropertyIsDead | generators/app/index.js:228-252 | removing a property that is written again later leaves the object unchanged |
| Emission.FirstIs | generators/app/index.js:224-285 | `tool === buildTool[0]`, false on an empty list; specified by `ManifestRule` and `OnlyFirstBuildToolCounts` |
| Emission.GradleProperties | generators/app/index.js:228-252 | the `build.gradle` context literal, property by property; specified by `ManifestPropertiesHold`, `UsesSpringCloudIsTrue`, `ShadowedUsesSpringCloudIsDead`, `OnlyShadowedIsUndefined` |
| Emission.MavenProperties | generators/app/index.js:259-283 | the `pom.xml` context literal; specified by `ManifestContextsAgree` (the same object as the gradle one) |
| Emission.ManifestJobs | generators/app/index.js:224-285 | the two guarded manifest jobs; specified by `ManifestJobsTemplates`, `ManifestRule`, `ManifestJobsContexts`, `ManifestJobsPlaced`, `ManifestJobsFolders` |
| Emission.LeadingJobs | generators/app/index.js:286-352 | the Java sources, the Dockerfile and entrypoint.sh; specified by `LeadingJobsTemplates`, `LeadingJobsContexts`, `LeadingJobsPlaced`, `LeadingJobsFolders` |
| Emission.YmlJob | generators/app/index.js:353-369 | the single yml job; specified by `YmlRule`, `YmlJobShape`, `YmlJobContext`, `YmlJobFolder` |
| Emission.TrailingJobs | generators/app/index.js:370-395 | the three scripts and .gitignore; specified by `TrailingJobsTemplates`, `TrailingJobsContexts`, `TrailingJobsPlaced`, `TrailingJobsFolders` |
| Emission.LayoutOf | generators/app/index.js:215-222 | the folders of a run, computed once from `baseName` and `packageName`; specified by `MakeLayout` |
| Emission.Plan | generators/app/index.js:213-396 | the jobs of one run of `writing`, in order; specified by `PlanTemplates`, `PlanShape`, `ManifestRule`, `YmlRule`, `ContextsByTemplate`, `DestinationsUnderBase`, `FoldersByTemplate`, `KeyFilesEmitted` |
| Emission.PlanFor | generators/app/index.js:166-396 | the plan for an answer record; specified by `Run`, which reaches it through `Prompting` and `Writing` |
| Emission.Templates | generators/app/index.js:224-395 | the template names of a job list, position by position |
| Emission.Destinations | generators/app/index.js:224-395 | the destination paths of a job list, position by position |
| PlanProperties.PlanTemplates | generators/app/index.js:224-395 | the templates of a run are: the manifest (if any), the eight Java sources, Dockerfile and entrypoint.sh, one yml file, then build.sh, run.sh, push.sh and .gitignore |
| PlanProperties.ManifestJobsTemplates | generators/app/index.js:224-285 | the manifest section emits `build.gradle` when `buildTool[0]` is gradle, `pom.xml` when it is maven, and nothing otherwise |
| PlanProperties.LeadingJobsTemplates | generators/app/index.js:286-352 | the ten jobs after the manifest, in source order |
| PlanProperties.TrailingJobsTemplates | generators/app/index.js:370-395 | the four jobs after the yml file, in source order |
| PlanProperties.PlanShape | generators/app/index.js:224-395 | a run issues 15 jobs, or 16 when `buildTool[0]` names gradle or maven; the manifest comes first, and the yml file sits at position 10 or 11 |
| PlanProperties.FixedTemplatesAreOrdinary | generators/app/index.js:286-395 | no unconditional job is a manifest or a yml file |
| PlanProperties.ManifestRule | generators/app/index.js:224-285 | `build.gradle` is emitted iff `buildTool[0]` is "gradle", and `pom.xml` iff it is "maven"; never both; neither, with no error, when no build tool is ticked |
| PlanProperties.OnlyFirstBuildToolCounts | generators/app/index.js:224-285 | build tools after the first do not change the plan |
| PlanProperties.YmlRule | generators/app/index.js:353-369 | `bootstrap.yml` is emitted iff the config client is ticked, and `application.yml` iff it is not |
| PlanProperties.YmlJobShape | generators/app/index.js:353-369 | the yml job renders the chosen yml template into `baseName/src/main/resources/` with the context `{baseName}` |
| PlanProperties.ShadowedUsesSpringCloudIsDead | generators/app/index.js:235-250 | the first `usesSpringCloud` property (the never-assigned field) has no effect on the manifest context |
| PlanProperties.UsesSpringCloudIsTrue | generators/app/index.js:235-250 | the manifest context maps `usesSpringCloud` to `true` for every answer record |
| PlanProperties.ManifestPropertiesHold | generators/app/index.js:228-252 | every other manifest property holds the flag or answer written for it |
| PlanProperties.ManifestContextDefined | generators/app/index.js:228-252 | no key of the manifest context is `undefined` |
| PlanProperties.OnlyShadowedIsUndefined | generators/app/index.js:235 | the shadowed `usesSpringCloud` is the only property of the literal written as `undefined` |
| PlanProperties.ManifestContextsAgree | generators/app/index.js:228-283 | the gradle and maven manifests are rendered with the same object |
| PlanProperties.PlanParts | generators/app/index.js:224-395 | every job of a run comes from the manifest, source, yml or script section |
| PlanProperties.KeyFilesEmitted | generators/app/index.js:224-369 | the manifest of the first build tool is written at the top of the output folder, `Application.java` into the source folder, and the yml file into the resources folder |
| PlanProperties.ManifestJobsPlaced | generators/app/index.js:224-285 | each manifest is written at the top of the output folder: its destination is `baseName + "/" + template` |
| PlanProperties.LeadingJobsPlaced | generators/app/index.js:286-352 | each of the ten leading destinations lies under `baseName/` and ends with its template name (the exact folders are stated by `LeadingJobsFolders`) |
| PlanProperties.JavaSourcesPlaced | generators/app/index.js:286-341 | each Java source is written into a prefix that lies under `baseName/` |
| PlanProperties.DockerFilesPlaced | generators/app/index.js:342-352 | the Dockerfile and entrypoint.sh are written at the top of the output folder: each destination is `baseName + "/" + template` |
| PlanProperties.TrailingJobsPlaced | generators/app/index.js:370-395 | the scripts and .gitignore are written at the top of the output folder: each destination is `baseName + "/" + template` |
| PlanProperties.DestinationsUnderBase | generators/app/index.js:213-395 | every destination of a run lies under `baseName/` and ends with the name of its template |
| PlanProperties.TopLevelFolder | generators/app/index.js:224-395 | the manifests, the Docker files, the scripts and .gitignore belong at the top of the output folder |
| PlanProperties.ManifestJobsFolders | generators/app/index.js:224-285 | a manifest is written into the folder its template calls for |
| PlanProperties.LeadingJobsFolders | generators/app/index.js:286-352 | `Application.java` and `RFC3339DateFormat.java` go into the source folder, `ApplicationTests.java` into the test folder, the three api classes into the api folder, the Swagger configuration into the configuration folder, `HomeController.java` into the controller folder, the Docker files at the top |
| PlanProperties.YmlJobFolder | generators/app/index.js:353-369 | the yml file is written into the resources folder |
| PlanProperties.TrailingJobsFolders | generators/app/index.js:370-395 | the scripts and .gitignore are written at the top of the output folder |
| PlanProperties.FoldersByTemplate | generators/app/index.js:213-395 | every job of a run is written into the folder its template calls for (`FolderFor`), under the template's own name |
| PlanProperties.ManifestJobsContexts | generators/app/index.js:224-285 | a manifest is rendered with the full manifest context |
| PlanProperties.LeadingJobsContexts | generators/app/index.js:286-352 | the Java sources get `{packageName}`, the Dockerfile gets `{baseName}`, and entrypoint.sh is copied verbatim |
| PlanProperties.YmlJobContext | generators/app/index.js:353-369 | the yml file gets `{baseName}` |
| PlanProperties.TrailingJobsContexts | generators/app/index.js:370-395 | build.sh and run.sh get `{imageName}`, push.sh gets `{imageName, registry}`, and .gitignore is copied verbatim |
| PlanProperties.ContextsByTemplate | generators/app/index.js:224-395 | every job of a run is rendered with the context its template calls for, and no other template is emitted |
| App.Generator.constructor | generators/app/index.js:7 | a fresh generator (the class has no constructor of its own) has requested no jobs |
| App.Generator.Prompting | generators/app/index.js:166-209 | stores the answer record, and the string answers and `buildTool` unchanged (`AnswersStored`); each flag field holds "option ticked" (`TicksStored`); requests no job. `Run` turns these facts into `State() == DeriveFlags(answers)` through `FlagsOfTicks` |
| App.Generator.StoreAnswers | generators/app/index.js:168-184 | the answer record, the string answers and `buildTool` are stored unchanged |
| App.Generator.StoreFlags | generators/app/index.js:178-209 | the fifteen flag fields hold "option ticked" |
| App.Generator.StorePackagingType | generators/app/index.js:178-182 | `jar` and `war` hold "option ticked" |
| App.Generator.StoreNoSql | generators/app/index.js:186-192 | `es`, `mongo`, `redis` and `cassandra` hold "option ticked" |
| App.Generator.StoreDb | generators/app/index.js:194-200 | `mssql`, `mysql`, `jdbc` and `jpa` hold "option ticked" |
| App.Generator.StoreCloud | generators/app/index.js:202-209 | the five Spring Cloud flags hold "option ticked" |
| App.Generator.Writing | generators/app/index.js:213-396 | appends exactly `Plan` of the fields as they were, and changes no other field |
| App.Generator.WriteManifest | generators/app/index.js:224-285 | appends the manifest jobs of the two guarded calls |
| App.Generator.WriteSources | generators/app/index.js:286-352 | appends the Java sources, the Dockerfile and entrypoint.sh, in order |
| App.Generator.WriteConfig | generators/app/index.js:353-369 | appends the single yml job |
| App.Generator.WriteScripts | generators/app/index.js:370-395 | appends the three scripts and .gitignore, in order |
| App.Run | generators/app/index.js:166-396 | prompting and then writing on a fresh generator request exactly `PlanFor(answers)` |
| Scenarios.ComMyappFolder | generators/app/index.js:215 | `com.myapp` becomes `com/myapp` |
| Scenarios.ComMyappLayout | generators/app/index.js:215-222 | for `app` and `com.myapp`, the source, test, controller and resource prefixes are spelled out |
| Scenarios.MavenApplication | generators/app/index.js:255-369 | maven, `app`, `com.myapp`, no cloud starter: `app/pom.xml`, `app/src/main/java/com/myapp/Application.java` and `app/src/main/resources/application.yml` are written; `build.gradle` and `bootstrap.yml` are not |
| Scenarios.ConfigClientBootstrap | generators/app/index.js:353-369 | the same run with the config client ticked writes `app/src/main/resources/bootstrap.yml` and no `application.yml` |
| Scenarios.MavenBeforeGradle | generators/app/index.js:224-285 | with `["maven", "gradle"]` only `pom.xml` is written, and the run has 16 jobs |
| Scenarios.NoBuildTool | generators/app/index.js:224-285 | with no build tool ticked the run has 15 jobs and no manifest |

## Left out

- The greeting (`yosay`, `chalk`), the prompt questions, their defaults and choice lists. Answers enter the model as an `AnswerRecord` value.
- `mkdirp(this.baseName)` (index.js:214): it creates a directory and adds nothing to the job list.
- `templatePath`/`destinationPath` resolution and template rendering. A job records the template name, the destination relative to the invocation directory, and the context.
- The Yeoman run loop and the promise returned by `prompting`: `Run` calls the two steps in sequence.
- File system failures (a missing template, an unwritable destination), which abort a run in the source. The model assumes every request succeeds.
- The commented-out `install` step.
- App.Generator.constructor: JavaScript leaves the fields `undefined` until `prompting` runs. The model starts them at empty values, which nothing reads before `Prompting`.
- App.Generator.Writing: the source reads the fields as it goes. The model reads them once up front, which is equivalent because `writing` assigns none of them.
- App.Generator.Prompting: `buildTool` is stored with the other answers, before the flags; the source stores it between `war` and `es`. No field depends on another, so the final state is the same. The postcondition states the stored values field by field; `State() == DeriveFlags(answers)` is drawn from it by `FlagsOfTicks` in `Run`, because stating the record equality on the object directly is beyond the solver budget.
