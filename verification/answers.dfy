/**
 * The answer record collected by the generator's prompts and the feature
 * flags derived from it (the `.then` callback of `prompting`).
 *
 * Checkbox answers are arrays of option values, in the order the prompt
 * returns them; membership is decided by JavaScript's `Array.prototype.indexOf`,
 * modelled here by `IndexOf`.
 */
module Answers {

  /** The record the prompt library hands to the `.then` callback. */
  datatype AnswerRecord = AnswerRecord(
    bootVersion: string,
    springCloudVersion: string,
    springFoxVersion: string,
    packageName: string,
    baseName: string,
    javaVersion: string,
    packagingType: seq<string>,  // checkbox: "jar", "war"
    buildTool: seq<string>,      // checkbox: "gradle", "maven"
    db: seq<string>,             // checkbox: "jdbc", "jpa", "mysql", "mssql"
    nosql: seq<string>,          // checkbox: "redis", "elasticsearch", "mongo", "cassandra"
    cloud: seq<string>,          // checkbox: "configclient", "eureka", "hystrix", "ribbon", "zipkin"
    imageName: string,
    registry: string
  )

  /**
   * What `prompting` leaves on `this` for `writing` to read: the string
   * answers unchanged, the build-tool answer unchanged, and one boolean per
   * checkbox option the templates care about.
   */
  datatype Flags = Flags(
    bootVersion: string,
    springCloudVersion: string,
    springFoxVersion: string,
    packageName: string,
    baseName: string,
    javaVersion: string,
    registry: string,
    imageName: string,
    jar: bool,
    war: bool,
    buildTool: seq<string>,
    es: bool,
    mongo: bool,
    redis: bool,
    cassandra: bool,
    mssql: bool,
    mysql: bool,
    jdbc: bool,
    jpa: bool,
    configClient: bool,
    eureka: bool,
    hystrix: bool,
    zipkin: bool,
    ribbon: bool
  )

  /**
   * `list.indexOf(x)`: the first index holding `x`, or -1 when there is none
   * (strict equality, which on strings is equality of contents).
   */
  function IndexOf(list: seq<string>, x: string): (r: int)
    ensures -1 <= r < |list|
    ensures r == -1 <==> x !in list
    ensures 0 <= r ==> list[r] == x && x !in list[..r]
  {
    if list == [] then -1
    else if list[0] == x then 0
    else
      var k := IndexOf(list[1..], x);
      if k == -1 then -1
      else
        assert list[..k + 1] == [list[0]] + list[1..][..k];
        k + 1
  }

  /**
   * `list.indexOf(option) !== -1`, the body shared by the four membership
   * helpers: the option is among the ticked values, wherever and however
   * often it occurs.
   */
  predicate Selected(list: seq<string>, option: string)
    ensures Selected(list, option) <==> option in list
  {
    IndexOf(list, option) != -1
  }

  /** `hasPackagingType(pt)`. */
  predicate HasPackagingType(props: AnswerRecord, pt: string)
    ensures HasPackagingType(props, pt) <==> pt in props.packagingType
  {
    Selected(props.packagingType, pt)
  }

  /** `hasNoSql(starter)`. */
  predicate HasNoSql(props: AnswerRecord, starter: string)
    ensures HasNoSql(props, starter) <==> starter in props.nosql
  {
    Selected(props.nosql, starter)
  }

  /** `hasDb(starter)`. */
  predicate HasDb(props: AnswerRecord, starter: string)
    ensures HasDb(props, starter) <==> starter in props.db
  {
    Selected(props.db, starter)
  }

  /** `hasCloud(starter)`. */
  predicate HasCloud(props: AnswerRecord, starter: string)
    ensures HasCloud(props, starter) <==> starter in props.cloud
  {
    Selected(props.cloud, starter)
  }

  /**
   * The flags `prompting` assigns. Every boolean is exactly "its option value
   * was ticked"; every string answer passes through.
   */
  function DeriveFlags(props: AnswerRecord): (f: Flags)
    ensures f.jar <==> "jar" in props.packagingType
    ensures f.war <==> "war" in props.packagingType
    ensures f.es <==> "elasticsearch" in props.nosql
    ensures f.mongo <==> "mongo" in props.nosql
    ensures f.redis <==> "redis" in props.nosql
    ensures f.cassandra <==> "cassandra" in props.nosql
    ensures f.mssql <==> "mssql" in props.db
    ensures f.mysql <==> "mysql" in props.db
    ensures f.jdbc <==> "jdbc" in props.db
    ensures f.jpa <==> "jpa" in props.db
    ensures f.configClient <==> "configclient" in props.cloud
    ensures f.eureka <==> "eureka" in props.cloud
    ensures f.hystrix <==> "hystrix" in props.cloud
    ensures f.zipkin <==> "zipkin" in props.cloud
    ensures f.ribbon <==> "ribbon" in props.cloud
    ensures f.buildTool == props.buildTool
    ensures f.packageName == props.packageName && f.baseName == props.baseName
    ensures f.bootVersion == props.bootVersion && f.springCloudVersion == props.springCloudVersion
    ensures f.springFoxVersion == props.springFoxVersion && f.javaVersion == props.javaVersion
    ensures f.registry == props.registry && f.imageName == props.imageName
  {
    Flags(
      bootVersion := props.bootVersion,
      springCloudVersion := props.springCloudVersion,
      springFoxVersion := props.springFoxVersion,
      packageName := props.packageName,
      baseName := props.baseName,
      javaVersion := props.javaVersion,
      registry := props.registry,
      imageName := props.imageName,
      jar := HasPackagingType(props, "jar"),
      war := HasPackagingType(props, "war"),
      buildTool := props.buildTool,
      es := HasNoSql(props, "elasticsearch"),
      mongo := HasNoSql(props, "mongo"),
      redis := HasNoSql(props, "redis"),
      cassandra := HasNoSql(props, "cassandra"),
      mssql := HasDb(props, "mssql"),
      mysql := HasDb(props, "mysql"),
      jdbc := HasDb(props, "jdbc"),
      jpa := HasDb(props, "jpa"),
      configClient := HasCloud(props, "configclient"),
      eureka := HasCloud(props, "eureka"),
      hystrix := HasCloud(props, "hystrix"),
      zipkin := HasCloud(props, "zipkin"),
      ribbon := HasCloud(props, "ribbon")
    )
  }

  /**
   * The membership facts determine the flags: any record whose booleans are
   * "option ticked" and whose strings are the answers is `DeriveFlags(props)`.
   */
  lemma FlagsOfTicks(props: AnswerRecord, f: Flags)
    requires f.jar <==> "jar" in props.packagingType
    requires f.war <==> "war" in props.packagingType
    requires f.es <==> "elasticsearch" in props.nosql
    requires f.mongo <==> "mongo" in props.nosql
    requires f.redis <==> "redis" in props.nosql
    requires f.cassandra <==> "cassandra" in props.nosql
    requires f.mssql <==> "mssql" in props.db
    requires f.mysql <==> "mysql" in props.db
    requires f.jdbc <==> "jdbc" in props.db
    requires f.jpa <==> "jpa" in props.db
    requires f.configClient <==> "configclient" in props.cloud
    requires f.eureka <==> "eureka" in props.cloud
    requires f.hystrix <==> "hystrix" in props.cloud
    requires f.zipkin <==> "zipkin" in props.cloud
    requires f.ribbon <==> "ribbon" in props.cloud
    requires f.buildTool == props.buildTool
    requires f.packageName == props.packageName && f.baseName == props.baseName
    requires f.bootVersion == props.bootVersion && f.springCloudVersion == props.springCloudVersion
    requires f.springFoxVersion == props.springFoxVersion && f.javaVersion == props.javaVersion
    requires f.registry == props.registry && f.imageName == props.imageName
    ensures f == DeriveFlags(props)
  {
  }

  /** The set of option values ticked in a checkbox answer. */
  function Ticked(list: seq<string>): set<string> {
    set x | x in list
  }

  /** The flags with the one order-sensitive answer, `buildTool`, blanked out. */
  function WithoutBuildTool(f: Flags): Flags {
    f.(buildTool := [])
  }

  /**
   * Reordering or repeating ticks in any checkbox answer other than
   * `buildTool` changes no flag: only the set of ticked values matters.
   */
  lemma FlagsDependOnlyOnTickedSets(a: AnswerRecord, b: AnswerRecord)
    requires a.bootVersion == b.bootVersion && a.springCloudVersion == b.springCloudVersion
    requires a.springFoxVersion == b.springFoxVersion && a.packageName == b.packageName
    requires a.baseName == b.baseName && a.javaVersion == b.javaVersion
    requires a.imageName == b.imageName && a.registry == b.registry
    requires Ticked(a.packagingType) == Ticked(b.packagingType)
    requires Ticked(a.db) == Ticked(b.db)
    requires Ticked(a.nosql) == Ticked(b.nosql)
    requires Ticked(a.cloud) == Ticked(b.cloud)
    ensures WithoutBuildTool(DeriveFlags(a)) == WithoutBuildTool(DeriveFlags(b))
  {
    forall opt: string
      ensures (opt in a.packagingType <==> opt in b.packagingType)
      ensures (opt in a.db <==> opt in b.db)
      ensures (opt in a.nosql <==> opt in b.nosql)
      ensures (opt in a.cloud <==> opt in b.cloud)
    {
      assert opt in a.packagingType <==> opt in Ticked(a.packagingType);
      assert opt in b.packagingType <==> opt in Ticked(b.packagingType);
      assert opt in a.db <==> opt in Ticked(a.db);
      assert opt in b.db <==> opt in Ticked(b.db);
      assert opt in a.nosql <==> opt in Ticked(a.nosql);
      assert opt in b.nosql <==> opt in Ticked(b.nosql);
      assert opt in a.cloud <==> opt in Ticked(a.cloud);
      assert opt in b.cloud <==> opt in Ticked(b.cloud);
    }
  }

  /** Both packaging flags can be set at once: nothing makes the choice exclusive. */
  lemma JarAndWarTogether(props: AnswerRecord)
    requires "jar" in props.packagingType && "war" in props.packagingType
    ensures DeriveFlags(props).jar && DeriveFlags(props).war
  {
  }
}
