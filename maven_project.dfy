/** `MavenProjectHandler`: generates a new Maven project from the
    "maven-project" templates. The name parser, the working directory, the
    existing paths and the template renderer are given to it explicitly. */
module MavenProject {
  import opened Common
  import opened Template
  import opened NameParsing

  /** The version every generated project starts with. */
  const DefaultVersion: string := "1.0-SNAPSHOT"

  /** One call of `processTemplates(outputRoot, properties)`. */
  datatype Render = Render(outputRoot: Path, properties: Properties)

  /** The keys `handle` binds before rendering. */
  const ProjectKeys: set<string> :=
    {"java.package", "maven.groupId", "maven.artifactId", "maven.version", "project.name"}

  /** The property set `handle` builds from the parsed name. */
  function ProjectProperties(components: NameComponents): (p: Properties)
    ensures p.entries.Keys == ProjectKeys
    ensures p.Get("java.package") == Some(Text(components.javaPackage))
    ensures p.Get("maven.groupId") == Some(Text(components.javaPackage))
    ensures p.Get("maven.artifactId") == Some(Text(components.name))
    ensures p.Get("maven.version") == Some(Text(DefaultVersion))
    ensures p.Get("project.name") == Some(Text(components.name))
  {
    EmptyBuilder
      .With("java.package", Text(components.javaPackage))
      .With("maven.groupId", Text(components.javaPackage))
      .With("maven.artifactId", Text(components.name))
      .With("maven.version", Text(DefaultVersion))
      .With("project.name", Text(components.name))
      .Build()
  }

  /** The source sets the constructor registers, in registration order. */
  const RegisteredSourceSets: seq<SourceSet> := [
    SourceSet(Some(SourceTemplateFilter("**/*.java")), [JavaPackageProcessor]),
    SourceSet(Some(SourceTemplateFilter("pom.xml")), [MavenProcessor])
  ]

  class MavenProjectHandler {
    /** The injected name parser. */
    const nameParser: NameParser
    /** The source sets inherited from the artifact handler. */
    var sourceSets: seq<SourceSet>

    /** Registers the Java sources with the package processor, then the
        build file with the Maven processor. */
    constructor (parser: NameParser)
      ensures nameParser.validate == parser.validate && nameParser.parse == parser.parse
      ensures sourceSets == RegisteredSourceSets
    {
      nameParser := parser;
      sourceSets := [];
      new;
      var javaSources := NewSourceSet;
      javaSources := javaSources.(includes := Some(SourceTemplateFilter("**/*.java")));
      javaSources := javaSources.(processors := [JavaPackageProcessor]);
      sourceSets := sourceSets + [javaSources];

      var pomSources := NewSourceSet;
      pomSources := pomSources.(includes := Some(SourceTemplateFilter("pom.xml")));
      pomSources := pomSources.(processors := [MavenProcessor]);
      sourceSets := sourceSets + [pomSources];
    }

    /** `validate`: the parser's verdict as an outcome. */
    function Validate(name: string): (r: Outcome)
      ensures r.Succeeded? <==> nameParser.validate(name).valid
      ensures r.Failed? ==> r.code == -1 && r.message == nameParser.validate(name).message
    {
      var validationResult := nameParser.validate(name);
      if !validationResult.valid then Failed(-1, validationResult.message) else Succeeded
    }

    /** `handle`: refuses an output directory that exists; otherwise builds
        the properties and renders the templates into it. `userDir` is the
        working directory and `existing` the paths that exist on disk; the
        renders performed are returned in order. */
    method Handle(name: string, userDir: Path, existing: set<Path>)
      returns (outcome: Outcome, renders: seq<Render>)
      ensures var components := nameParser.parse(name);
              var outputRoot := userDir.Resolve(components.name);
              if outputRoot in existing then
                && outcome == Failed(-1, "Directory '" + components.name + "' already exists")
                && renders == []
              else
                && outcome == Succeeded
                && renders == [Render(outputRoot, ProjectProperties(components))]
    {
      var components := nameParser.parse(name);

      var outputRoot := userDir.Resolve(components.name);
      if outputRoot in existing {
        return Failed(-1, "Directory '" + components.name + "' already exists"), [];
      }

      var properties := ProjectProperties(components);

      renders := [Render(outputRoot, properties)];
      outcome := Succeeded;
    }

    /** `getTemplateNames`: the template files, relative to the template base. */
    function TemplateNames(): (names: seq<string>)
      ensures names == ["src/main/java/example/Application.java",
                        "src/test/java/example/ApplicationTest.java",
                        "pom.xml"]
      ensures |names| == 3
      ensures forall i, j :: 0 <= i < j < |names| ==> names[i] != names[j]
      ensures forall i :: 0 <= i < |names| ==> names[i] != [] && names[i][0] != '/'
    {
      ["src/main/java/example/Application.java",
       "src/test/java/example/ApplicationTest.java",
       "pom.xml"]
    }

    /** `getTemplateBase`: the directory the template names resolve under. */
    function TemplateBase(): (base: string)
      ensures base == "templates/maven-project/"
      ensures base != [] && base[|base| - 1] == '/'
    {
      "templates/maven-project/"
    }
  }

  // ---------------------------------------------------------------------
  // Properties of the handler

  /** The Maven coordinates follow the parsed name: the group id is the Java
      package, the artifact id is the project name, and the version is the
      same for every project. */
  lemma CoordinatesFollowName(c: NameComponents)
    ensures ProjectProperties(c).Get("maven.groupId") == ProjectProperties(c).Get("java.package")
    ensures ProjectProperties(c).Get("maven.artifactId") == ProjectProperties(c).Get("project.name")
  {
  }

  /** The properties depend on the parsed name and package only, and the
      version never depends on the input at all. */
  lemma PropertiesDependOnNameAndPackage(c1: NameComponents, c2: NameComponents)
    ensures c1.name == c2.name && c1.javaPackage == c2.javaPackage ==>
              ProjectProperties(c1) == ProjectProperties(c2)
    ensures ProjectProperties(c1).Get("maven.version") == ProjectProperties(c2).Get("maven.version")
  {
  }
}
