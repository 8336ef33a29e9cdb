/** `MavenAppHandler`: generates a new application module with Maven as its
    build system. Only what its unit test asserts is modelled: the build file
    and build system it reports, and five of the properties it binds. */
module MavenApp {
  import opened Common
  import opened Template
  import opened NameParsing

  /** The keys the application handler is known to bind. */
  const AppKeys: set<string> :=
    {"input.path", "project.mainClass", "output.path", "project.name", "module.name"}

  class MavenAppHandler {
    const buildFileName: string := "pom.xml"
    const buildSystemName: string := "maven"

    /** A new handler targets Maven, whose build file is "pom.xml". */
    constructor ()
      ensures BuildFileName() == "pom.xml" && BuildSystemName() == "maven"
    {
    }

    /** `getBuildFileName`: Maven's build file. */
    function BuildFileName(): (r: string)
      ensures r == "pom.xml"
    {
      buildFileName
    }

    /** `getBuildSystemName`: the build system's name. */
    function BuildSystemName(): (r: string)
      ensures r == "maven"
    {
      buildSystemName
    }

    /** `buildProperties(components, outputRoot, parent)`: the bindings for a
        new application module. The entry-point class is the package's
        `Application` class and the output path is the given root unchanged.
        The parent context is observed only when absent (`null`); the model
        takes the five values to be the same for a present one. */
    function BuildProperties<C>(components: NameComponents, outputRoot: Path, parent: Option<C>): (b: Builder)
      ensures AppKeys <= b.Build().entries.Keys
      ensures b.Build().Get("input.path") == Some(Text("templates/maven-app/"))
      ensures b.Build().Get("project.mainClass") == Some(Text(components.javaPackage + ".Application"))
      ensures b.Build().Get("output.path") == Some(PathValue(outputRoot))
      ensures b.Build().Get("project.name") == Some(Text(components.name))
      ensures b.Build().Get("module.name") == Some(Text("Application"))
    {
      EmptyBuilder
        .With("input.path", Text("templates/maven-app/"))
        .With("project.mainClass", Text(components.javaPackage + ".Application"))
        .With("output.path", PathValue(outputRoot))
        .With("project.name", Text(components.name))
        .With("module.name", Text("Application"))
    }
  }

  /** The main class names the Java package, then `.Application`: the package
      can be read back from it. */
  lemma MainClassNamesPackage<C>(h: MavenAppHandler, components: NameComponents, outputRoot: Path, parent: Option<C>)
    ensures var v := h.BuildProperties(components, outputRoot, parent).Build().Get("project.mainClass");
            && v.Some? && v.value.Text?
            && |v.value.text| == |components.javaPackage| + |".Application"|
            && v.value.text[..|components.javaPackage|] == components.javaPackage
            && v.value.text[|components.javaPackage|..] == ".Application"
  {
    var s := components.javaPackage + ".Application";
    assert s[..|components.javaPackage|] == components.javaPackage;
    assert s[|components.javaPackage|..] == ".Application";
  }

  /** The scenario of the handler's unit test: package "testJavaPackage",
      name "testName", output root test/output/path, no parent context. */
  lemma TestScenario(h: MavenAppHandler)
    ensures var outputRoot := Path(["test", "output", "path"]);
            var p := h.BuildProperties<Outcome>(NameComponents("testJavaPackage", "testName", "test"), outputRoot, None).Build();
            && p.Get("input.path") == Some(Text("templates/maven-app/"))
            && p.Get("project.mainClass") == Some(Text("testJavaPackage.Application"))
            && p.Get("output.path") == Some(PathValue(outputRoot))
            && p.Get("project.name") == Some(Text("testName"))
            && p.Get("module.name") == Some(Text("Application"))
  {
    assert "testJavaPackage" + ".Application" == "testJavaPackage.Application";
  }
}
