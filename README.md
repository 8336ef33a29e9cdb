# bootique-tool scaffolding core, modelled in Dafny

This project models three pieces of the Bootique shell's project-scaffolding
logic:

- `ArtifactType.byName`, which resolves a free-text token such as `app` or
  `mod` to one of the artifact kinds `APP` and `MODULE` by case-insensitive
  exact-or-prefix match, first declared member first;
- `MavenProjectHandler`, which validates a project name through the name
  parser, refuses an output directory that already exists, binds the five
  Maven project properties and renders the `templates/maven-project/`
  templates, and whose constructor registers two source sets (Java sources
  with the package processor, `pom.xml` with the Maven processor);
- `MavenAppHandler`, as far as its unit test pins it down: the build file and
  build system it reports, and five of the properties `buildProperties` binds.

Modules: `Common` (optional values, command outcomes, paths), `Template`
(property sets and their builder, source sets, filter and processor tags),
`NameParsing` (the name parser as a pair of functions), `ArtifactTypes`,
`MavenProject` and `MavenApp`.

Collaborators are inputs: the name parser is a value holding its `validate`
and `parse` functions; `System.getProperty("user.dir")` is the `userDir`
parameter of `Handle`; `Files.exists` is membership in the `existing` set of
paths; each call of `processTemplates` is recorded as a `Render` value that
`Handle` returns.

## Model

| member | source | states |
|---|---|---|
| `ArtifactTypes.ByName` | src/main/java/io/bootique/tools/shell/ArtifactType.java:7-16 | the loop over the members returns the first member, in declaration order, whose name equals or starts with the upper-cased token; it returns absent exactly when no member matches |
| `ArtifactTypes.FirstMatchFrom` | src/main/java/io/bootique/tools/shell/ArtifactType.java:9-15 | from a given position on, the result is a matching member with no matching member before it, and absent exactly when none of the remaining members matches |
| `ArtifactTypes.ToUpperCase` | src/main/java/io/bootique/tools/shell/ArtifactType.java:8 | upper-casing keeps the length and maps every character through ASCII upper-casing |
| `ArtifactTypes.Ordinal` | src/main/java/io/bootique/tools/shell/ArtifactType.java:3-5 | each member sits at its ordinal in the declaration-order list of members |
| `ArtifactTypes.Matches` | src/main/java/io/bootique/tools/shell/ArtifactType.java:10-11 | the equality test is implied by the startsWith test, so a member matches exactly when the token is a prefix of its name |
| `ArtifactTypes.Resolve` | src/main/java/io/bootique/tools/shell/ArtifactType.java:7-16 | the value byName returns: a matching member with no matching member declared before it, or absent exactly when no member matches the upper-cased token |
| `ArtifactTypes.ResolveCharacterized` | src/main/java/io/bootique/tools/shell/ArtifactType.java:8-15 | the lookup gives APP exactly when the upper-cased token is a prefix of "APP", MODULE exactly when it is a non-empty prefix of "MODULE", and absent exactly when it is a prefix of neither |
| `ArtifactTypes.ExactNameResolves` | src/main/java/io/bootique/tools/shell/ArtifactType.java:10 | a member's exact name in any letter case resolves to that member |
| `ArtifactTypes.NonEmptyPrefixResolves` | src/main/java/io/bootique/tools/shell/ArtifactType.java:11 | any non-empty prefix of a member's name, in any letter case, resolves to that member |
| `ArtifactTypes.EmptyResolvesToApp` | src/main/java/io/bootique/tools/shell/ArtifactType.java:4-12 | the empty token resolves to APP, the first declared member |
| `ArtifactTypes.AbsentIffNoPrefix` | src/main/java/io/bootique/tools/shell/ArtifactType.java:9-15 | the lookup is absent exactly when the upper-cased token is a prefix of no member's name |
| `ArtifactTypes.CaseInsensitive` | src/main/java/io/bootique/tools/shell/ArtifactType.java:8 | two tokens that differ only in the case of ASCII letters resolve to the same result |
| `ArtifactTypes.ToUpperCaseNormalizes` | src/main/java/io/bootique/tools/shell/ArtifactType.java:8 | the upper-cased token holds no lower-case ASCII letter, and upper-casing it again changes nothing |
| `ArtifactTypes.ExamplesExactNames` | src/main/java/io/bootique/tools/shell/ArtifactType.java:10 | "module" resolves to MODULE and "App" to APP |
| `ArtifactTypes.ExamplesPrefixes` | src/main/java/io/bootique/tools/shell/ArtifactType.java:11 | "a" resolves to APP and "mod" to MODULE |
| `ArtifactTypes.ExamplesAbsent` | src/main/java/io/bootique/tools/shell/ArtifactType.java:9-15 | "appx" and "nonexistent" resolve to absent |
| `Common.Path.Resolve` | src/main/java/io/bootique/tools/shell/artifact/MavenProjectHandler.java:57 | resolving the parsed name against the working directory gives the directory itself for an empty name, and otherwise keeps its segments and appends the name as the last segment |
| `Template.Builder.With` | src/main/java/io/bootique/tools/shell/artifact/MavenProjectHandler.java:62-67 | a chained `with` binds the key to the value, keeps every other binding, and replaces an earlier binding of the same key |
| `Template.Builder.Build` | src/main/java/io/bootique/tools/shell/artifact/MavenProjectHandler.java:68 | `build()` gives a property set holding exactly the accumulated bindings |
| `Template.Properties.Get` | bootique-tool/src/test/java/io/bootique/tools/shell/content/MavenAppHandlerTest.java:60-69 | `get` is present exactly when the key is bound, and then gives its value; an unbound key is absent |
| `MavenProject.MavenProjectHandler.constructor` | src/main/java/io/bootique/tools/shell/artifact/MavenProjectHandler.java:28-42 | exactly two source sets are registered, in order: filter "**/*.java" with the Java package processor, then filter "pom.xml" with the Maven processor |
| `MavenProject.MavenProjectHandler.Validate` | src/main/java/io/bootique/tools/shell/artifact/MavenProjectHandler.java:45-51 | the outcome is a success exactly when the parser finds the name valid; otherwise it is a failure with code -1 and the parser's message unchanged |
| `MavenProject.MavenProjectHandler.Handle` | src/main/java/io/bootique/tools/shell/artifact/MavenProjectHandler.java:54-75 | the output root is the working directory resolved with the parsed name; when it exists the outcome is failure -1 with "Directory '<name>' already exists" and nothing is rendered; otherwise the templates are rendered once, into that root with the project properties, and the outcome is a success |
| `MavenProject.ProjectProperties` | src/main/java/io/bootique/tools/shell/artifact/MavenProjectHandler.java:62-68 | the property set has exactly the keys java.package, maven.groupId, maven.artifactId, maven.version and project.name, bound to the package, the package, the name, "1.0-SNAPSHOT" and the name |
| `MavenProject.CoordinatesFollowName` | src/main/java/io/bootique/tools/shell/artifact/MavenProjectHandler.java:63-67 | the group id always equals the Java package and the artifact id always equals the project name |
| `MavenProject.PropertiesDependOnNameAndPackage` | src/main/java/io/bootique/tools/shell/artifact/MavenProjectHandler.java:62-68 | the properties are determined by the parsed name and package alone, and the version is the same whatever the input |
| `MavenProject.MavenProjectHandler.TemplateNames` | src/main/java/io/bootique/tools/shell/artifact/MavenProjectHandler.java:78-84 | the template files are exactly "src/main/java/example/Application.java", "src/test/java/example/ApplicationTest.java" and "pom.xml", in that order; they are pairwise distinct and each is a non-empty path relative to the template base |
| `MavenProject.MavenProjectHandler.TemplateBase` | src/main/java/io/bootique/tools/shell/artifact/MavenProjectHandler.java:87-89 | the template base is "templates/maven-project/", a directory prefix ending in "/" |
| `MavenApp.MavenAppHandler.constructor` | bootique-tool/src/test/java/io/bootique/tools/shell/content/MavenAppHandlerTest.java:44-49 | a new handler reports build file "pom.xml" and build system "maven" |
| `MavenApp.MavenAppHandler.BuildProperties` | bootique-tool/src/test/java/io/bootique/tools/shell/content/MavenAppHandlerTest.java:58-69 | for every components and output root (a parent context is observed only when absent), the built set binds input.path to "templates/maven-app/", project.mainClass to the package followed by ".Application", output.path to the given root, project.name to the name and module.name to "Application" |
| `MavenApp.MavenAppHandler.BuildFileName` | bootique-tool/src/test/java/io/bootique/tools/shell/content/MavenAppHandlerTest.java:47 | the handler's build file is "pom.xml" |
| `MavenApp.MavenAppHandler.BuildSystemName` | bootique-tool/src/test/java/io/bootique/tools/shell/content/MavenAppHandlerTest.java:48 | the handler's build system is "maven" |
| `MavenApp.MainClassNamesPackage` | bootique-tool/src/test/java/io/bootique/tools/shell/content/MavenAppHandlerTest.java:62-63 | the main class consists of the Java package followed by ".Application", so the package is recovered from its prefix |
| `MavenApp.TestScenario` | bootique-tool/src/test/java/io/bootique/tools/shell/content/MavenAppHandlerTest.java:52-70 | with package "testJavaPackage", name "testName" and root test/output/path, the five values are the ones the unit test asserts |

## Left out

- Unicode and locale-dependent case mapping of `String.toUpperCase`: only ASCII letters are upper-cased; every other character is kept unchanged.
- A `null` token passed to `byName`, which throws in Java: Dafny strings cannot be null.
- `Path.resolve` is modelled as returning the path itself for an empty name and otherwise appending one segment; Java's handling of absolute or multi-segment names and of separators in the working-directory string is not modelled.
- The calls to `shell.println` in `handle`: output to the terminal is dropped.
- What `processTemplates` does with a render (reading the template files, choosing a source set, running processors, writing files, I/O failures): its code is not part of this model, so `Handle` records the call and assumes it returns.
- The glob semantics of `SourceTemplateFilter` and the transformations of `JavaPackageProcessor` and `MavenProcessor`: their code is not part of this model, so they are tags.
- The insertion order of a property set: `Properties` is modelled as a map, so only which keys are bound, and to what, is captured.
- The internals of `NameParser` (its validity rules and its derivation of the package): it is a pair of functions given to the handler.
- MavenApp.MavenAppHandler.BuildProperties: states only the five keys the unit test asserts, and the test passes only an absent (`null`) parent context, so the model assumes the five values ignore the parent context, which a present one might change; other keys the real handler may bind (among them the Bootique version read from `ConfigService`) are not modelled, because the handler's own code is not part of this model.
- `BqShellModule` (dependency-injection bindings, terminal, completer, banner, default command selection): framework wiring outside the scaffolding core.
