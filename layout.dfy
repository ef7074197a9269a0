/** The directory layout a build derives from its Minecraft version and
    mappings build (the `val`s of `ProjectContext`). */
module Layout {
  import opened Text
  import opened Paths

  /** What the layout depends on: the Gradle directories and the two
      properties `minecraft_version` and `mappings_build`. */
  datatype ProjectContext = ProjectContext(
    buildDir: Path,
    projectDir: Path,
    resourcesOutputDir: Path,
    classesOutputDir: Path,
    mcVersion: string,
    mappingsBuild: int)

  function FebbDir(c: ProjectContext): Path { Child(c.buildDir, "febbAssembly") }
  function VersionDir(c: ProjectContext): Path { Resolve(FebbDir(c), c.mcVersion) }
  function MinecraftDir(c: ProjectContext): Path { Child(VersionDir(c), "minecraft") }
  function ClientPath(c: ProjectContext): Path { Child(MinecraftDir(c), "client.jar") }
  function ServerPath(c: ProjectContext): Path { Child(MinecraftDir(c), "server.jar") }
  function MergedPath(c: ProjectContext): Path { Child(MinecraftDir(c), "merged.jar") }
  function RemappedMcPath(c: ProjectContext): Path { Child(MinecraftDir(c), "named.jar") }
  function LibsDir(c: ProjectContext): Path { Child(VersionDir(c), "libraries") }
  function MappingsDir(c: ProjectContext): Path { Child(VersionDir(c), "mappings") }

  /** `"yarn-build.$mappingsBuild.jar"` and `"yarn-build.$mappingsBuild.tinyv2"`. */
  function MappingsFileName(build: int, extension: string): (name: string)
    ensures '/' !in extension ==> IsName(name)
  {
    "yarn-build." + IntToString(build) + "." + extension
  }

  function MappingsJar(c: ProjectContext): Path { Child(MappingsDir(c), MappingsFileName(c.mappingsBuild, "jar")) }
  function MappingsPath(c: ProjectContext): Path { Child(MappingsDir(c), MappingsFileName(c.mappingsBuild, "tinyv2")) }
  function AbstractedDir(c: ProjectContext): Path { Child(VersionDir(c), "abstracted") }
  function DirectOutputDir(c: ProjectContext): Path { Child(AbstractedDir(c), "directOutput") }
  function ApiBinariesDir(c: ProjectContext): Path { Child(DirectOutputDir(c), "api") }
  function ApiSourcesDir(c: ProjectContext): Path { Child(DirectOutputDir(c), "api-sources") }
  function AbstractionManifestJson(c: ProjectContext): Path { Child(DirectOutputDir(c), "abstractionManifest.json") }
  function ImplNamedDir(c: ProjectContext): Path { Child(DirectOutputDir(c), "impl-named") }
  function ApiBinariesJar(c: ProjectContext): Path { Child(AbstractedDir(c), "api.jar") }
  function ApiSourcesJar(c: ProjectContext): Path { Child(AbstractedDir(c), "api-sources.jar") }
  function AbstractionManifestJar(c: ProjectContext): Path { Child(AbstractedDir(c), "abstractionManifest.jar") }

  /** Outside the version directory: shared by every version. */
  function RuntimeManifestProperties(c: ProjectContext): Path { Child(c.resourcesOutputDir, "runtimeManifest.properties") }
  function ImplNamedDest(c: ProjectContext): Path { c.classesOutputDir }
  function ApiForDevTesting(c: ProjectContext): Path { Resolve(c.projectDir, "dev/test-api.jar") }

  /** The package the abstracted classes of one version live in:
      `"v" + mcVersion.replace(".", "_")`. */
  function VersionSubpackage(mcVersion: string): (r: string)
    ensures StartsWithV(r)
    ensures '.' !in r
    ensures |r| == |mcVersion| + 1
    ensures '/' !in mcVersion ==> IsPlainName(r)
  {
    "v" + ReplaceChar(mcVersion, '.', '_')
  }

  function CurrentVersionAbstractedDirInClasses(c: ProjectContext): Path {
    Resolve(ImplNamedDest(c), VersionSubpackage(c.mcVersion))
  }

  /** Every directory and file the build keeps per version. */
  function PerVersionPaths(c: ProjectContext): seq<Path> {
    [VersionDir(c), MinecraftDir(c), ClientPath(c), ServerPath(c), MergedPath(c),
     RemappedMcPath(c), LibsDir(c), MappingsDir(c), MappingsJar(c), MappingsPath(c),
     AbstractedDir(c), DirectOutputDir(c), ApiBinariesDir(c), ApiSourcesDir(c),
     AbstractionManifestJson(c), ImplNamedDir(c), ApiBinariesJar(c), ApiSourcesJar(c),
     AbstractionManifestJar(c)]
  }

  lemma UnderTransitive(p: Path, q: Path, r: Path)
    requires IsUnder(p, q) && IsUnder(q, r)
    ensures IsUnder(p, r)
  {
  }

  /** All per-version paths lie in `febbDir/mcVersion`. */
  lemma PerVersionPathsUnderVersionDir(c: ProjectContext)
    ensures forall p :: p in PerVersionPaths(c) ==> IsUnder(VersionDir(c), p)
  {
    var v := VersionDir(c);
    UnderTransitive(v, MinecraftDir(c), ClientPath(c));
    UnderTransitive(v, MinecraftDir(c), ServerPath(c));
    UnderTransitive(v, MinecraftDir(c), MergedPath(c));
    UnderTransitive(v, MinecraftDir(c), RemappedMcPath(c));
    UnderTransitive(v, MappingsDir(c), MappingsJar(c));
    UnderTransitive(v, MappingsDir(c), MappingsPath(c));
    UnderTransitive(v, AbstractedDir(c), DirectOutputDir(c));
    UnderTransitive(v, AbstractedDir(c), ApiBinariesJar(c));
    UnderTransitive(v, AbstractedDir(c), ApiSourcesJar(c));
    UnderTransitive(v, AbstractedDir(c), AbstractionManifestJar(c));
    UnderTransitive(v, DirectOutputDir(c), ApiBinariesDir(c));
    UnderTransitive(v, DirectOutputDir(c), ApiSourcesDir(c));
    UnderTransitive(v, DirectOutputDir(c), AbstractionManifestJson(c));
    UnderTransitive(v, DirectOutputDir(c), ImplNamedDir(c));
  }

  /** Two builds for different versions never share a per-version path,
      and neither's paths lie inside the other's. */
  lemma VersionsDisjoint(c1: ProjectContext, c2: ProjectContext)
    requires c1.buildDir == c2.buildDir
    requires IsPlainName(c1.mcVersion) && IsPlainName(c2.mcVersion)
    requires c1.mcVersion != c2.mcVersion
    ensures forall p, q :: p in PerVersionPaths(c1) && q in PerVersionPaths(c2) ==>
      !IsUnder(p, q) && !IsUnder(q, p)
  {
    PerVersionPathsUnderVersionDir(c1);
    PerVersionPathsUnderVersionDir(c2);
    ResolveName(FebbDir(c1), c1.mcVersion);
    ResolveName(FebbDir(c2), c2.mcVersion);
    var n := |FebbDir(c1).segments|;
    assert VersionDir(c1).segments[n] == c1.mcVersion;
    assert VersionDir(c2).segments[n] == c2.mcVersion;
    forall p, q | p in PerVersionPaths(c1) && q in PerVersionPaths(c2)
      ensures !IsUnder(p, q) && !IsUnder(q, p)
    {
      assert p.segments[n] == VersionDir(c1).segments[n];
      assert q.segments[n] == VersionDir(c2).segments[n];
    }
  }

  lemma MappingsFileNameInjective(b1: int, b2: int, extension: string)
    requires MappingsFileName(b1, extension) == MappingsFileName(b2, extension)
    ensures b1 == b2
  {
    var s1, s2 := IntToString(b1), IntToString(b2);
    var k := |"yarn-build."|;
    var m1, m2 := MappingsFileName(b1, extension), MappingsFileName(b2, extension);
    assert |s1| == |s2|;
    assert s1 == m1[k..k + |s1|] == m2[k..k + |s2|] == s2;
    IntToStringInjective(b1, b2);
  }

  /** The mapping jar and tiny file are named after the mappings build,
      so different builds never share them. */
  lemma MappingsFilesDiffer(c1: ProjectContext, c2: ProjectContext)
    requires c1.mappingsBuild != c2.mappingsBuild
    ensures MappingsJar(c1) != MappingsJar(c2)
    ensures MappingsPath(c1) != MappingsPath(c2)
  {
    var j1, j2 := MappingsFileName(c1.mappingsBuild, "jar"), MappingsFileName(c2.mappingsBuild, "jar");
    var t1, t2 := MappingsFileName(c1.mappingsBuild, "tinyv2"), MappingsFileName(c2.mappingsBuild, "tinyv2");
    if j1 == j2 {
      MappingsFileNameInjective(c1.mappingsBuild, c2.mappingsBuild, "jar");
    }
    if t1 == t2 {
      MappingsFileNameInjective(c1.mappingsBuild, c2.mappingsBuild, "tinyv2");
    }
    assert MappingsJar(c1).segments[|MappingsJar(c1).segments| - 1] == j1;
    assert MappingsJar(c2).segments[|MappingsJar(c2).segments| - 1] == j2;
    assert MappingsPath(c1).segments[|MappingsPath(c1).segments| - 1] == t1;
    assert MappingsPath(c2).segments[|MappingsPath(c2).segments| - 1] == t2;
  }

  /** The version package maps back to the version when the version has no `_`. */
  lemma VersionSubpackageRoundTrip(mcVersion: string)
    requires '_' !in mcVersion
    ensures ReplaceChar(VersionSubpackage(mcVersion)[1..], '_', '.') == mcVersion
  {
  }

  /** The current version's classes go to a direct child of the classes directory. */
  lemma CurrentVersionDirIsChild(c: ProjectContext)
    requires '/' !in c.mcVersion
    ensures CurrentVersionAbstractedDirInClasses(c) == Child(c.classesOutputDir, VersionSubpackage(c.mcVersion))
  {
    ResolveName(c.classesOutputDir, VersionSubpackage(c.mcVersion));
  }

  /** Nothing checks that the version is a single name: a version with a
      `/` reaches into another version's directory. The version directory
      of `v/w` is the child `w` of the version directory of `v`, so that of
      `1.16/minecraft` is the Minecraft directory of `1.16`. */
  lemma SlashVersionSharesPaths(c: ProjectContext, v: string, w: string)
    requires IsName(v) && IsName(w)
    ensures VersionDir(c.(mcVersion := v + "/" + w)) == Child(VersionDir(c.(mcVersion := v)), w)
    ensures w == "minecraft" ==> VersionDir(c.(mcVersion := v + "/" + w)) == MinecraftDir(c.(mcVersion := v))
  {
    var s := v + "/" + w;
    assert s == v + ['/'] + w;
    assert s[0] == v[0];
    SplitHead(v, w, '/');
    SplitNoDelimiter(w, '/');
    NonEmptyKeeps([v, w]);
    assert Segments(s) == [v, w];
    ResolveName(FebbDir(c), v);
  }

  /** A library the version manifest lists: its URL and relative file path. */
  datatype Library = Library(url: string, filePath: string)

  /** Where `downloadMcLibraries` stores each library, in manifest order. */
  method LibraryDestinations(c: ProjectContext, libraries: seq<Library>) returns (paths: seq<Path>)
    ensures |paths| == |libraries|
    ensures forall i :: 0 <= i < |paths| ==> paths[i] == Resolve(LibsDir(c), libraries[i].filePath)
    ensures forall i :: 0 <= i < |paths| && !IsAbsoluteString(libraries[i].filePath) ==>
      IsUnder(LibsDir(c), paths[i]) && IsUnder(VersionDir(c), paths[i])
  {
    paths := [];
    var libsDir := LibsDir(c);
    for i := 0 to |libraries|
      invariant |paths| == i
      invariant forall j :: 0 <= j < i ==> paths[j] == Resolve(libsDir, libraries[j].filePath)
    {
      paths := paths + [Resolve(libsDir, libraries[i].filePath)];
    }
    forall i | 0 <= i < |paths| && !IsAbsoluteString(libraries[i].filePath)
      ensures IsUnder(VersionDir(c), paths[i])
    {
      UnderTransitive(VersionDir(c), libsDir, paths[i]);
    }
  }
}
