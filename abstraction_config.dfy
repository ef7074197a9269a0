/** The configuration the Abstractor is run with (`AbstractionMetadata`)
    and the three configurations `runAbstractor` derives from it. */
module AbstractionConfig {
  import opened Paths
  import opened Layout
  import opened RelationTables

  /** `VersionPackage.fromMcVersion(mcVersion)`; its naming rule belongs to
      the Abstractor library. */
  datatype VersionPackage = FromMcVersion(mcVersion: string)

  /** `JavaDocs.readTiny(file)`, identified by the mappings file it reads. */
  datatype JavaDocs = ReadTiny(file: Path)

  /** The target selector built from the two HOCON selection documents,
      identified by their texts. */
  datatype Selector = TargetSelector(interfaceRules: string, baseclassRules: string)

  datatype AbstractionMetadata = AbstractionMetadata(
    versionPackage: VersionPackage,
    writeRawAsm: bool,
    fitToPublicApi: bool,
    classPath: seq<Path>,
    javadocs: JavaDocs,
    selector: Selector,
    iinterfaces: map<string, seq<string>>,
    interfacesbase: map<string, seq<string>>)

  /** Two configurations describe the same classes: they differ at most in
      the two output flags. */
  predicate SameSubject(a: AbstractionMetadata, b: AbstractionMetadata) {
    a.(writeRawAsm := false, fitToPublicApi := false) == b.(writeRawAsm := false, fitToPublicApi := false)
  }

  /** The base configuration of `createAbstractionMetadata`. */
  method CreateAbstractionMetadata(
    c: ProjectContext,
    classpath: seq<Path>,
    interfaceRules: string,
    baseclassRules: string,
    iinterfaceRecords: seq<Record>,
    baseinterfaceRecords: seq<Record>)
    returns (m: AbstractionMetadata)
    ensures m.writeRawAsm && !m.fitToPublicApi
    ensures m.versionPackage == FromMcVersion(c.mcVersion)
    ensures m.classPath == classpath
    ensures m.javadocs == ReadTiny(MappingsPath(c))
    ensures m.selector == TargetSelector(interfaceRules, baseclassRules)
    ensures m.iinterfaces == RelationMap(iinterfaceRecords)
    ensures m.interfacesbase == RelationMap(baseinterfaceRecords)
  {
    var interfaceMap := BuildRelationMap(iinterfaceRecords);
    var baseMap := BuildRelationMap(baseinterfaceRecords);
    m := AbstractionMetadata(
      versionPackage := FromMcVersion(c.mcVersion),
      writeRawAsm := true,
      fitToPublicApi := false,
      classPath := classpath,
      javadocs := ReadTiny(MappingsPath(c)),
      selector := TargetSelector(interfaceRules, baseclassRules),
      iinterfaces := interfaceMap,
      interfacesbase := baseMap);
  }

  /** `metadata.copy(fitToPublicApi = true)`. */
  function ApiBinariesConfig(m: AbstractionMetadata): (r: AbstractionMetadata)
    ensures r.fitToPublicApi && r.writeRawAsm == m.writeRawAsm && SameSubject(r, m)
  {
    m.(fitToPublicApi := true)
  }

  /** `apiMetadata.copy(writeRawAsm = false)`. */
  function ApiSourcesConfig(m: AbstractionMetadata): (r: AbstractionMetadata)
    ensures r.fitToPublicApi && !r.writeRawAsm && SameSubject(r, m)
  {
    ApiBinariesConfig(m).(writeRawAsm := false)
  }

  /** The three `abstract` calls of `runAbstractor`, in order: output
      directory and configuration. */
  function AbstractionRuns(c: ProjectContext, base: AbstractionMetadata): seq<(Path, AbstractionMetadata)> {
    [(ImplNamedDir(c), base),
     (ApiBinariesDir(c), ApiBinariesConfig(base)),
     (ApiSourcesDir(c), ApiSourcesConfig(base))]
  }

  /** From a base configuration the three runs are: implementation
      (raw, whole), API binaries (raw, public API) and API sources (source,
      public API); they share everything else and write to three different
      directories of the direct output directory. */
  lemma ThreeConfigurations(c: ProjectContext, base: AbstractionMetadata)
    requires base.writeRawAsm && !base.fitToPublicApi
    ensures var runs := AbstractionRuns(c, base);
      && runs[0].1.writeRawAsm && !runs[0].1.fitToPublicApi
      && runs[1].1.writeRawAsm && runs[1].1.fitToPublicApi
      && !runs[2].1.writeRawAsm && runs[2].1.fitToPublicApi
      && (forall i, j :: 0 <= i < 3 && 0 <= j < 3 ==> SameSubject(runs[i].1, runs[j].1))
      && (forall i, j :: 0 <= i < j < 3 ==> runs[i].1 != runs[j].1 && runs[i].0 != runs[j].0)
      && (forall i :: 0 <= i < 3 ==> IsUnder(DirectOutputDir(c), runs[i].0))
  {
    var d := DirectOutputDir(c);
    assert ImplNamedDir(c).segments[|d.segments|] == "impl-named";
    assert ApiBinariesDir(c).segments[|d.segments|] == "api";
    assert ApiSourcesDir(c).segments[|d.segments|] == "api-sources";
  }
}
