/** The `Abstract` task: its stages, what each needs and produces, and
    the order in which `apply`, `abstractMinecraft` and `runAbstractor`
    run them. */
module Pipeline {

  datatype Option<T> = None | Some(value: T)

  datatype Stage =
    | DownloadVersionManifest
    | DownloadMinecraft
    | DownloadLibraries
    | MergeJars
    | DownloadMappings
    | LoadMappings
    | RemapJar
    | CreateMetadata
    | AbstractImpl
    | AbstractApi
    | AbstractApiSources
    | PurgeOldClasses
    | VerifyImpl
    | JarApi
    | JarApiSources
    | SaveManifest
    | CopyImplToClasses
    | CopyApiForDev

  /** Files and in-memory values the stages pass on. */
  datatype Artifact =
    | ProjectClasses     // the project's own compiled classes (Gradle `classes`)
    | VersionManifest
    | ClientJar
    | ServerJar
    | Libraries
    | MergedJar
    | MappingsJar
    | MappingsTiny
    | MappingTree
    | NamedJar
    | Metadata
    | ImplNamedDir
    | ApiDir
    | ApiSourcesDir
    | ApiJar
    | ApiSourcesJar
    | ManifestJson
    | ManifestJar
    | RuntimeManifestFile
    | ImplInClasses
    | DevApiJar

  /** What must exist before a stage runs, because the stage reads it or
      because the task body orders the stage after the one that makes it
      (the purge reads none of its needs: they only place it after the
      `Abstractor.parse` block). */
  function Needs(s: Stage): set<Artifact> {
    match s
    case DownloadVersionManifest => {}
    case DownloadMinecraft => {VersionManifest}
    case DownloadLibraries => {VersionManifest}
    case MergeJars => {ClientJar, ServerJar}
    case DownloadMappings => {}
    case LoadMappings => {MappingsTiny}
    case RemapJar => {MergedJar, MappingTree, Libraries}
    case CreateMetadata => {MappingsTiny, Libraries}
    case AbstractImpl => {NamedJar, Metadata}
    case AbstractApi => {NamedJar, Metadata}
    case AbstractApiSources => {NamedJar, Metadata}
    case PurgeOldClasses => {ImplNamedDir, ApiDir, ApiSourcesDir}
    case VerifyImpl => {ImplNamedDir, Libraries, NamedJar, ProjectClasses}
    case JarApi => {ApiDir}
    case JarApiSources => {ApiSourcesDir}
    case SaveManifest => {ImplNamedDir, ApiDir, ApiSourcesDir, MappingTree}
    case CopyImplToClasses => {ImplNamedDir}
    case CopyApiForDev => {ApiJar}
  }

  /** What a stage produces when it succeeds. */
  function Makes(s: Stage): set<Artifact> {
    match s
    case DownloadVersionManifest => {VersionManifest}
    case DownloadMinecraft => {ClientJar, ServerJar}
    case DownloadLibraries => {Libraries}
    case MergeJars => {MergedJar}
    case DownloadMappings => {MappingsJar, MappingsTiny}
    case LoadMappings => {MappingTree}
    case RemapJar => {NamedJar}
    case CreateMetadata => {Metadata}
    case AbstractImpl => {ImplNamedDir}
    case AbstractApi => {ApiDir}
    case AbstractApiSources => {ApiSourcesDir}
    case PurgeOldClasses => {}
    case VerifyImpl => {}
    case JarApi => {ApiJar}
    case JarApiSources => {ApiSourcesJar}
    case SaveManifest => {ManifestJson, ManifestJar, RuntimeManifestFile}
    case CopyImplToClasses => {ImplInClasses}
    case CopyApiForDev => {DevApiJar}
  }

  /** The order of the calls in the task body. */
  const TaskOrder: seq<Stage> := [
    DownloadVersionManifest, DownloadMinecraft, DownloadLibraries, MergeJars,
    DownloadMappings, LoadMappings, RemapJar,
    CreateMetadata, AbstractImpl, AbstractApi, AbstractApiSources,
    PurgeOldClasses, VerifyImpl, JarApi, JarApiSources, SaveManifest,
    CopyImplToClasses, CopyApiForDev]

  /** Everything some stage of `stages` makes. */
  function Made(stages: seq<Stage>): set<Artifact> {
    set j, a | 0 <= j < |stages| && a in Makes(stages[j]) :: a
  }

  /** What exists after `stages` all succeed from `have`. */
  function After(have: set<Artifact>, stages: seq<Stage>): set<Artifact> {
    have + Made(stages)
  }

  /** Every stage of `stages`, run in order from `have`, finds what it
      needs: each need existed at the start or an earlier stage makes it. */
  predicate Runs(have: set<Artifact>, stages: seq<Stage>) {
    forall i :: 0 <= i < |stages| ==> Ready(have, stages, i)
  }

  /** Stage `i` needs nothing that neither existed at the start nor is made
      by a stage before it. */
  predicate Ready(have: set<Artifact>, stages: seq<Stage>, i: nat)
    requires i < |stages|
  {
    forall a :: a in Needs(stages[i]) && a !in have ==> exists j :: 0 <= j < i && a in Makes(stages[j])
  }

  /** The index of the first stage whose collaborator fails, or the length. */
  function FirstFailure(stages: seq<Stage>, failing: set<Stage>): (n: nat)
    ensures n <= |stages|
    ensures forall j :: 0 <= j < n ==> stages[j] !in failing
    ensures n < |stages| ==> stages[n] in failing
    decreases |stages|
  {
    if stages == [] || stages[0] in failing then 0 else 1 + FirstFailure(stages[1..], failing)
  }

  lemma MadeSnoc(stages: seq<Stage>, s: Stage)
    ensures Made(stages + [s]) == Made(stages) + Makes(s)
  {
    var all := stages + [s];
    forall a | a in Made(all) ensures a in Made(stages) + Makes(s) {
      var j :| 0 <= j < |all| && a in Makes(all[j]);
      if j < |stages| {
        assert stages[j] == all[j];
      }
    }
    forall a | a in Made(stages) + Makes(s) ensures a in Made(all) {
      if a in Makes(s) {
        assert all[|stages|] == s;
      } else {
        var j :| 0 <= j < |stages| && a in Makes(stages[j]);
        assert all[j] == stages[j];
      }
    }
  }

  /** The task's order is runnable from the project's compiled classes:
      each stage needs only what an earlier stage made. */
  lemma TaskOrderRuns()
    ensures Runs({ProjectClasses}, TaskOrder)
  {
    forall i, a | 0 <= i < |TaskOrder| && a in Needs(TaskOrder[i]) && a !in {ProjectClasses}
      ensures exists j :: 0 <= j < i && a in Makes(TaskOrder[j])
    {
      if i == 1 {
        assert VersionManifest in Makes(TaskOrder[0]);
      } else if i == 2 {
        assert VersionManifest in Makes(TaskOrder[0]);
      } else if i == 3 {
        assert ClientJar in Makes(TaskOrder[1]);
        assert ServerJar in Makes(TaskOrder[1]);
      } else if i == 5 {
        assert MappingsTiny in Makes(TaskOrder[4]);
      } else if i == 6 {
        assert MergedJar in Makes(TaskOrder[3]);
        assert MappingTree in Makes(TaskOrder[5]);
        assert Libraries in Makes(TaskOrder[2]);
      } else if i == 7 {
        assert MappingsTiny in Makes(TaskOrder[4]);
        assert Libraries in Makes(TaskOrder[2]);
      } else if i == 8 {
        assert NamedJar in Makes(TaskOrder[6]);
        assert Metadata in Makes(TaskOrder[7]);
      } else if i == 9 {
        assert NamedJar in Makes(TaskOrder[6]);
        assert Metadata in Makes(TaskOrder[7]);
      } else if i == 10 {
        assert NamedJar in Makes(TaskOrder[6]);
        assert Metadata in Makes(TaskOrder[7]);
      } else if i == 11 {
        assert ImplNamedDir in Makes(TaskOrder[8]);
        assert ApiDir in Makes(TaskOrder[9]);
        assert ApiSourcesDir in Makes(TaskOrder[10]);
      } else if i == 12 {
        assert ImplNamedDir in Makes(TaskOrder[8]);
        assert Libraries in Makes(TaskOrder[2]);
        assert NamedJar in Makes(TaskOrder[6]);
      } else if i == 13 {
        assert ApiDir in Makes(TaskOrder[9]);
      } else if i == 14 {
        assert ApiSourcesDir in Makes(TaskOrder[10]);
      } else if i == 15 {
        assert ImplNamedDir in Makes(TaskOrder[8]);
        assert ApiDir in Makes(TaskOrder[9]);
        assert ApiSourcesDir in Makes(TaskOrder[10]);
        assert MappingTree in Makes(TaskOrder[5]);
      } else if i == 16 {
        assert ImplNamedDir in Makes(TaskOrder[8]);
      } else if i == 17 {
        assert ApiJar in Makes(TaskOrder[13]);
      }
    }
  }

  /** When every stage succeeds, every artifact exists at the end. */
  lemma TaskOrderProducesAll()
    ensures forall a: Artifact :: a != ProjectClasses ==> a in Made(TaskOrder)
  {
    forall a: Artifact | a != ProjectClasses ensures a in Made(TaskOrder) {
      match a
      case VersionManifest => assert a in Makes(TaskOrder[0]);
      case ClientJar => assert a in Makes(TaskOrder[1]);
      case ServerJar => assert a in Makes(TaskOrder[1]);
      case Libraries => assert a in Makes(TaskOrder[2]);
      case MergedJar => assert a in Makes(TaskOrder[3]);
      case MappingsJar => assert a in Makes(TaskOrder[4]);
      case MappingsTiny => assert a in Makes(TaskOrder[4]);
      case MappingTree => assert a in Makes(TaskOrder[5]);
      case NamedJar => assert a in Makes(TaskOrder[6]);
      case Metadata => assert a in Makes(TaskOrder[7]);
      case ImplNamedDir => assert a in Makes(TaskOrder[8]);
      case ApiDir => assert a in Makes(TaskOrder[9]);
      case ApiSourcesDir => assert a in Makes(TaskOrder[10]);
      case ApiJar => assert a in Makes(TaskOrder[13]);
      case ApiSourcesJar => assert a in Makes(TaskOrder[14]);
      case ManifestJson => assert a in Makes(TaskOrder[15]);
      case ManifestJar => assert a in Makes(TaskOrder[15]);
      case RuntimeManifestFile => assert a in Makes(TaskOrder[15]);
      case ImplInClasses => assert a in Makes(TaskOrder[16]);
      case DevApiJar => assert a in Makes(TaskOrder[17]);
    }
  }

  /** A run of the whole order from the project's classes leaves every
      artifact in place. */
  lemma FullRunMakesEverything(have: set<Artifact>, n: nat)
    requires ProjectClasses in have && n == |TaskOrder|
    ensures forall a: Artifact :: a in After(have, TaskOrder[..n])
  {
    TaskOrderProducesAll();
    assert TaskOrder[..n] == TaskOrder;
  }

  /** In a runnable order, each stage finds what it needs among what
      existed at the start and what the stages before it made. */
  lemma NextStageReady(have: set<Artifact>, stages: seq<Stage>, i: nat)
    requires Runs(have, stages) && i < |stages|
    ensures Needs(stages[i]) <= After(have, stages[..i])
  {
    assert Ready(have, stages, i);
    forall a | a in Needs(stages[i]) ensures a in After(have, stages[..i]) {
      if a !in have {
        var j :| 0 <= j < i && a in Makes(stages[j]);
        assert stages[..i][j] == stages[j];
      }
    }
  }

  /** Starting with more never makes an order unrunnable. */
  lemma RunsMonotone(have: set<Artifact>, more: set<Artifact>, stages: seq<Stage>)
    requires Runs(have, stages) && have <= more
    ensures Runs(more, stages)
  {
    forall i | 0 <= i < |stages| ensures Ready(more, stages, i) {
      assert Ready(have, stages, i);
    }
  }

  /** The remapped jar exists before any abstraction run: some earlier
      stage is the remap. */
  lemma RemapBeforeAbstraction(stages: seq<Stage>, i: nat)
    requires Runs({ProjectClasses}, stages) && i < |stages|
    requires stages[i] in {AbstractImpl, AbstractApi, AbstractApiSources}
    ensures exists j :: 0 <= j < i && stages[j] == RemapJar
  {
    assert Ready({ProjectClasses}, stages, i);
    assert NamedJar in Needs(stages[i]);
    assert NamedJar !in {ProjectClasses};
    assert exists j :: 0 <= j < i && NamedJar in Makes(stages[j]);
    var j :| 0 <= j < i && NamedJar in Makes(stages[j]);
    assert stages[j] == RemapJar;
  }

  /** The purge, the verification and the two jar conversions each come
      after an abstraction run. */
  lemma AbstractionBeforeLaterStages(stages: seq<Stage>, i: nat)
    requires Runs({ProjectClasses}, stages) && i < |stages|
    requires stages[i] in {PurgeOldClasses, VerifyImpl, JarApi, JarApiSources}
    ensures exists j :: 0 <= j < i && stages[j] in {AbstractImpl, AbstractApi, AbstractApiSources}
  {
    var a := if stages[i] == JarApi then ApiDir
             else if stages[i] == JarApiSources then ApiSourcesDir
             else ImplNamedDir;
    assert Ready({ProjectClasses}, stages, i);
    assert a in Needs(stages[i]) && a !in {ProjectClasses};
    assert exists j :: 0 <= j < i && a in Makes(stages[j]);
    var j :| 0 <= j < i && a in Makes(stages[j]);
    assert stages[j] == if a == ApiDir then AbstractApi
                        else if a == ApiSourcesDir then AbstractApiSources
                        else AbstractImpl;
  }

  /** The state of one build: what exists and which stages ran. */
  class Build {
    var have: set<Artifact>
    var history: seq<Stage>

    constructor (have: set<Artifact>)
      ensures this.have == have && history == []
    {
      this.have := have;
      history := [];
    }

    /** Runs one stage whose collaborator succeeds iff `succeeds`; a failed
        stage produces nothing that counts as output. */
    method Perform(s: Stage, succeeds: bool) returns (ok: bool)
      requires Needs(s) <= have
      modifies this
      ensures ok == succeeds
      ensures history == old(history) + [s]
      ensures have == if ok then old(have) + Makes(s) else old(have)
    {
      history := history + [s];
      if succeeds {
        have := have + Makes(s);
      }
      ok := succeeds;
    }

    /** Runs `order` stage by stage, stopping at the first stage whose
        collaborator fails. */
    method RunStages(order: seq<Stage>, failing: set<Stage>) returns (failed: Option<Stage>)
      requires Runs(have, order)
      modifies this
      ensures var n := FirstFailure(order, failing);
        && failed == (if n < |order| then Some(order[n]) else None)
        && history == old(history) + order[..if n < |order| then n + 1 else n]
        && have == After(old(have), order[..n])
    {
      ghost var start := have;
      ghost var n := FirstFailure(order, failing);
      var i := 0;
      while i < |order|
        invariant i <= n
        invariant have == After(start, order[..i])
        invariant history == old(history) + order[..i]
        decreases |order| - i
      {
        var stage := order[i];
        NextStageReady(start, order, i);
        var ok := Perform(stage, stage !in failing);
        assert order[..i + 1] == order[..i] + [stage];
        if !ok {
          return Some(stage);
        }
        MadeSnoc(order[..i], stage);
        i := i + 1;
      }
      failed := None;
    }

    /** The task body: the stages in the order of the calls, stopping at
        the first whose collaborator fails (the exception ends the task). */
    method RunAbstractTask(failing: set<Stage>) returns (failed: Option<Stage>)
      requires ProjectClasses in have
      modifies this
      ensures var n := FirstFailure(TaskOrder, failing);
        && failed == (if n < |TaskOrder| then Some(TaskOrder[n]) else None)
        && history == old(history) + TaskOrder[..if n < |TaskOrder| then n + 1 else n]
        && have == After(old(have), TaskOrder[..n])
      ensures failed.None? ==> forall a: Artifact :: a in have
    {
      ghost var start := have;
      TaskOrderRuns();
      RunsMonotone({ProjectClasses}, have, TaskOrder);
      failed := RunStages(TaskOrder, failing);
      if failed.None? {
        FullRunMakesEverything(start, FirstFailure(TaskOrder, failing));
      }
    }
  }
}
