# FebbAssembly build logic, modelled in Dafny

FebbAssembly's Gradle plugin (`buildSrc/src/main/kotlin/FebbAssembly.kt`)
builds "abstracted" Minecraft artifacts. The `Abstract` task works in this order:

- it downloads the version manifest, the client and server jars and the libraries;
- it merges the two jars;
- it downloads the Yarn mappings and remaps the merged jar to named classes;
- it runs the Abstractor three times, once for the implementation, once for the API binaries and once for the API sources;
- it runs a purge meant to remove stale version directories from the classes directory (as written it tests the full path and removes nothing under an absolute directory; see ## Findings), verifies the implementation and turns the two API directories into jars;
- it saves the abstraction manifest and a runtime manifest that maps intermediary class names to API class names;
- it copies the implementation into the classes directory and the API jar to `dev/`.

This project models the deterministic rules inside that task. The collaborators
are the downloads, the jar merger, the remapper, the Abstractor, the class
verifier and the jar writer. They appear only as inputs or as stages that may fail.

| file | module | what it models |
|---|---|---|
| `text.dfy` | `Text` | Kotlin `split(",")`, `joinToString`, one-character `replace`, `startsWith("v")`, `Int` in a string template |
| `paths.dfy` | `Paths` | `Path.resolve`, `toString()` and reading a path string back |
| `layout.dfy` | `Layout` | the path `val`s of `ProjectContext`, the version subpackage, `downloadMcLibraries`' destinations |
| `relation_tables.dfy` | `RelationTables` | the `imap` / `baseMap` loops of `createAbstractionMetadata` |
| `abstraction_config.dfy` | `AbstractionConfig` | `AbstractionMetadata`, its creation and the three `copy` variants of `runAbstractor` |
| `runtime_manifest.dfy` | `RuntimeManifest` | `saveManifest`'s projection to `runtimeManifest.properties`, `Properties.putAll` |
| `classes_dir.dfy` | `ClassesDir` | `deleteOldAbstractedClassesInClassesDir`, as written and corrected |
| `pipeline.dfy` | `Pipeline` | the stages of the task body, what each needs and makes, and the order they run in |

Inputs the model takes as parameters:

- The Gradle directories and the properties `minecraft_version` and
  `mappings_build` (already converted to `Int`) are fields of
  `Layout.ProjectContext`.
- The named-to-intermediary class map that `mapNamedClassesToIntermediary` computes is a `map<string, string>`.
- The records of `iinterfaces.properties` and `baseinterfaces.properties` are sequences of key/value pairs in file order, in which a key may repeat.
- The texts of `interfaces.conf` and `baseclasses.conf` are strings.
- The abstraction manifest is a sequence of named class name and `ApiClassInfo` pairs.
- The library list of the version manifest is a sequence of `Library` values.
- Which stages' collaborators fail is a set of stages. A failing collaborator throws and ends the task.

## Model

| member | source | states |
|---|---|---|
| Text.Split | buildSrc/src/main/kotlin/FebbAssembly.kt:222 | `split(",")` always yields at least one piece, and no piece contains the delimiter |
| Text.JoinSplit | buildSrc/src/main/kotlin/FebbAssembly.kt:222 | joining the pieces of a split with the delimiter gives back the original value |
| Text.SplitJoin | buildSrc/src/main/kotlin/FebbAssembly.kt:229 | splitting a join of delimiter-free pieces gives back the pieces |
| Text.ReplaceRoundTrip | buildSrc/src/main/kotlin/FebbAssembly.kt:67 | replacing `.` by `_` and back restores a string that had no `_` |
| Text.IntToStringInjective | buildSrc/src/main/kotlin/FebbAssembly.kt:54-55 | different `Int`s render to different strings in a template |
| Paths.Resolve | buildSrc/src/main/kotlin/FebbAssembly.kt:46 | a relative argument extends the base path, so the result lies under it; an absolute argument gives an absolute path |
| Paths.ResolveName | buildSrc/src/main/kotlin/FebbAssembly.kt:47-59 | resolving a single file name adds exactly one segment |
| Paths.ParseRender | buildSrc/src/main/kotlin/FebbAssembly.kt:271 | a path's `toString()` read back as a path is the same path |
| Layout.MappingsFileName | buildSrc/src/main/kotlin/FebbAssembly.kt:54-55 | `yarn-build.$mappingsBuild.<ext>` is a single file name |
| Layout.VersionSubpackage | buildSrc/src/main/kotlin/FebbAssembly.kt:67 | `"v" + mcVersion.replace(".", "_")` starts with `v`, has no `.`, is one longer than the version and, for a version without `/`, is a plain directory name |
| Layout.VersionSubpackageRoundTrip | buildSrc/src/main/kotlin/FebbAssembly.kt:67 | for a version with no `_`, the version can be read back from the subpackage |
| Layout.PerVersionPathsUnderVersionDir | buildSrc/src/main/kotlin/FebbAssembly.kt:45-73 | every per-version directory and file lies under `febbDir/mcVersion` |
| Layout.VersionsDisjoint | buildSrc/src/main/kotlin/FebbAssembly.kt:45-73 | two builds in the same build directory whose versions are different plain names share no per-version path, and neither's paths lie inside the other's |
| Layout.SlashVersionSharesPaths | buildSrc/src/main/kotlin/FebbAssembly.kt:43-47 | nothing checks that the version is one name: for names `v` and `w`, the version directory of `v/w` is the child `w` of the version directory of `v`, so `1.16/minecraft` lands in the Minecraft directory of `1.16` |
| Layout.MappingsFileNameInjective | buildSrc/src/main/kotlin/FebbAssembly.kt:54-55 | equal mapping file names mean equal mappings builds |
| Layout.MappingsFilesDiffer | buildSrc/src/main/kotlin/FebbAssembly.kt:54-55 | different mappings builds give different mapping jar and tiny file paths |
| Layout.CurrentVersionDirIsChild | buildSrc/src/main/kotlin/FebbAssembly.kt:66-67 | for a version without `/`, the current version's classes go to a direct child of the classes directory named by the subpackage |
| Layout.LibraryDestinations | buildSrc/src/main/kotlin/FebbAssembly.kt:137-143 | one destination per library, in order; each is `libsDir.resolve(filePath)`; a relative file path lands under the libraries directory and the version directory |
| RelationTables.RelationMap | buildSrc/src/main/kotlin/FebbAssembly.kt:218-229 | every key maps to a non-empty list |
| RelationTables.BuildRelationMap | buildSrc/src/main/kotlin/FebbAssembly.kt:218-229 | the `forEach` loop that fills the hash map leaves exactly `RelationMap(records)` |
| RelationTables.RelationMapKeys | buildSrc/src/main/kotlin/FebbAssembly.kt:221-223 | a key is present iff some record has it |
| RelationTables.RelationMapLastWins | buildSrc/src/main/kotlin/FebbAssembly.kt:221-223 | a key maps to the split value of its last record |
| RelationTables.RelationMapJoin | buildSrc/src/main/kotlin/FebbAssembly.kt:228-230 | a key's list joined with `,` is the value as written in its last record |
| AbstractionConfig.CreateAbstractionMetadata | buildSrc/src/main/kotlin/FebbAssembly.kt:214-242 | the base configuration: raw ASM, whole jar, the version's package, the given class path, javadocs from the tiny mappings file, the selector of the two rule texts and both relation maps |
| AbstractionConfig.ApiBinariesConfig | buildSrc/src/main/kotlin/FebbAssembly.kt:254 | `copy(fitToPublicApi = true)`: public API, the same raw flag, all else unchanged |
| AbstractionConfig.ApiSourcesConfig | buildSrc/src/main/kotlin/FebbAssembly.kt:256 | public API and sources instead of raw ASM, all else unchanged |
| AbstractionConfig.ThreeConfigurations | buildSrc/src/main/kotlin/FebbAssembly.kt:252-257 | the three runs are implementation (raw, whole), API binaries (raw, public) and API sources (source, public); they agree on every other field, differ pairwise and write to three distinct directories under `directOutput` |
| RuntimeManifest.Dotted | buildSrc/src/main/kotlin/FebbAssembly.kt:288 | `replace("/", ".")` leaves no `/` and keeps the length |
| RuntimeManifest.Project | buildSrc/src/main/kotlin/FebbAssembly.kt:287-289 | succeeds iff every named class is in the intermediary map; then yields one pair per entry in order, (dotted intermediary name, API class name); otherwise it names the first unknown class |
| RuntimeManifest.Properties.PutAll | buildSrc/src/main/kotlin/FebbAssembly.kt:291-292 | the table becomes the old table overlaid with the pairs in order |
| RuntimeManifest.SaveRuntimeManifest | buildSrc/src/main/kotlin/FebbAssembly.kt:285-294 | the loop over the manifest followed by `putAll` yields exactly `RuntimeManifestOf`, including the failure of `getValue` |
| RuntimeManifest.OverlayKeys | buildSrc/src/main/kotlin/FebbAssembly.kt:292 | after `putAll`, a key is present iff it was already there or some pair has it |
| RuntimeManifest.OverlayLastWins | buildSrc/src/main/kotlin/FebbAssembly.kt:292 | a key gets the value of the last pair with that key |
| RuntimeManifest.OverlayUntouched | buildSrc/src/main/kotlin/FebbAssembly.kt:292 | a key no pair has keeps its value |
| RuntimeManifest.FailsIffUnresolved | buildSrc/src/main/kotlin/FebbAssembly.kt:288 | saving fails iff some manifest class has no intermediary name, and it names the first such class instead of dropping it |
| RuntimeManifest.RuntimeManifestKeys | buildSrc/src/main/kotlin/FebbAssembly.kt:285-292 | the keys are exactly the dotted intermediary names of the manifest's classes, and none contains `/` |
| RuntimeManifest.RuntimeManifestValues | buildSrc/src/main/kotlin/FebbAssembly.kt:287-292 | each class's key maps to its API class name unless a later class has the same key |
| RuntimeManifest.WorldExample | buildSrc/src/main/kotlin/FebbAssembly.kt:285-292 | a one-class manifest `World` with intermediary `class_1` gives the table `class_1 = api/v1_0_0/World` |
| ClassesDir.KeptAsWritten | buildSrc/src/main/kotlin/FebbAssembly.kt:268-274 | the children the purge as written keeps are a subset of the children |
| ClassesDir.KeptByName | buildSrc/src/main/kotlin/FebbAssembly.kt:268-274 | with the file-name test, a child is kept iff its name does not start with `v` |
| ClassesDir.ClassesDirectory.DeleteOldAbstractedClasses | buildSrc/src/main/kotlin/FebbAssembly.kt:267-274 | the purge as written: exactly the children whose full path string starts with `v` are removed; the directory's path and everything outside it are untouched |
| ClassesDir.ClassesDirectory.DeleteOldAbstractedClassesByName | buildSrc/src/main/kotlin/FebbAssembly.kt:267-274 | the corrected purge: exactly the children whose name starts with `v` are removed |
| ClassesDir.AbsoluteDirKeepsEverything | buildSrc/src/main/kotlin/FebbAssembly.kt:40 | under an absolute classes directory the purge as written deletes nothing |
| ClassesDir.RelativeVDirDeletesEverything | buildSrc/src/main/kotlin/FebbAssembly.kt:271 | under a relative directory whose first name starts with `v`, it deletes every child |
| ClassesDir.AsWrittenMatchesByNameAtCurrentDir | buildSrc/src/main/kotlin/FebbAssembly.kt:271 | the path-string and name tests agree when the directory is the empty relative path |
| ClassesDir.StaleVersionDirSurvives | buildSrc/src/main/kotlin/FebbAssembly.kt:271 | under `/p/classes`, the stale `v1_0` of version 1.0 survives the purge as written but is removed by the name test |
| ClassesDir.ByNameRemovesVersionDirs | buildSrc/src/main/kotlin/FebbAssembly.kt:267-274 | the name test removes every version subpackage and keeps every child not starting with `v` |
| Pipeline.FirstFailure | buildSrc/src/main/kotlin/FebbAssembly.kt:92-107 | the first stage whose collaborator throws; all earlier stages succeed |
| Pipeline.TaskOrderRuns | buildSrc/src/main/kotlin/FebbAssembly.kt:93-106 | starting from the project's compiled classes, every stage of the task body finds what it needs |
| Pipeline.TaskOrderProducesAll | buildSrc/src/main/kotlin/FebbAssembly.kt:93-106 | every artifact except the project's classes is made by some stage of the task body |
| Pipeline.FullRunMakesEverything | buildSrc/src/main/kotlin/FebbAssembly.kt:93-106 | a run of the whole body leaves every artifact in place |
| Pipeline.NextStageReady | buildSrc/src/main/kotlin/FebbAssembly.kt:93-106 | in a runnable order, each stage finds what it needs among what existed at the start and what the stages before it made |
| Pipeline.RunsMonotone | buildSrc/src/main/kotlin/FebbAssembly.kt:93-106 | an order that runs from some artifacts also runs from more of them |
| Pipeline.RemapBeforeAbstraction | buildSrc/src/main/kotlin/FebbAssembly.kt:102-104 | in a runnable order, every abstraction run comes after the remap, as `assert(remappedMcPath.exists())` (line 208) demands |
| Pipeline.AbstractionBeforeLaterStages | buildSrc/src/main/kotlin/FebbAssembly.kt:252-263 | the purge, the verification and the two jar conversions come after an abstraction run |
| Pipeline.Build.Perform | buildSrc/src/main/kotlin/FebbAssembly.kt:93-106 | one stage, called only when what it needs exists: it is recorded, and when it succeeds exactly its outputs are added |
| Pipeline.Build.RunStages | buildSrc/src/main/kotlin/FebbAssembly.kt:93-106 | a runnable order runs stage by stage up to and including the first failure; what then exists is what the succeeding stages made |
| Pipeline.Build.RunAbstractTask | buildSrc/src/main/kotlin/FebbAssembly.kt:92-107 | the task body stops at its first failing collaborator, or completes with every artifact in place |

## Left out

- Network and file I/O are not modelled. This covers `downloadIfChanged`, the version manifest download, `Fabric.getMergedMappingsUrl`, jar opening, creation and copying (`storeInJar`, `convertDirToJar`, `FileUtils.copyDirectory`, `copyTo`) and `createDirectories`. They are side effects on the outside world; each one is only a stage that makes an artifact or fails.
- The external engines appear only as stages that make an artifact or throw. These are `JarMerger`, `TinyRemapper`, `TinyMappingFactory.load`, `Abstractor.parse` and `abstract`, `verifyClassFiles` and `JavaDocs.readTiny`. Their code is not part of this model.
- `mapNamedClassesToIntermediary` is library code; the model takes its result as a given map.
- HOCON parsing (`AbstractionSelection.fromHocon`) is reduced to the rule texts the selector is built from; it is library code.
- JSON serialisation of the abstraction manifest is library code and not modelled.
- The escaping format of `java.util.Properties` load and store is not modelled, and neither is the key order of the stored file: that is hash order.
- The relation records are taken as already parsed. `Properties.load` already keeps only the last value of a repeated key. The hash map's last-wins behaviour is modelled on the records, which covers both.
- `VersionPackage.fromMcVersion` belongs to the Abstractor library, so the model only records which version it is given.
- The classpath filter `hasExtension(".jar")` on line 100 and the directory walk `recursiveChildren` are not modelled. The class path is a parameter.
- `mappings_build` is taken as an `Int`. The `toInt()` conversion of line 44, and its failure on a non-number, are not modelled.
- Gradle wiring is not modelled: task inputs and outputs, `dependsOn`, the `classes` and `assemble` tasks, and the `companion object` singleton. They are build-tool configuration, not logic of the task.
- `ApiClassInfo` is reduced to `apiClassName`, the one field the projection reads.
- Layout.VersionsDisjoint: disjointness is proved only for versions that are plain names (no `/`, not empty, not `.` or `..`) under the same build directory. The source does not check `minecraft_version`: version `1.16/minecraft` has the Minecraft directory of `1.16` as its version directory (Layout.SlashVersionSharesPaths), and an empty version puts the version directory at `febbAssembly` itself. A different `mappings_build` changes only the two mapping file names (Layout.MappingsFilesDiffer). `api_build` appears in no path, so a build that differs only there writes to the same places. Every version also shares `runtimeManifest.properties` (line 65), the classes directory (line 66) and `dev/test-api.jar` (line 69), so different versions do write to some of the same output paths.
- Pipeline.Build.RunAbstractTask: `assert(remappedMcPath.exists())` on line 208 is a JVM assertion that runs only with `-ea`. The model states it as what the abstraction stages need, which holds whenever the remap succeeded.
- Pipeline.Build.RunAbstractTask: a stage is atomic; a stage that fails partway is taken to produce nothing usable.
- The Mixin classes under `src/main/java` only forward to library calls and are not part of this model.
- Paths: only Unix-style paths are modelled. `.` and `..` are kept as names, as `Path.resolve` keeps them.
- Layout.LibraryDestinations: "lies under" compares name segments, so a library file path containing `..` counts as under the libraries directory, although on disk it may leave it.

## Findings

| source | as written | input that shows it | evidently intended | confidence | as-written member | corrected member |
|---|---|---|---|---|---|---|
| buildSrc/src/main/kotlin/FebbAssembly.kt:271 | the purge tests `it.toString().startsWith("v")`, where `it` is the child's full path, and Gradle's classes directory is absolute, so the string starts with `/` | classes directory `/p/classes` with children `v1_0` and `io`: nothing is deleted, and the stale `v1_0` of version 1.0 stays | test the child's file name: delete `v1_0`, keep `io` | not executed | ClassesDir.ClassesDirectory.DeleteOldAbstractedClasses, ClassesDir.AbsoluteDirKeepsEverything, ClassesDir.StaleVersionDirSurvives | ClassesDir.ClassesDirectory.DeleteOldAbstractedClassesByName |
