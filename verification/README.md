# embulk-junit5 test discovery, modelled in Dafny

This project models the discovery path of `EmbulkPluginTestEngine`, the JUnit
Platform test engine that runs `@EmbulkPluginTest` methods inside Embulk's
isolated plugin class loader, together with the pure configuration logic of
the Gradle-side `EmbulkJUnitPlatformTestFramework`.

Modelled:

- **Plugin class path parsing** (engine constructor). The value of the system
  property `org.embulk.junit5.plugin.class.path` is split on the path
  separator, matched literally, into an ordered list of entries. An absent or
  empty value gives no entries. The split follows Java's `String.split`:
  trailing empty segments are dropped, and a value without a separator is
  one entry.
- **Find-or-load resolution** (`findOrLoadClassFrom`, `LoadedClassFinder.findFrom`).
  The probe asks a *freshly built* `LoadedClassFinder` for its own loaded
  classes. The loader it wraps is stored but never read, so the probe always
  misses. Every class therefore comes from the plugin loader's
  `loadClassInThisClassLoader`. That call is an opaque oracle here: it either
  finds a class or fails. A failure becomes a `RuntimeException` wrapping
  `ClassNotFoundException`.
- **Descriptor tree construction** (`discover`). The root has the supplied
  `UniqueId`. Only class selectors are used, and only by their class name.
  Each resolved class gets a class node with id `root + ("class", name)`.
  Under it go method nodes for the `@EmbulkPluginTest` methods, in
  `getDeclaredMethods` order, each with id `root + ("method", name)`. Method
  ids extend the root id, not the class id. A class node is attached only
  if it has a child, and attached nodes keep selector order. One failed load
  aborts the whole call, and no partial tree is returned. `discover` is
  modelled as a left fold over the class names, the way the source's
  `forEach` runs. It is proved equal to a two-phase reference: first resolve
  every name, then attach the non-empty class nodes.
- **`validateOptions`** computes the tags that are both included and
  excluded. It logs the singular warning for one such tag. For several it
  logs the plural warning, listing them sorted, single-quoted and joined by
  `", "`. It never rejects, so `getProcessorFactory` still builds its spec.
  Also modelled: `copyWithFilters`, which replaces only the filter, and
  `getUseDistributionDependencies`.

Every operation is a pure function over immutable values. The plugin
loader's own load entry point is modelled as a fixed function of the class
name, so, given that oracle, repeated calls with the same arguments give the
same answer. The loader passed to the probe is unchanged. `validateOptions` builds a fresh intersection and leaves the
include and exclude tag sets alone. No separate lemmas state these facts.

Four facts of the code that a reader might not expect:

- Method ids extend the root id, not the class id.
- Methods keep `getDeclaredMethods` order (`DiscoveryScenarios.DeclaredOrderKept`).
- One unloadable selector aborts the whole discovery
  (`DiscoveryScenarios.MissingClassAbortsDiscovery`).
- `findFrom` never reads the wrapped loader; it consults a fresh finder's
  empty record.

One consequence of method ids extending the root id: test methods with the
same name in two different classes get equal ids
(`DiscoveryScenarios.SameNamedMethodsShareId`).

Files: `results.dfy` (Option and Result), `seqs.dfy` (order-preserving filter),
`strings.dfy` (split and join), `string_order.dfy` (Java string order, sorted
listing of a set), `java_classes.dfy` (classes, methods, loader records),
`loaded_class_finder.dfy`, `unique_ids.dfy`, `descriptors.dfy`,
`plugin_test_engine.dfy`, `test_framework.dfy`, and `discovery_scenarios.dfy`
(concrete examples).

## Model

| member | source | states |
|---|---|---|
| `EmbulkPluginTestEngine.PluginClassPath` | embulk-junit5-engine/src/main/java/org/embulk/junit5/engine/EmbulkPluginTestEngine.java:58-63 | An absent or empty property gives no entries. A value without the separator gives exactly that value. Otherwise the entries are the full split's segments, in order, minus only trailing empty ones, and the list never ends in an empty entry. No entry contains the separator. |
| `EmbulkPluginTestEngine.NewEngine` | embulk-junit5-engine/src/main/java/org/embulk/junit5/engine/EmbulkPluginTestEngine.java:58-82 | The engine's class path is the parsed property, no entry of it contains the separator, and the plugin loader is the factory's loader for exactly that class path. |
| `Strings.JavaSplit` | embulk-junit5-engine/src/main/java/org/embulk/junit5/engine/EmbulkPluginTestEngine.java:62 | A string without the separator comes back whole. Otherwise there are at most one more entries than separators, and the result does not end in an empty entry. No entry contains the separator. |
| `Strings.SplitAll` | embulk-junit5-engine/src/main/java/org/embulk/junit5/engine/EmbulkPluginTestEngine.java:62 | The full split has one segment more than there are separators, and no segment contains the separator. |
| `Strings.JoinSplitAll` | embulk-junit5-engine/src/main/java/org/embulk/junit5/engine/EmbulkPluginTestEngine.java:62 | Joining the segments with the separator gives back the original string. |
| `Strings.SplitAllJoin` | embulk-junit5-engine/src/main/java/org/embulk/junit5/engine/EmbulkPluginTestEngine.java:62 | Splitting a join of one or more separator-free segments gives back exactly those segments. So the split is the only such decomposition. |
| `Strings.JavaSplitSegments` | embulk-junit5-engine/src/main/java/org/embulk/junit5/engine/EmbulkPluginTestEngine.java:62 | Java's split keeps a prefix of the full split and loses only empty segments at its end. When the separator occurs, the result never ends in an empty segment. |
| `Strings.DropTrailingEmpty` | embulk-junit5-engine/src/main/java/org/embulk/junit5/engine/EmbulkPluginTestEngine.java:62 | The result is a prefix of its input. Everything removed is empty, and the result does not end in an empty string. |
| `JavaClasses.FindLoadedClass` | embulk-junit5-engine/src/main/java/org/embulk/junit5/engine/LoadedClassFinder.java:25 | The probe primitive finds a class iff one is recorded under exactly that name, and then it returns that class. |
| `LoadedClassFinder.NewFinder` | embulk-junit5-engine/src/main/java/org/embulk/junit5/engine/LoadedClassFinder.java:20-22 | A new finder wraps the given loader and has recorded no classes of its own. |
| `LoadedClassFinder.FindFrom` | embulk-junit5-engine/src/main/java/org/embulk/junit5/engine/LoadedClassFinder.java:24-26 | Because the probe queries the new finder's own empty record, it always returns absent. |
| `LoadedClassFinder.FindFromIgnoresLoader` | embulk-junit5-engine/src/main/java/org/embulk/junit5/engine/LoadedClassFinder.java:20-28 | The wrapped loader is never read: any two loaders give the same answer. |
| `LoadedClassFinder.FindFromMissesRecordedClass` | embulk-junit5-engine/src/main/java/org/embulk/junit5/engine/LoadedClassFinder.java:24-25 | A class already recorded in the passed-in loader is still reported absent. |
| `EmbulkPluginTestEngine.ProbeThenLoad` | embulk-junit5-engine/src/main/java/org/embulk/junit5/engine/EmbulkPluginTestEngine.java:212-222 | A probe hit is returned as is. On a miss, the result succeeds iff the plugin loader's own load finds the class, and then it is that class. A failure is always `RuntimeException(ClassNotFoundException(name))`. |
| `EmbulkPluginTestEngine.ProbeHitSkipsLoader` | embulk-junit5-engine/src/main/java/org/embulk/junit5/engine/EmbulkPluginTestEngine.java:211-215 | On a hit the loader plays no part: any two loaders give the hit. |
| `EmbulkPluginTestEngine.FindOrLoadClassFrom` | embulk-junit5-engine/src/main/java/org/embulk/junit5/engine/EmbulkPluginTestEngine.java:210-223 | Resolution succeeds iff `loadClassInThisClassLoader` on the plugin loader finds the class, and then returns exactly that class. Otherwise it fails with the unchecked fault naming the class. |
| `EmbulkPluginTestEngine.ResolvesInPluginLoader` | embulk-junit5-engine/src/main/java/org/embulk/junit5/engine/EmbulkPluginTestEngine.java:135-143 | Class identity is the loader oracle's business: this only carries its guarantee through resolution. If the plugin loader defines what it loads under the requested name, the resolved class has that name and is defined by the plugin loader, whatever class object the selector carried. |
| `EmbulkPluginTestEngine.FindOrLoadIgnoresRecord` | embulk-junit5-engine/src/main/java/org/embulk/junit5/engine/EmbulkPluginTestEngine.java:210-219 | Only the plugin loader's load entry point matters. What it has already recorded does not. |
| `UniqueIds.Append` | embulk-junit5-engine/src/main/java/org/embulk/junit5/engine/EmbulkPluginTestEngine.java:148 | Appending keeps the id as a prefix and adds exactly one (type, value) segment. |
| `EmbulkPluginTestEngine.BuildClassNode` | embulk-junit5-engine/src/main/java/org/embulk/junit5/engine/EmbulkPluginTestEngine.java:147-157 | The class node has id `root + ("class", getName())` and holds the resolved class. Its children's methods are the test methods in declared order. Each child's id is `root + ("method", name)`, and each child belongs to that class. |
| `EmbulkPluginTestEngine.ClassNodeChildren` | embulk-junit5-engine/src/main/java/org/embulk/junit5/engine/EmbulkPluginTestEngine.java:151-157 | The children are a subsequence of the declared methods. They include each annotated method as often as it is declared and no unannotated one. There are none iff the class declares no annotated method. |
| `EmbulkPluginTestEngine.MethodIdNotUnderClassId` | embulk-junit5-engine/src/main/java/org/embulk/junit5/engine/EmbulkPluginTestEngine.java:147-154 | A method id has the same length as its class id and the same root prefix, but differs from it. So a method id sits beside the class id under the root, not beneath it. |
| `EmbulkPluginTestEngine.Discover` | embulk-junit5-engine/src/main/java/org/embulk/junit5/engine/EmbulkPluginTestEngine.java:101-165 | The root id is exactly the supplied id. Discovery fails iff some class selector's name cannot be loaded, and then it fails with the first such selector's error and returns no tree. Every attached class node has a child. |
| `EmbulkPluginTestEngine.ClassNames` | embulk-junit5-engine/src/main/java/org/embulk/junit5/engine/EmbulkPluginTestEngine.java:113-135 | A name is listed iff some class selector of the request carries it. The list is empty iff the request has no class selector. |
| `EmbulkPluginTestEngine.ClassNamesSingle` | embulk-junit5-engine/src/main/java/org/embulk/junit5/engine/EmbulkPluginTestEngine.java:113-135 | A class selector contributes its name exactly once, and any other selector contributes nothing. With the append law this fixes the names of every request: one per class selector, in request order. |
| `EmbulkPluginTestEngine.ClassNamesAppend` | embulk-junit5-engine/src/main/java/org/embulk/junit5/engine/EmbulkPluginTestEngine.java:113 | The names follow request order: the names of a concatenated request are the first part's names followed by the second part's. |
| `EmbulkPluginTestEngine.ResolveAllSpec` | embulk-junit5-engine/src/main/java/org/embulk/junit5/engine/EmbulkPluginTestEngine.java:113-143 | Resolving the selector names in order succeeds iff every name resolves, giving the classes in name order. Otherwise it fails with the error of the first name that does not resolve. |
| `EmbulkPluginTestEngine.DiscoverFoldFailureSticks` | embulk-junit5-engine/src/main/java/org/embulk/junit5/engine/EmbulkPluginTestEngine.java:218-222 | Once a load has failed, no later selector changes the outcome: the discovery stays failed with that error. |
| `EmbulkPluginTestEngine.DiscoverFoldMatchesReference` | embulk-junit5-engine/src/main/java/org/embulk/junit5/engine/EmbulkPluginTestEngine.java:113-162 | The per-selector loop gives the same result as the two-phase reference. The reference first resolves every name, then attaches the non-empty class nodes after those already attached. |
| `EmbulkPluginTestEngine.DiscoverAttachesClassesWithTests` | embulk-junit5-engine/src/main/java/org/embulk/junit5/engine/EmbulkPluginTestEngine.java:159-161 | After a successful discovery, the attached nodes are exactly the two-phase reference's: the resolved classes' nodes that have a child. They are a subsequence, in selector order, of the resolved classes' nodes. A resolved class's node is attached iff the class declares an annotated method. |
| `EmbulkPluginTestEngine.DiscoverUsesOnlyClassNames` | embulk-junit5-engine/src/main/java/org/embulk/junit5/engine/EmbulkPluginTestEngine.java:132-135 | Two requests whose class selectors have the same names give the same discovery result, whatever class objects the selectors carry and whatever other selectors are present. |
| `EmbulkPluginTestEngine.DiscoverIgnoresLoaderRecord` | embulk-junit5-engine/src/main/java/org/embulk/junit5/engine/EmbulkPluginTestEngine.java:143 | Engines whose plugin loaders load alike discover alike, whatever those loaders have already recorded. |
| `EmbulkPluginTestEngine.EngineIdentity` | embulk-junit5-engine/src/main/java/org/embulk/junit5/engine/EmbulkPluginTestEngine.java:88-181 | The artifact id equals the engine id `embulk-junit5-engine`. The group id is `org.embulk`. |
| `StringOrder.Sorted` | build-logic/src/main/java/org/embulk/junit5/EmbulkJUnitPlatformTestFramework.java:189 | Lists a finite set of strings with each member exactly once and nothing else, in strictly ascending `compareTo` order. |
| `StringOrder.BelowIffCompareTo` | build-logic/src/main/java/org/embulk/junit5/EmbulkJUnitPlatformTestFramework.java:189 | The order used for sorting is `compareTo(a, b) <= 0`, where `compareTo` gives the difference of the first differing characters, or else of the lengths. |
| `StringOrder.CompareToAntisymmetric` | build-logic/src/main/java/org/embulk/junit5/EmbulkJUnitPlatformTestFramework.java:189 | Swapping the two strings negates `compareTo`. |
| `StringOrder.CompareToZero` | build-logic/src/main/java/org/embulk/junit5/EmbulkJUnitPlatformTestFramework.java:189 | `compareTo` is zero exactly when the strings are equal. |
| `StringOrder.BelowReflexive` | build-logic/src/main/java/org/embulk/junit5/EmbulkJUnitPlatformTestFramework.java:189 | Every string is below itself. |
| `StringOrder.BelowTotal` | build-logic/src/main/java/org/embulk/junit5/EmbulkJUnitPlatformTestFramework.java:189 | Any two strings are comparable. |
| `StringOrder.BelowAntisymmetric` | build-logic/src/main/java/org/embulk/junit5/EmbulkJUnitPlatformTestFramework.java:189 | Two strings each below the other are equal. |
| `StringOrder.BelowTransitive` | build-logic/src/main/java/org/embulk/junit5/EmbulkJUnitPlatformTestFramework.java:189 | The order is transitive, so it is a total order and sorting by it is well defined. |
| `EmbulkJUnitPlatformTestFramework.NewFramework` | build-logic/src/main/java/org/embulk/junit5/EmbulkJUnitPlatformTestFramework.java:54-69 | The public constructor stores the given filter, `useImplementationDependencies` flag and dry-run value, and starts with no engines or tags selected. |
| `EmbulkJUnitPlatformTestFramework.CopyWithFilters` | build-logic/src/main/java/org/embulk/junit5/EmbulkJUnitPlatformTestFramework.java:80-90 | The copy has the new filter. It keeps `useImplementationDependencies`, `dryRun` and the options' contents, and differs from the original in the filter alone. |
| `EmbulkJUnitPlatformTestFramework.CopyWithFiltersLaws` | build-logic/src/main/java/org/embulk/junit5/EmbulkJUnitPlatformTestFramework.java:80-90 | Copying with the current filter changes nothing. Of two successive copies, only the last filter survives. Copying keeps the distribution-dependency flag. |
| `EmbulkJUnitPlatformTestFramework.UseDistributionDependencies` | build-logic/src/main/java/org/embulk/junit5/EmbulkJUnitPlatformTestFramework.java:154-156 | `getUseDistributionDependencies` reports the framework's `useImplementationDependencies` field. |
| `EmbulkJUnitPlatformTestFramework.UseDistributionDependenciesIsConstructorFlag` | build-logic/src/main/java/org/embulk/junit5/EmbulkJUnitPlatformTestFramework.java:154-156 | `getUseDistributionDependencies` returns the flag given to the constructor. |
| `EmbulkJUnitPlatformTestFramework.ValidateOptions` | build-logic/src/main/java/org/embulk/junit5/EmbulkJUnitPlatformTestFramework.java:179-195 | A warning is logged iff some tag is both included and excluded. With exactly one such tag, it is the singular message naming that tag in single quotes. With two or more, it is the plural message over the sorted, quoted, comma-joined list. |
| `EmbulkJUnitPlatformTestFramework.PluralWarningTags` | build-logic/src/main/java/org/embulk/junit5/EmbulkJUnitPlatformTestFramework.java:188-192 | The plural message lists exactly the common tags, each once, in strictly ascending order. |
| `EmbulkJUnitPlatformTestFramework.NewFrameworkDoesNotWarn` | build-logic/src/main/java/org/embulk/junit5/EmbulkJUnitPlatformTestFramework.java:54-59 | A framework built by the public constructor has no tags, so it never warns. |
| `EmbulkJUnitPlatformTestFramework.ProcessorFactory` | build-logic/src/main/java/org/embulk/junit5/EmbulkJUnitPlatformTestFramework.java:106-114 | The tag check only warns. The spec is always built, from the filter, the four engine and tag sets as they are, and the dry-run value. |
| `EmbulkJUnitPlatformTestFramework.CopyBuildsSameFactory` | build-logic/src/main/java/org/embulk/junit5/EmbulkJUnitPlatformTestFramework.java:80-89 | A copy with new filters builds the original's spec, except for the filter, and logs the same warning. |
| `DiscoveryScenarios.OneOfTwoClassesAttached` | embulk-junit5-engine/src/main/java/org/embulk/junit5/engine/EmbulkPluginTestEngine.java:143-161 | Selectors `pkg.A`, with test `t1`, and `pkg.B`, with none, give a tree with only the plugin loader's `pkg.A` and its `t1`. The top-level `pkg.A` the selector carries is not used. |
| `DiscoveryScenarios.MissingClassAbortsDiscovery` | embulk-junit5-engine/src/main/java/org/embulk/junit5/engine/EmbulkPluginTestEngine.java:218-222 | An unloadable first selector fails the whole discovery, even though a good sibling selector follows. |
| `DiscoveryScenarios.SameNamedMethodsShareId` | embulk-junit5-engine/src/main/java/org/embulk/junit5/engine/EmbulkPluginTestEngine.java:147-154 | Test methods with the same name in two classes get equal method ids, while the two class ids differ. |
| `DiscoveryScenarios.DeclaredOrderKept` | embulk-junit5-engine/src/main/java/org/embulk/junit5/engine/EmbulkPluginTestEngine.java:151-157 | Method children follow declared order and are not sorted by name. |
| `DiscoveryScenarios.ClassPathKeepsInnerEmptySegments` | embulk-junit5-engine/src/main/java/org/embulk/junit5/engine/EmbulkPluginTestEngine.java:61-62 | `a::b:` gives `a`, an empty entry, and `b`: the inner empty segment is kept and the trailing one dropped. |
| `DiscoveryScenarios.ClassPathEdgeCases` | embulk-junit5-engine/src/main/java/org/embulk/junit5/engine/EmbulkPluginTestEngine.java:61-62 | A lone separator gives no entries. A value without a separator gives one entry. An absent property gives none. |
| `DiscoveryScenarios.TwoCommonTagsWarning` | build-logic/src/main/java/org/embulk/junit5/EmbulkJUnitPlatformTestFramework.java:188-192 | Include tags `slow`, `db`, `fast` with exclude tags `slow`, `db` give the plural warning listing `'db', 'slow'`. |

## Left out

- `checkClass` debug probes, all logging, and `System.out.println` are left out. They are assumed to complete normally. `checkClass` catches only `ClassNotFoundException`, and `Class.forName` also initializes the class, so a `LinkageError` or `ExceptionInInitializerError` it throws would escape `discover` before the selector is resolved; that path is not modelled.
- The `LauncherDiscoveryRequest` branch of `discover`: it only logs.
- Path-to-URI-to-URL conversion and its exceptions (`InvalidPathException`, `MalformedURLException`, `IllegalArgumentException`): this is filesystem and JDK behaviour. Class path entries are kept as the path strings.
- `File.pathSeparator` is a parameter, not read from the platform.
- `PluginClassLoaderFactoryImpl.of()` and `create(...)` are left out: the loader factory is a function parameter of `NewEngine`.
- `loadClassInThisClassLoader` is left out, with its `resolve = false` argument: its internals are not part of this model. It is an oracle that finds a class or fails, and throwables other than `ClassNotFoundException` are not modelled.
- Reflection: `getDeclaredMethods` is a list carried by the class value, and `isAnnotationPresent(EmbulkPluginTest.class)` is a flag on each method. Both are assumed to complete normally; a `NoClassDefFoundError` or `SecurityException` from them would escape `discover` unmodelled.
- The `ClassNotFoundException` inside the fault is whatever the loader throws; the model represents it by the requested class name alone.
- `ClassTestDescriptor` and `MethodTestDescriptor` are not part of this model. Descriptors are plain values, and children are sequences with no deduplication.
- `createExecutorService`, `createThrowableCollectorFactory`, `createExecutionContext` and test execution are left out: they are execution plumbing, not discovery.
- Concurrency is not modelled: discovery runs on one thread and the code takes no locks.
- The plugin loader's load entry point is assumed stateless: a repeated load of a name it has already defined returns the same class. Re-definition errors such as `LinkageError` are not modelled; `findOrLoadClassFrom` catches only `ClassNotFoundException`, so they would escape `discover` unwrapped.
- Gradle wiring is left out: `getProcessorFactory`'s Java-version check, `getWorkerConfigurationAction`, `getWorkerApplicationModulepathModules` and its distribution modules, `getDetector`, `getOptions`, `close`, the plugin and task classes, and the obsolete processor factory.
- The cast of the new filter to `DefaultTestFilter` is not modelled (the filter is taken to be one). `toSpec()` passes the filter value through.
- `dryRun` is modelled by the value its `Provider` yields.
- `JUnitPlatformOptions.copyFrom` is modelled as copying the four engine and tag sets.
- `ExampleInputPlugin` and `TestExample1` are left out: they are a demo plugin and its runtime assertions.
- StringOrder.Sorted: compares characters by Unicode scalar value, and so does `StringOrder.CompareTo`. Java's `String.compareTo` compares UTF-16 code units, and the two orders differ only between supplementary characters and those from U+E000 to U+FFFF.
