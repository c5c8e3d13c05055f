/**
 Concrete examples of the model: discovery over a small plugin loader, class
 path parsing, and the tag warning.
 */
module DiscoveryScenarios {
  import opened Results
  import opened JavaClasses
  import opened UniqueIds
  import opened Descriptors
  import opened StringOrder
  import opened EmbulkPluginTestEngine
  import opened EmbulkJUnitPlatformTestFramework

  const Root: UniqueId := [Segment("engine", "embulk-junit5-engine")]

  /** The worker's top-level loader and the plugin loader. */
  const TopLevelLoaderId: LoaderId := 0
  const PluginLoaderId: LoaderId := 1

  const ClassA := JavaClass("pkg.A", PluginLoaderId, [Method("helper", false), Method("t1", true)])
  const ClassB := JavaClass("pkg.B", PluginLoaderId, [Method("helper", false)])
  const ClassC := JavaClass("pkg.C", PluginLoaderId, [Method("t1", true)])

  /** `pkg.A` as the build tool's worker already loaded it: same name, other loader. */
  const TopLevelA := JavaClass("pkg.A", TopLevelLoaderId, [Method("helper", false), Method("t1", true)])

  function LoadInPlugin(name: string): LoadOutcome
  {
    if name == "pkg.A" then Found(ClassA)
    else if name == "pkg.B" then Found(ClassB)
    else if name == "pkg.C" then Found(ClassC)
    else NotFound
  }

  /** The plugin loader has already recorded `pkg.A`; the probe does not see it. */
  const Plugin := PluginLoader(ClassLoader(PluginLoaderId, map["pkg.A" := ClassA]), LoadInPlugin)

  const TestEngine := Engine([], Plugin)

  /**
   Selectors `pkg.A` (one test method `t1`) and `pkg.B` (none): the tree holds
   the plugin loader's `pkg.A` with `t1`, and no node for `pkg.B`.
   */
  lemma OneOfTwoClassesAttached()
    ensures Discover(TestEngine, [ClassSelector("pkg.A", TopLevelA), ClassSelector("pkg.B", ClassB)], Root)
      == Success(EngineNode(Root, [
           ClassNode(Root + [Segment("class", "pkg.A")], ClassA,
                     [MethodNode(Root + [Segment("method", "t1")], ClassA, Method("t1", true))])]))
  {
    var request := [ClassSelector("pkg.A", TopLevelA), ClassSelector("pkg.B", ClassB)];
    Seqs.FilterKeepsAll(request, IsClassSelector);
    assert ClassNames(request) == ["pkg.A", "pkg.B"];
    var nodeA := BuildClassNode(Root, ClassA);
    assert ClassA.declaredMethods[1..] == [Method("t1", true)];
    assert nodeA.children == [MethodNode(Root + [Segment("method", "t1")], ClassA, Method("t1", true))];
    assert BuildClassNode(Root, ClassB).children == [];
    assert FindOrLoadClassFrom(Plugin, "pkg.A") == Success(ClassA);
    assert FindOrLoadClassFrom(Plugin, "pkg.B") == Success(ClassB);
    var afterA := DiscoverStep(Success([]), Plugin, Root, "pkg.A");
    assert HasChildren(nodeA);
    assert [] + [nodeA] == [nodeA];
    assert afterA == Success([nodeA]);
    assert DiscoverStep(afterA, Plugin, Root, "pkg.B") == Success([nodeA]);
    assert ["pkg.A", "pkg.B"][1..] == ["pkg.B"];
    assert DiscoverFold(Success([]), Plugin, Root, ["pkg.A", "pkg.B"]) == Success([nodeA]);
  }

  /** A name the plugin loader cannot load aborts discovery, even with a good sibling selector. */
  lemma MissingClassAbortsDiscovery()
    ensures Discover(TestEngine, [ClassSelector("pkg.Missing", TopLevelA), ClassSelector("pkg.A", TopLevelA)], Root)
      == Failure(RuntimeException(ClassNotFoundException("pkg.Missing")))
  {
    var request := [ClassSelector("pkg.Missing", TopLevelA), ClassSelector("pkg.A", TopLevelA)];
    Seqs.FilterKeepsAll(request, IsClassSelector);
    assert ClassNames(request) == ["pkg.Missing", "pkg.A"];
    assert FindOrLoadClassFrom(Plugin, "pkg.Missing").Failure?;
  }

  /**
   Method ids extend the root id, so test methods of the same name in two
   classes get the same id.
   */
  lemma SameNamedMethodsShareId()
    ensures var a := BuildClassNode(Root, ClassA);
      var c := BuildClassNode(Root, ClassC);
      && |a.children| == 1 && |c.children| == 1
      && a.children[0].id == c.children[0].id
      && a.id != c.id
  {
    assert ClassA.declaredMethods[1..] == [Method("t1", true)];
    assert ClassC.declaredMethods[1..] == [];
    assert Append(Root, "class", "pkg.A")[1].value == "pkg.A";
  }

  /** Children follow `getDeclaredMethods` order; nothing sorts them. */
  lemma DeclaredOrderKept()
    ensures var k := JavaClass("pkg.D", PluginLoaderId, [Method("b", true), Method("a", true)]);
      MethodsOf(BuildClassNode(Root, k).children) == [Method("b", true), Method("a", true)]
  {
    var ms := [Method("b", true), Method("a", true)];
    assert ms[1..][1..] == [];
  }

  /** Empty middle segments are kept and trailing ones dropped. */
  lemma ClassPathKeepsInnerEmptySegments()
    ensures PluginClassPath(Some("a::b:"), ':') == ["a", "", "b"]
  {
    var parts := ["a", "", "b", ""];
    assert Strings.Join(parts[3..], [':']) == "";
    assert Strings.Join(parts[2..], [':']) == "b:";
    assert Strings.Join(parts[1..], [':']) == ":b:";
    assert Strings.Join(parts, [':']) == "a::b:";
    Strings.SplitAllJoin(parts, ':');
    assert ':' in "a::b:" by { assert "a::b:"[1] == ':'; }
    assert parts[..3] == ["a", "", "b"];
    assert Strings.DropTrailingEmpty(parts) == Strings.DropTrailingEmpty(parts[..3]);
  }

  /** A lone separator gives no entry; absent or separator-free values give none or one. */
  lemma ClassPathEdgeCases()
    ensures PluginClassPath(Some(":"), ':') == []
    ensures PluginClassPath(Some("/a.jar"), ':') == ["/a.jar"]
    ensures PluginClassPath(None, ':') == []
  {
    assert ':' in ":" by { assert ":"[0] == ':'; }
    assert Strings.SplitAll(":", ':') == ["", ""];
    assert ':' !in "/a.jar";
  }

  /** Two common tags: both listed, quoted, in ascending order. */
  lemma TwoCommonTagsWarning()
    ensures ValidateOptions(PlatformOptions({}, {}, {"slow", "db", "fast"}, {"slow", "db"}))
      == Some(PluralWarning("'db', 'slow'"))
  {
    var common := {"slow", "db", "fast"} * {"slow", "db"};
    assert common == {"db", "slow"};
    assert |common| == 2;
    var tags := Sorted(common);
    assert tags[0] in common && tags[1] in common && tags[0] != tags[1];
    assert !Below("slow", "db");
    assert tags == ["db", "slow"];
    assert Quote("db") == "'db'";
    assert Quote("slow") == "'slow'";
    var quoted := seq(|tags|, i requires 0 <= i < |tags| => Quote(tags[i]));
    assert quoted == ["'db'", "'slow'"];
    assert Strings.Join(quoted, ", ") == "'db'" + ", " + Strings.Join(quoted[1..], ", ");
    assert quoted[1..] == ["'slow'"];
    assert QuotedList(tags) == "'db', 'slow'";
  }
}
