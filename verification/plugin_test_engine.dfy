/**
 `EmbulkPluginTestEngine`: the JUnit Platform engine that discovers
 `@EmbulkPluginTest` methods in test classes resolved by name inside Embulk's
 plugin class loader.
 */
module EmbulkPluginTestEngine {
  import opened Results
  import opened Seqs
  import opened Strings
  import opened JavaClasses
  import opened UniqueIds
  import opened Descriptors
  import LoadedClassFinder

  /** `getId()`. */
  const EngineId: string := "embulk-junit5-engine"

  /** `getGroupId()`. */
  const GroupId: Option<string> := Some("org.embulk")

  /** `getArtifactId()`. */
  const ArtifactId: Option<string> := Some("embulk-junit5-engine")

  /** Name of the system property holding the plugin class path. */
  const ClassPathProperty: string := "org.embulk.junit5.plugin.class.path"

  /** What `loadClassInThisClassLoader(name, false)` does: return a class or throw `ClassNotFoundException`. */
  datatype LoadOutcome = Found(loadedClass: JavaClass) | NotFound

  /**
   The `PluginClassLoader`: its `ClassLoader` state and its own load entry
   point, an oracle whose workings are not part of this model.
   */
  datatype PluginLoader = PluginLoader(base: ClassLoader, loadInThis: string -> LoadOutcome)

  datatype ClassNotFoundException = ClassNotFoundException(className: string)

  /** The unchecked `RuntimeException` that wraps a failed load and escapes `discover`. */
  datatype Fault = RuntimeException(cause: ClassNotFoundException)

  /** An engine instance: the parsed plugin class path and the loader built from it once. */
  datatype Engine = Engine(classPath: seq<string>, pluginLoader: PluginLoader)

  /**
   A discovery selector. A class selector carries both the class name and a
   class object bound in the caller's loader; other kinds are not consumed.
   */
  datatype Selector = ClassSelector(className: string, javaClass: JavaClass) | OtherSelector(kind: string)

  // ---------------------------------------------------------------- construction

  /**
   The plugin class path entries read from the system property: nothing for an
   absent or empty value; otherwise Java's split on the literal separator,
   which keeps every segment in order except empty ones at the end.
   */
  function PluginClassPath(property: Option<string>, pathSeparator: char): (entries: seq<string>)
    ensures property.None? || property == Some("") ==> entries == []
    ensures property.Some? && property.value != "" && pathSeparator !in property.value ==>
      entries == [property.value]
    ensures property.Some? && pathSeparator in property.value ==>
      var segments := SplitAll(property.value, pathSeparator);
      && |entries| <= |segments|
      && entries == segments[..|entries|]
      && (forall i :: |entries| <= i < |segments| ==> segments[i] == "")
      && (entries == [] || entries[|entries| - 1] != "")
    ensures forall i :: 0 <= i < |entries| ==> pathSeparator !in entries[i]
  {
    match property
    case None => []
    case Some(s) =>
      if s == "" then []
      else
        JavaSplitSegments(s, pathSeparator);
        JavaSplit(s, pathSeparator)
  }

  /**
   The constructor: parse the class path once and let the loader factory
   build the plugin loader from it.
   */
  function NewEngine(property: Option<string>, pathSeparator: char,
                     createLoader: seq<string> -> PluginLoader): (e: Engine)
    ensures e.classPath == PluginClassPath(property, pathSeparator)
    ensures e.pluginLoader == createLoader(e.classPath)
    ensures forall i :: 0 <= i < |e.classPath| ==> pathSeparator !in e.classPath[i]
  {
    var classPath := PluginClassPath(property, pathSeparator);
    Engine(classPath, createLoader(classPath))
  }

  // ---------------------------------------------------------------- resolution

  /**
   Lines after the probe in `findOrLoadClassFrom`: a hit is returned as is;
   on a miss the plugin loader loads the class in itself, and a failed load
   becomes an unchecked fault naming the class.
   */
  function ProbeThenLoad(found: Option<JavaClass>, loader: PluginLoader, name: string): (r: Result<JavaClass, Fault>)
    ensures found.Some? ==> r == Success(found.value)
    ensures found.None? ==> (r.Success? <==> loader.loadInThis(name).Found?)
    ensures found.None? && r.Success? ==> r.value == loader.loadInThis(name).loadedClass
    ensures r.Failure? ==> r.error == RuntimeException(ClassNotFoundException(name))
  {
    match found
    case Some(c) => Success(c)
    case None =>
      match loader.loadInThis(name)
      case Found(c) => Success(c)
      case NotFound => Failure(RuntimeException(ClassNotFoundException(name)))
  }

  /** On a probe hit the loader is never consulted: any two loaders give the hit. */
  lemma ProbeHitSkipsLoader(hit: JavaClass, a: PluginLoader, b: PluginLoader, name: string)
    ensures ProbeThenLoad(Some(hit), a, name) == ProbeThenLoad(Some(hit), b, name) == Success(hit)
  {
  }

  /**
   `findOrLoadClassFrom`: probe, then load in the plugin loader. Since the
   probe always misses, the answer is exactly what the plugin loader's own
   load entry point gives.
   */
  function FindOrLoadClassFrom(loader: PluginLoader, name: string): (r: Result<JavaClass, Fault>)
    ensures r.Success? <==> loader.loadInThis(name).Found?
    ensures r.Success? ==> r.value == loader.loadInThis(name).loadedClass
    ensures r.Failure? ==> r.error == RuntimeException(ClassNotFoundException(name))
  {
    ProbeThenLoad(LoadedClassFinder.FindFrom(loader.base, name), loader, name)
  }

  /** The plugin loader defines every class it loads, under the requested name. */
  ghost predicate DefinesInItself(loader: PluginLoader)
  {
    forall n :: loader.loadInThis(n).Found? ==>
      loader.loadInThis(n).loadedClass.name == n && loader.loadInThis(n).loadedClass.definingLoader == loader.base.id
  }

  /**
   Resolution hands back the plugin loader's own class identity for the
   requested name, never one from another loader.
   */
  lemma ResolvesInPluginLoader(loader: PluginLoader, name: string)
    requires DefinesInItself(loader)
    requires loader.loadInThis(name).Found?
    ensures FindOrLoadClassFrom(loader, name).Success?
    ensures FindOrLoadClassFrom(loader, name).value.name == name
    ensures FindOrLoadClassFrom(loader, name).value.definingLoader == loader.base.id
  {
  }

  /** The loader's recorded classes play no part: only its load entry point matters. */
  lemma FindOrLoadIgnoresRecord(a: PluginLoader, b: PluginLoader, name: string)
    requires a.loadInThis == b.loadInThis
    ensures FindOrLoadClassFrom(a, name) == FindOrLoadClassFrom(b, name)
  {
  }

  // ---------------------------------------------------------------- descriptors

  predicate IsTest(m: Method) { m.isTest }

  predicate HasChildren(node: ClassNode) { node.children != [] }

  /**
   The class descriptor for a resolved test class: id `root + ("class", name)`,
   with one method descriptor per `@EmbulkPluginTest` method in declared order.
   Method ids extend the ROOT id, not the class id.
   */
  function BuildClassNode(root: UniqueId, testClass: JavaClass): (node: ClassNode)
    ensures node.id == Append(root, "class", testClass.name)
    ensures node.testClass == testClass
    ensures MethodsOf(node.children) == Filter(testClass.declaredMethods, IsTest)
    ensures forall i :: 0 <= i < |node.children| ==>
      node.children[i].id == Append(root, "method", node.children[i].testMethod.name)
      && node.children[i].testClass == testClass
  {
    var tests := Filter(testClass.declaredMethods, IsTest);
    var children := seq(|tests|, i requires 0 <= i < |tests| =>
      MethodNode(Append(root, "method", tests[i].name), testClass, tests[i]));
    assert MethodsOf(children) == tests;
    ClassNode(Append(root, "class", testClass.name), testClass, children)
  }

  /**
   The children of a class descriptor are exactly its test methods: in
   declared order, each test method as often as it is declared, no other
   method, and none at all iff the class declares no test method.
   */
  lemma ClassNodeChildren(root: UniqueId, testClass: JavaClass)
    ensures var methods := MethodsOf(BuildClassNode(root, testClass).children);
      && IsSubsequence(methods, testClass.declaredMethods)
      && (forall m :: Count(methods, m) == (if m.isTest then Count(testClass.declaredMethods, m) else 0))
      && (forall i :: 0 <= i < |methods| ==> methods[i].isTest)
    ensures HasChildren(BuildClassNode(root, testClass)) <==>
      exists j :: 0 <= j < |testClass.declaredMethods| && testClass.declaredMethods[j].isTest
  {
    var node := BuildClassNode(root, testClass);
    forall m ensures Count(MethodsOf(node.children), m) == (if m.isTest then Count(testClass.declaredMethods, m) else 0) {
      FilterCount(testClass.declaredMethods, IsTest, m);
    }
    if node.children == [] {
      assert MethodsOf(node.children) == [];
    } else {
      assert MethodsOf(node.children) != [];
    }
  }

  /**
   A method descriptor's id is a sibling of its class descriptor's id under the
   root, not an extension of it.
   */
  lemma MethodIdNotUnderClassId(root: UniqueId, testClass: JavaClass, i: nat)
    requires i < |BuildClassNode(root, testClass).children|
    ensures var node := BuildClassNode(root, testClass);
      && |node.children[i].id| == |node.id|
      && node.children[i].id[..|root|] == root
      && node.children[i].id != node.id
  {
    var node := BuildClassNode(root, testClass);
    assert node.children[i].id[|root|].kind == "method";
    assert node.id[|root|].kind == "class";
  }

  // ---------------------------------------------------------------- discovery

  predicate IsClassSelector(s: Selector) { s.ClassSelector? }

  /**
   `getSelectorsByType(ClassSelector.class)` followed by `getClassName()`: the
   names of the class selectors, in request order.
   */
  function ClassNames(request: seq<Selector>): (names: seq<string>)
    ensures forall n :: n in names <==>
      exists j :: 0 <= j < |request| && request[j].ClassSelector? && request[j].className == n
    ensures names == [] <==> forall j :: 0 <= j < |request| ==> !request[j].ClassSelector?
  {
    var selectors := Filter(request, IsClassSelector);
    FilterMembership(request, IsClassSelector);
    var names := seq(|selectors|, i requires 0 <= i < |selectors| => selectors[i].className);
    assert forall n :: n in names ==>
      exists j :: 0 <= j < |request| && request[j].ClassSelector? && request[j].className == n
    by {
      forall n | n in names
        ensures exists j :: 0 <= j < |request| && request[j].ClassSelector? && request[j].className == n
      {
        var i :| 0 <= i < |names| && names[i] == n;
        assert selectors[i] in request;
      }
    }
    assert forall j :: 0 <= j < |request| && request[j].ClassSelector? ==> request[j].className in names
    by {
      forall j | 0 <= j < |request| && request[j].ClassSelector?
        ensures request[j].className in names
      {
        assert request[j] in selectors;
        var i :| 0 <= i < |selectors| && selectors[i] == request[j];
        assert names[i] == request[j].className;
      }
    }
    names
  }

  /** A single selector contributes its name once if it is a class selector, and nothing otherwise. */
  lemma ClassNamesSingle(s: Selector)
    ensures ClassNames([s]) == (if s.ClassSelector? then [s.className] else [])
  {
  }

  /** Names of a concatenated request: the first part's, then the second's, in order. */
  lemma ClassNamesAppend(a: seq<Selector>, b: seq<Selector>)
    ensures ClassNames(a + b) == ClassNames(a) + ClassNames(b)
  {
    FilterAppend(a, b, IsClassSelector);
  }

  /** One iteration of the `forEach` body over the attached class descriptors so far. */
  function DiscoverStep(acc: Result<seq<ClassNode>, Fault>, loader: PluginLoader, root: UniqueId, name: string)
    : Result<seq<ClassNode>, Fault>
  {
    match acc
    case Failure(_) => acc
    case Success(attached) =>
      match FindOrLoadClassFrom(loader, name)
      case Failure(e) => Failure(e)
      case Success(testClass) =>
        var node := BuildClassNode(root, testClass);
        Success(if HasChildren(node) then attached + [node] else attached)
  }

  /** The `forEach` loop: a left fold of `DiscoverStep` over the class names. */
  function DiscoverFold(acc: Result<seq<ClassNode>, Fault>, loader: PluginLoader, root: UniqueId, names: seq<string>)
    : Result<seq<ClassNode>, Fault>
    decreases |names|
  {
    if names == [] then acc
    else DiscoverFold(DiscoverStep(acc, loader, root, names[0]), loader, root, names[1..])
  }

  /**
   `discover`: the root descriptor has exactly the supplied id; discovery fails
   iff some class selector's name cannot be loaded, and then the whole call
   fails with no partial tree; every attached class descriptor has a child.
   */
  function Discover(engine: Engine, request: seq<Selector>, root: UniqueId): (r: Result<EngineNode, Fault>)
    ensures r.Success? ==> r.value.id == root
    ensures r.Failure? <==>
      exists i :: 0 <= i < |ClassNames(request)| && FindOrLoadClassFrom(engine.pluginLoader, ClassNames(request)[i]).Failure?
    ensures r.Failure? ==>
      exists i :: 0 <= i < |ClassNames(request)|
        && FindOrLoadClassFrom(engine.pluginLoader, ClassNames(request)[i]) == Failure(r.error)
        && forall j :: 0 <= j < i ==> FindOrLoadClassFrom(engine.pluginLoader, ClassNames(request)[j]).Success?
    ensures r.Success? ==> forall k :: 0 <= k < |r.value.children| ==> HasChildren(r.value.children[k])
  {
    var names := ClassNames(request);
    DiscoverFoldMatchesReference([], engine.pluginLoader, root, names);
    ResolveAllSpec(engine.pluginLoader, names);
    match DiscoverFold(Success([]), engine.pluginLoader, root, names)
    case Success(attached) => Success(EngineNode(root, attached))
    case Failure(e) => Failure(e)
  }

  // ---------------------------------------------------------------- reference definition

  /** Resolve every name in order, stopping at the first failure. */
  function ResolveAll(loader: PluginLoader, names: seq<string>): Result<seq<JavaClass>, Fault>
  {
    if names == [] then Success([])
    else
      match FindOrLoadClassFrom(loader, names[0])
      case Failure(e) => Failure(e)
      case Success(c) =>
        match ResolveAll(loader, names[1..])
        case Failure(e) => Failure(e)
        case Success(cs) => Success([c] + cs)
  }

  /**
   Resolving all names succeeds iff each name resolves, giving the classes in
   name order; otherwise it fails with the error of the first name that does not.
   */
  lemma {:induction false} ResolveAllSpec(loader: PluginLoader, names: seq<string>)
    ensures var r := ResolveAll(loader, names);
      && (r.Success? <==> forall i :: 0 <= i < |names| ==> FindOrLoadClassFrom(loader, names[i]).Success?)
      && (r.Success? ==>
            |r.value| == |names| && forall i :: 0 <= i < |names| ==> FindOrLoadClassFrom(loader, names[i]) == Success(r.value[i]))
      && (r.Failure? ==>
            exists i :: 0 <= i < |names|
              && FindOrLoadClassFrom(loader, names[i]) == Failure(r.error)
              && forall j :: 0 <= j < i ==> FindOrLoadClassFrom(loader, names[j]).Success?)
    decreases |names|
  {
    if names != [] {
      var tail := names[1..];
      assert forall i :: 1 <= i < |names| ==> names[i] == tail[i - 1];
      ResolveAllSpec(loader, tail);
      match FindOrLoadClassFrom(loader, names[0])
      case Failure(e) =>
        assert ResolveAll(loader, names) == Failure(e);
      case Success(c) =>
        match ResolveAll(loader, tail)
        case Failure(e) =>
          var i :| 0 <= i < |tail| && FindOrLoadClassFrom(loader, tail[i]) == Failure(e)
            && forall j :: 0 <= j < i ==> FindOrLoadClassFrom(loader, tail[j]).Success?;
          assert FindOrLoadClassFrom(loader, names[i + 1]) == Failure(e);
          assert forall j :: 0 <= j < i + 1 ==> FindOrLoadClassFrom(loader, names[j]).Success?;
        case Success(cs) =>
          assert ResolveAll(loader, names) == Success([c] + cs);
    }
  }

  /** The class descriptors of `classes`, in order. */
  function BuildAll(root: UniqueId, classes: seq<JavaClass>): (nodes: seq<ClassNode>)
    ensures |nodes| == |classes|
    ensures forall i :: 0 <= i < |classes| ==> nodes[i] == BuildClassNode(root, classes[i])
  {
    seq(|classes|, i requires 0 <= i < |classes| => BuildClassNode(root, classes[i]))
  }

  /** The class descriptors of `classes` that have a child, in order. */
  function Attach(root: UniqueId, classes: seq<JavaClass>): seq<ClassNode>
  {
    Filter(BuildAll(root, classes), HasChildren)
  }

  lemma {:induction false} DiscoverFoldFailureSticks(e: Fault, loader: PluginLoader, root: UniqueId, names: seq<string>)
    ensures DiscoverFold(Failure(e), loader, root, names) == Failure(e)
    decreases |names|
  {
    if names != [] {
      DiscoverFoldFailureSticks(e, loader, root, names[1..]);
    }
  }

  /** What the reference gives after `acc` has been attached: `acc` extended, or the failure. */
  function AttachAfter(acc: seq<ClassNode>, root: UniqueId, resolved: Result<seq<JavaClass>, Fault>)
    : Result<seq<ClassNode>, Fault>
  {
    match resolved
    case Success(classes) => Success(acc + Attach(root, classes))
    case Failure(e) => Failure(e)
  }

  /**
   The fold that mirrors the source's loop agrees with the two-phase
   reference: resolve all names first, then attach the non-empty class
   descriptors behind what was attached before.
   */
  lemma {:induction false} DiscoverFoldMatchesReference(acc: seq<ClassNode>, loader: PluginLoader, root: UniqueId, names: seq<string>)
    ensures DiscoverFold(Success(acc), loader, root, names) == AttachAfter(acc, root, ResolveAll(loader, names))
    decreases |names|
  {
    if names == [] {
      assert acc + Attach(root, []) == acc;
    } else if FindOrLoadClassFrom(loader, names[0]).Failure? {
      FoldHeadFails(acc, loader, root, names);
    } else {
      var c := FindOrLoadClassFrom(loader, names[0]).value;
      var node := BuildClassNode(root, c);
      var acc' := if HasChildren(node) then acc + [node] else acc;
      DiscoverFoldMatchesReference(acc', loader, root, names[1..]);
      FoldHeadResolves(acc, loader, root, names);
    }
  }

  lemma FoldHeadFails(acc: seq<ClassNode>, loader: PluginLoader, root: UniqueId, names: seq<string>)
    requires names != [] && FindOrLoadClassFrom(loader, names[0]).Failure?
    ensures DiscoverFold(Success(acc), loader, root, names) == AttachAfter(acc, root, ResolveAll(loader, names))
  {
    var e := FindOrLoadClassFrom(loader, names[0]).error;
    assert DiscoverStep(Success(acc), loader, root, names[0]) == Failure(e);
    DiscoverFoldFailureSticks(e, loader, root, names[1..]);
  }

  lemma FoldHeadResolves(acc: seq<ClassNode>, loader: PluginLoader, root: UniqueId, names: seq<string>)
    requires names != [] && FindOrLoadClassFrom(loader, names[0]).Success?
    requires var node := BuildClassNode(root, FindOrLoadClassFrom(loader, names[0]).value);
      var acc' := if HasChildren(node) then acc + [node] else acc;
      DiscoverFold(Success(acc'), loader, root, names[1..]) == AttachAfter(acc', root, ResolveAll(loader, names[1..]))
    ensures DiscoverFold(Success(acc), loader, root, names) == AttachAfter(acc, root, ResolveAll(loader, names))
  {
    var c := FindOrLoadClassFrom(loader, names[0]).value;
    var node := BuildClassNode(root, c);
    var acc' := if HasChildren(node) then acc + [node] else acc;
    assert DiscoverStep(Success(acc), loader, root, names[0]) == Success(acc');
    match ResolveAll(loader, names[1..])
    case Failure(e) =>
    case Success(cs) =>
      AttachCons(root, c, cs);
      assert acc + Attach(root, [c] + cs) == acc' + Attach(root, cs);
  }

  /** Attaching a class in front: its descriptor comes first if it has a child. */
  lemma AttachCons(root: UniqueId, c: JavaClass, cs: seq<JavaClass>)
    ensures var node := BuildClassNode(root, c);
      Attach(root, [c] + cs) == (if HasChildren(node) then [node] else []) + Attach(root, cs)
  {
    var node := BuildClassNode(root, c);
    assert BuildAll(root, [c] + cs) == [node] + BuildAll(root, cs);
    FilterAppend([node], BuildAll(root, cs), HasChildren);
    assert [node][1..] == [];
  }

  /**
   A successful discovery attaches, in selector order, the class descriptor of
   every resolved class that declares a test method, and no other.
   */
  lemma DiscoverAttachesClassesWithTests(engine: Engine, request: seq<Selector>, root: UniqueId)
    requires Discover(engine, request, root).Success?
    ensures ResolveAll(engine.pluginLoader, ClassNames(request)).Success?
    ensures var classes := ResolveAll(engine.pluginLoader, ClassNames(request)).value;
      var attached := Discover(engine, request, root).value.children;
      && attached == Attach(root, classes)
      && IsSubsequence(attached, BuildAll(root, classes))
      && (forall i :: 0 <= i < |classes| ==>
            (BuildClassNode(root, classes[i]) in attached <==>
             exists j :: 0 <= j < |classes[i].declaredMethods| && classes[i].declaredMethods[j].isTest))
  {
    var names := ClassNames(request);
    DiscoverFoldMatchesReference([], engine.pluginLoader, root, names);
    ResolveAllSpec(engine.pluginLoader, names);
    var classes := ResolveAll(engine.pluginLoader, names).value;
    var built := BuildAll(root, classes);
    var attached := Discover(engine, request, root).value.children;
    assert attached == Attach(root, classes);
    forall i | 0 <= i < |classes|
      ensures BuildClassNode(root, classes[i]) in attached <==>
              exists j :: 0 <= j < |classes[i].declaredMethods| && classes[i].declaredMethods[j].isTest
    {
      var node := BuildClassNode(root, classes[i]);
      ClassNodeChildren(root, classes[i]);
      FilterCount(built, HasChildren, node);
      CountPositive(attached, node);
      CountPositive(built, node);
      assert built[i] == node;
    }
  }

  /**
   Only the class selectors' names matter: the class objects they carry and
   selectors of other kinds have no effect on discovery.
   */
  lemma DiscoverUsesOnlyClassNames(engine: Engine, a: seq<Selector>, b: seq<Selector>, root: UniqueId)
    requires ClassNames(a) == ClassNames(b)
    ensures Discover(engine, a, root) == Discover(engine, b, root)
  {
  }

  lemma {:induction false} ResolveAllSameLoads(a: PluginLoader, b: PluginLoader, names: seq<string>)
    requires a.loadInThis == b.loadInThis
    ensures ResolveAll(a, names) == ResolveAll(b, names)
    decreases |names|
  {
    if names != [] {
      FindOrLoadIgnoresRecord(a, b, names[0]);
      ResolveAllSameLoads(a, b, names[1..]);
    }
  }

  /**
   Because the probe never hits, what the plugin loader has already recorded
   has no influence on the tree: engines whose loaders load alike discover alike.
   */
  lemma DiscoverIgnoresLoaderRecord(e1: Engine, e2: Engine, request: seq<Selector>, root: UniqueId)
    requires e1.pluginLoader.loadInThis == e2.pluginLoader.loadInThis
    ensures Discover(e1, request, root) == Discover(e2, request, root)
  {
    var names := ClassNames(request);
    DiscoverFoldMatchesReference([], e1.pluginLoader, root, names);
    DiscoverFoldMatchesReference([], e2.pluginLoader, root, names);
    ResolveAllSameLoads(e1.pluginLoader, e2.pluginLoader, names);
  }

  /** The engine's identifiers: the artifact id is the engine id, in the `org.embulk` group. */
  lemma EngineIdentity()
    ensures ArtifactId == Some(EngineId)
    ensures GroupId == Some("org.embulk")
  {
  }
}
