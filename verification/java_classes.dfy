/**
 The slice of the JVM the test engine relies on: class identities, declared
 methods as reflection reports them, and a class loader's record of the
 classes it has loaded.
 */
module JavaClasses {
  import opened Results

  /** Identity of a class loader object. */
  type LoaderId = nat

  /** A declared method; `isTest` is whether it carries `@EmbulkPluginTest`. */
  datatype Method = Method(name: string, isTest: bool)

  /**
   A `Class` object. Its identity is the pair (name, defining loader): two
   classes with the same name but different defining loaders are distinct.
   `declaredMethods` is what `getDeclaredMethods` returns, in that order.
   */
  datatype JavaClass = JavaClass(name: string, definingLoader: LoaderId, declaredMethods: seq<Method>)

  /** A class loader: its identity and the classes recorded as loaded by it, by name. */
  datatype ClassLoader = ClassLoader(id: LoaderId, recorded: map<string, JavaClass>)

  /**
   `ClassLoader.findLoadedClass`: a pure query of a loader's record that never
   loads anything; absent (`null`) unless a class is recorded under exactly
   that name.
   */
  function FindLoadedClass(recorded: map<string, JavaClass>, name: string): (r: Option<JavaClass>)
    ensures r.Some? <==> name in recorded
    ensures r.Some? ==> r.value == recorded[name]
  {
    if name in recorded then Some(recorded[name]) else None
  }
}
