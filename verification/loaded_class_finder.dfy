/**
 `LoadedClassFinder`: a throw-away `ClassLoader` subclass used to reach the
 protected `findLoadedClass`. As written, `findFrom` asks the freshly built
 finder about ITS OWN record, and the wrapped loader is stored but never read.
 */
module LoadedClassFinder {
  import opened Results
  import opened JavaClasses

  /** A finder object: the loader it wraps and its own (initially empty) record. */
  datatype Finder = Finder(inner: ClassLoader, recorded: map<string, JavaClass>)

  /** The private constructor: wraps `inner`; a new loader has loaded nothing yet. */
  function NewFinder(inner: ClassLoader): (f: Finder)
    ensures f.inner == inner
    ensures f.recorded == map[]
  {
    Finder(inner, map[])
  }

  /**
   `findFrom(classLoader, name)`: `findLoadedClass` on a new finder around
   `classLoader`. The new finder's record is empty, so the probe always misses,
   whatever `classLoader` has loaded.
   */
  function FindFrom(classLoader: ClassLoader, name: string): (r: Option<JavaClass>)
    ensures r == None
  {
    FindLoadedClass(NewFinder(classLoader).recorded, name)
  }

  /**
   The answer does not depend on the loader passed in: the wrapped loader is
   never consulted.
   */
  lemma FindFromIgnoresLoader(a: ClassLoader, b: ClassLoader, name: string)
    ensures FindFrom(a, name) == FindFrom(b, name)
  {
  }

  /** Even a class already recorded in the passed-in loader is not found. */
  lemma FindFromMissesRecordedClass(classLoader: ClassLoader, name: string)
    requires name in classLoader.recorded
    ensures FindFrom(classLoader, name) == None
    ensures FindLoadedClass(classLoader.recorded, name) == Some(classLoader.recorded[name])
  {
  }
}
