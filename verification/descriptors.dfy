/**
 The descriptor tree handed back by discovery: an engine (root) descriptor,
 class descriptors under it, and method descriptors under those.
 */
module Descriptors {
  import opened JavaClasses
  import opened UniqueIds

  /** A `MethodTestDescriptor`: its id, the owning test class and the method. */
  datatype MethodNode = MethodNode(id: UniqueId, testClass: JavaClass, testMethod: Method)

  /** A `ClassTestDescriptor` and its method children, in insertion order. */
  datatype ClassNode = ClassNode(id: UniqueId, testClass: JavaClass, children: seq<MethodNode>)

  /** The `EmbulkPluginTestEngineDescriptor` root and its class children, in insertion order. */
  datatype EngineNode = EngineNode(id: UniqueId, children: seq<ClassNode>)

  /** The methods of a sequence of method descriptors, in order. */
  function MethodsOf(nodes: seq<MethodNode>): (r: seq<Method>)
    ensures |r| == |nodes|
    ensures forall i :: 0 <= i < |nodes| ==> r[i] == nodes[i].testMethod
  {
    seq(|nodes|, i requires 0 <= i < |nodes| => nodes[i].testMethod)
  }
}
