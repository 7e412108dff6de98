/**
 * The shape of an n8n workflow as the engine sees it: nodes, and `connections`, an object from a
 * source node's name to `{ main: [[{ node, type, index }, ...], ...] }` (one array of targets per
 * output of the source node).  JavaScript objects are association lists here, in `Object.entries`
 * order; a lookup takes the first entry with the key, which for a real object is the only one.
 */
module Graph {
  import opened Wrappers

  /** A JSON value (numbers are integers in this model). */
  datatype Json = JNull | JBool(b: bool) | JNum(n: int) | JStr(s: string)
                | JArr(items: seq<Json>) | JObj(fields: seq<(string, Json)>)

  /** JavaScript truthiness of a JSON value. */
  predicate Truthy(j: Json) {
    match j
    case JNull => false
    case JBool(b) => b
    case JNum(n) => n != 0
    case JStr(s) => s != ""
    case _ => true
  }

  // ---------------------------------------------------------------- association lists

  predicate HasKey<V>(kvs: seq<(string, V)>, key: string) {
    exists i :: 0 <= i < |kvs| && kvs[i].0 == key
  }

  /** `obj[key]`: the value of the first entry with that key (see LookupIsFirst). */
  function Lookup<V>(kvs: seq<(string, V)>, key: string): Option<V> {
    if |kvs| == 0 then None
    else if kvs[0].0 == key then Some(kvs[0].1)
    else Lookup(kvs[1..], key)
  }

  /** A lookup fails exactly when the key is absent, and otherwise finds its first entry. */
  lemma {:induction false} LookupIsFirst<V>(kvs: seq<(string, V)>, key: string)
    ensures Lookup(kvs, key).None? <==> !HasKey(kvs, key)
    ensures Lookup(kvs, key).Some? ==>
              exists i :: 0 <= i < |kvs| && kvs[i] == (key, Lookup(kvs, key).value)
                          && forall j :: 0 <= j < i ==> kvs[j].0 != key
  {
    if |kvs| > 0 && kvs[0].0 != key {
      var r := Lookup(kvs[1..], key);
      LookupIsFirst(kvs[1..], key);
      assert forall j :: 1 <= j < |kvs| ==> kvs[j] == kvs[1..][j - 1];
      if r.Some? {
        var i :| 0 <= i < |kvs[1..]| && kvs[1..][i] == (key, r.value)
                 && forall j :: 0 <= j < i ==> kvs[1..][j].0 != key;
        assert kvs[i + 1] == (key, r.value);
      } else {
        assert !HasKey(kvs[1..], key);
      }
    }
  }

  /** `Object.keys(obj)`. */
  function Keys<V>(kvs: seq<(string, V)>): (r: seq<string>)
    ensures |r| == |kvs| && forall i :: 0 <= i < |kvs| ==> r[i] == kvs[i].0
  {
    if |kvs| == 0 then [] else Keys(kvs[..|kvs| - 1]) + [kvs[|kvs| - 1].0]
  }

  // ---------------------------------------------------------------- workflows

  datatype Point = Point(x: real, y: real)

  /**
   * One element of an output array: an object whose `node` is a string (the name of the target
   * node, the connection type and the target's input index, None when `index` is absent), or
   * anything without a `node` key, which the engine skips.  An object whose `node` is not a
   * string is not expressible (see README, "Left out").
   */
  datatype Entry = NotATarget | Target(node: string, kind: string, index: Option<int>)

  /** One output of a source node: an array of entries, or a value that is not an array. */
  datatype Group = NotAnArray | Outputs(entries: seq<Entry>)

  /** The value of `connections[source]`; `main` is None when it is absent. */
  datatype Connection = Connection(main: Option<seq<Group>>)

  type Connections = seq<(string, Connection)>

  datatype Node = Node(name: string, nodeType: string, position: Option<Point>,
                       parameters: map<string, Json>, credentials: seq<string>)

  datatype Workflow = Workflow(name: string, nodes: seq<Node>, connections: Connections)

  /**
   * The validator's input: a non-object, or an object whose name or node name or type is None
   * when it is absent (a value of another type than string is not modelled), whose `nodes` is
   * None when it is absent or not an array, and whose `connections` is None when it is absent
   * or falsy.  A `null` element of `nodes` and a truthy `connections` that is not an object are
   * not expressible: `validateWorkflow` throws on both instead of returning a result.
   */
  datatype RawNode = RawNode(name: Option<string>, nodeType: Option<string>)
  datatype RawWorkflow = NotAnObject
                       | WorkflowObject(name: Option<string>, nodes: Option<seq<RawNode>>,
                                        connections: Option<Connections>)

  /** A typed workflow handed to the validator. */
  function ToRaw(w: Workflow): (r: RawWorkflow)
    ensures r.WorkflowObject? && r.nodes.Some? && |r.nodes.value| == |w.nodes|
    ensures forall i :: 0 <= i < |w.nodes| ==>
              r.nodes.value[i] == RawNode(Some(w.nodes[i].name), Some(w.nodes[i].nodeType))
    ensures r.name == Some(w.name) && r.connections == Some(w.connections)
  {
    WorkflowObject(Some(w.name),
                   Some(seq(|w.nodes|, i requires 0 <= i < |w.nodes| =>
                          RawNode(Some(w.nodes[i].name), Some(w.nodes[i].nodeType)))),
                   Some(w.connections))
  }

  // ---------------------------------------------------------------- target names, in visiting order

  /** The `node` of every target entry of one output array. */
  function GroupTargets(entries: seq<Entry>): seq<string> {
    if |entries| == 0 then []
    else
      var e := entries[|entries| - 1];
      GroupTargets(entries[..|entries| - 1]) + (if e.Target? then [e.node] else [])
  }

  /** The targets of every array output of `main`. */
  function MainTargets(groups: seq<Group>): seq<string> {
    if |groups| == 0 then []
    else
      var g := groups[|groups| - 1];
      MainTargets(groups[..|groups| - 1]) + (if g.Outputs? then GroupTargets(g.entries) else [])
  }

  function ConnectionTargets(c: Connection): seq<string> {
    if c.main.Some? then MainTargets(c.main.value) else []
  }

  /** Every target occurrence of every source, in `Object.entries` order. */
  function AllTargets(conns: Connections): seq<string> {
    if |conns| == 0 then []
    else AllTargets(conns[..|conns| - 1]) + ConnectionTargets(conns[|conns| - 1].1)
  }

  function Elems(s: seq<string>): set<string> { set x | x in s }
}
