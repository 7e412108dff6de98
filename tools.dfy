/**
 * The builder used by the workflow tools to turn the flat connection list of a tool call into
 * n8n's connection object: for every source node a `main` list of output groups, each group the
 * list of targets fed by that output.
 */
module N8nTools {
  import opened Wrappers

  /** One connection of the tool input; the two indices may be absent. */
  datatype Conn = Conn(source: string, target: string, sourceOutput: Option<nat>, targetInput: Option<int>)

  /** `{ node, type, index }`. */
  datatype Target = Target(node: string, kind: string, index: int)

  /**
   * The result, source name to its `main` list.  The object under each source only ever holds
   * the key 'main', so it is represented by that list.
   */
  type ConnectionMap = map<string, seq<seq<Target>>>

  function OutputOf(c: Conn): nat { c.sourceOutput.GetOr(0) }

  function TargetOf(c: Conn): Target { Target(c.target, "main", c.targetInput.GetOr(0)) }

  /** The groups of a source, or none when it is not a key yet. */
  function GroupsOf(m: ConnectionMap, source: string): seq<seq<Target>> {
    if source in m then m[source] else []
  }

  /** `k` empty groups. */
  function Empties(k: nat): seq<seq<Target>> {
    seq(k, _ => [])
  }

  /** The groups after the padding loop: at least `n` of them. */
  function Pad(groups: seq<seq<Target>>, n: nat): (r: seq<seq<Target>>)
    ensures |r| == if |groups| >= n then |groups| else n
    ensures r[..|groups|] == groups
    ensures forall i :: |groups| <= i < |r| ==> r[i] == []
  {
    if |groups| >= n then groups else groups + Empties(n - |groups|)
  }

  /** One iteration of the loop: pad the source's groups, then append to its output group. */
  function Add(m: ConnectionMap, c: Conn): ConnectionMap {
    var padded := Pad(GroupsOf(m, c.source), OutputOf(c) + 1);
    m[c.source := padded[OutputOf(c) := padded[OutputOf(c)] + [TargetOf(c)]]]
  }

  /** The result of the loop over all connections. */
  function Transform(conns: seq<Conn>): ConnectionMap {
    if |conns| == 0 then map[]
    else Add(Transform(conns[..|conns| - 1]), conns[|conns| - 1])
  }

  /** The `while` loop of `transformConnections`: push empty groups until there are `n`. */
  method PadGroups(groups: seq<seq<Target>>, n: nat) returns (r: seq<seq<Target>>)
    ensures r == Pad(groups, n)
  {
    r := groups;
    while |r| < n
      invariant |groups| <= |r| <= if |groups| >= n then |groups| else n
      invariant r == groups + Empties(|r| - |groups|)
      decreases n - |r|
    {
      r := r + [[]];
    }
  }

  /** One turn of the loop of `transformConnections`. */
  method AddConnection(result: ConnectionMap, conn: Conn) returns (r: ConnectionMap)
    ensures r == Add(result, conn)
  {
    var sourceKey := conn.source;
    var outputIndex := conn.sourceOutput.GetOr(0);
    // `result[sourceKey][outputType]`, created empty when missing; the record under the key
    // is the same array, so the padding and the push below go into the result.
    var groups := if sourceKey in result then result[sourceKey] else [];
    groups := PadGroups(groups, outputIndex + 1);
    groups := groups[outputIndex := groups[outputIndex] + [TargetOf(conn)]];
    r := result[sourceKey := groups];
  }

  /** `transformConnections`. */
  method TransformConnections(conns: seq<Conn>) returns (result: ConnectionMap)
    ensures result == Transform(conns)
  {
    result := map[];
    for i := 0 to |conns|
      invariant result == Transform(conns[..i])
    {
      assert conns[..i + 1][..i] == conns[..i];
      result := AddConnection(result, conns[i]);
    }
    assert conns[..|conns|] == conns;
  }

  // ---------------------------------------------------------------- keys

  function Sources(conns: seq<Conn>): set<string> {
    set i | 0 <= i < |conns| :: conns[i].source
  }

  /** The keys of the result are exactly the sources of the connections. */
  lemma {:induction false} TransformKeys(conns: seq<Conn>)
    ensures Transform(conns).Keys == Sources(conns)
  {
    if |conns| > 0 {
      var p := conns[..|conns| - 1];
      TransformKeys(p);
      assert Sources(conns) == Sources(p) + {conns[|conns| - 1].source} by {
        assert forall i :: 0 <= i < |p| ==> p[i] == conns[i];
      }
    }
  }

  // ---------------------------------------------------------------- group count

  /** The largest output index used by a connection from `source`, -1 when there is none. */
  function MaxOutput(conns: seq<Conn>, source: string): int {
    if |conns| == 0 then -1
    else
      var rest := MaxOutput(conns[..|conns| - 1], source);
      var c := conns[|conns| - 1];
      if c.source == source && OutputOf(c) > rest then OutputOf(c) else rest
  }

  /** Every source has as many groups as its largest output index plus one. */
  lemma {:induction false} TransformGroupCount(conns: seq<Conn>, source: string)
    ensures |GroupsOf(Transform(conns), source)| == MaxOutput(conns, source) + 1
  {
    if |conns| > 0 {
      TransformGroupCount(conns[..|conns| - 1], source);
    }
  }

  // ---------------------------------------------------------------- group contents

  /** The targets of the connections from `source` through output `output`, in input order. */
  function TargetsAt(conns: seq<Conn>, source: string, output: nat): seq<Target> {
    if |conns| == 0 then []
    else
      var c := conns[|conns| - 1];
      TargetsAt(conns[..|conns| - 1], source, output)
        + (if c.source == source && OutputOf(c) == output then [TargetOf(c)] else [])
  }

  /**
   * Group `output` of a source holds, in input order, the targets of exactly the connections
   * from that source through that output; a group no connection uses stays empty.
   */
  lemma {:induction false} TransformGroupContents(conns: seq<Conn>, source: string, output: nat)
    requires output < |GroupsOf(Transform(conns), source)|
    ensures GroupsOf(Transform(conns), source)[output] == TargetsAt(conns, source, output)
  {
    var p := conns[..|conns| - 1];
    var c := conns[|conns| - 1];
    var gp := GroupsOf(Transform(p), source);
    if output < |gp| {
      TransformGroupContents(p, source, output);
    } else {
      TargetsAtUnused(p, source, output);
    }
  }

  /** Past the groups of a source, no connection from it uses that output. */
  lemma {:induction false} TargetsAtUnused(conns: seq<Conn>, source: string, output: nat)
    requires output >= |GroupsOf(Transform(conns), source)|
    ensures TargetsAt(conns, source, output) == []
  {
    if |conns| > 0 {
      var p := conns[..|conns| - 1];
      TransformGroupCount(conns, source);
      TransformGroupCount(p, source);
      TargetsAtUnused(p, source, output);
    }
  }

  // ---------------------------------------------------------------- nothing lost

  /** The number of targets in a list of groups. */
  function GroupsSize(groups: seq<seq<Target>>): nat {
    if |groups| == 0 then 0 else GroupsSize(groups[..|groups| - 1]) + |groups[|groups| - 1]|
  }

  /** The number of targets over all sources. */
  ghost function Total(m: ConnectionMap): nat
    decreases |m.Keys|
  {
    if m == map[] then 0
    else
      var k := PickKey(m);
      GroupsSize(m[k]) + Total(m - {k})
  }

  ghost function PickKey(m: ConnectionMap): (k: string)
    requires m != map[]
    ensures k in m
  {
    var k :| k in m; k
  }

  /** The total does not depend on which key is taken first. */
  lemma {:induction false} TotalWithout(m: ConnectionMap, k: string)
    requires k in m
    ensures Total(m) == GroupsSize(m[k]) + Total(m - {k})
    decreases |m.Keys|
  {
    var j := PickKey(m);
    if j != k {
      var mj := m - {j};
      var mk := m - {k};
      assert |mj.Keys| < |m.Keys| by { assert mj.Keys < m.Keys; }
      TotalWithout(mj, k);
      assert |mk.Keys| < |m.Keys| by { assert mk.Keys < m.Keys; }
      TotalWithout(mk, j);
      assert mj - {k} == mk - {j};
    }
  }

  lemma {:induction false} TotalUpdate(m: ConnectionMap, k: string, g: seq<seq<Target>>)
    ensures Total(m[k := g]) == Total(m - {k}) + GroupsSize(g)
  {
    var m' := m[k := g];
    TotalWithout(m', k);
    assert m' - {k} == m - {k};
  }

  lemma {:induction false} GroupsSizeAppend(a: seq<seq<Target>>, b: seq<seq<Target>>)
    ensures GroupsSize(a + b) == GroupsSize(a) + GroupsSize(b)
    decreases |b|
  {
    if |b| == 0 {
      assert a + b == a;
    } else {
      assert (a + b)[..|a + b| - 1] == a + b[..|b| - 1];
      GroupsSizeAppend(a, b[..|b| - 1]);
    }
  }

  lemma {:induction false} GroupsSizeEmpties(k: nat)
    ensures GroupsSize(Empties(k)) == 0
  {
    if k > 0 {
      assert Empties(k)[..k - 1] == Empties(k - 1);
      GroupsSizeEmpties(k - 1);
    }
  }

  /** Appending to one group adds its count and nothing else. */
  lemma {:induction false} GroupsSizeUpdate(groups: seq<seq<Target>>, i: nat, g: seq<Target>)
    requires i < |groups|
    ensures GroupsSize(groups[i := g]) == GroupsSize(groups) - |groups[i]| + |g|
  {
    var n := |groups|;
    if i == n - 1 {
      assert groups[i := g][..n - 1] == groups[..n - 1];
    } else {
      assert groups[i := g][..n - 1] == groups[..n - 1][i := g];
      GroupsSizeUpdate(groups[..n - 1], i, g);
    }
  }

  /** Padding adds only empty groups. */
  lemma PadSize(groups: seq<seq<Target>>, n: nat)
    ensures GroupsSize(Pad(groups, n)) == GroupsSize(groups)
  {
    if |groups| < n {
      GroupsSizeAppend(groups, Empties(n - |groups|));
      GroupsSizeEmpties(n - |groups|);
    }
  }

  /** Each connection adds exactly one target. */
  lemma AddTotal(m: ConnectionMap, c: Conn)
    ensures Total(Add(m, c)) == Total(m) + 1
  {
    var o := OutputOf(c);
    var g := GroupsOf(m, c.source);
    var padded := Pad(g, o + 1);
    var groups := padded[o := padded[o] + [TargetOf(c)]];
    assert Add(m, c) == m[c.source := groups];
    PadSize(g, o + 1);
    GroupsSizeUpdate(padded, o, padded[o] + [TargetOf(c)]);
    assert GroupsSize(groups) == GroupsSize(g) + 1;
    TotalUpdate(m, c.source, groups);
    if c.source in m {
      TotalWithout(m, c.source);
    } else {
      assert m - {c.source} == m;
    }
  }

  /** The result holds exactly as many targets as there are connections. */
  lemma {:induction false} TransformTotal(conns: seq<Conn>)
    ensures Total(Transform(conns)) == |conns|
  {
    if |conns| > 0 {
      TransformTotal(conns[..|conns| - 1]);
      AddTotal(Transform(conns[..|conns| - 1]), conns[|conns| - 1]);
    }
  }
}
