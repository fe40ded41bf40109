/** Runtime configuration revisions of a node (store_runtime.go, runtime_xray.go). */
module RuntimeRevisions {
  import opened Options

  datatype Revision = Revision(version: nat, config: string, applied: bool)

  /** Rows of one node, in insertion order; `appliedVersion` is the node's runtime row. */
  datatype NodeRows = NodeRows(revisions: seq<Revision>, appliedVersion: nat)

  predicate Numbered(rs: seq<Revision>) { forall i :: 0 <= i < |rs| ==> rs[i].version == i + 1 }

  predicate OneApplied(rs: seq<Revision>) {
    forall i, j :: 0 <= i < j < |rs| ==> !(rs[i].applied && rs[j].applied)
  }

  /** Versions are 1..n, at most one is applied, and the runtime row names it. */
  predicate Consistent(n: NodeRows) {
    && Numbered(n.revisions) && OneApplied(n.revisions) && n.appliedVersion <= |n.revisions|
    && forall i :: 0 <= i < |n.revisions| ==> (n.revisions[i].applied <==> n.appliedVersion == i + 1)
  }

  function Cleared(rs: seq<Revision>): (r: seq<Revision>)
    ensures |r| == |rs| && forall i :: 0 <= i < |rs| ==> r[i] == rs[i].(applied := false)
  {
    seq(|rs|, i requires 0 <= i < |rs| => rs[i].(applied := false))
  }

  class RuntimeStore {
    var nodes: map<string, NodeRows>

    ghost predicate Valid()
      reads this
    {
      forall id :: id in nodes ==> Consistent(nodes[id])
    }

    constructor ()
      ensures Valid() && nodes == map[]
    {
      nodes := map[];
    }

    /** `ensureNodeRuntimeDefaults`: the runtime row exists afterwards, its applied version kept. */
    method EnsureRuntime(id: string)
      requires Valid()
      modifies this
      ensures Valid() && id in nodes && nodes == if id in old(nodes) then old(nodes) else old(nodes)[id := NodeRows([], 0)]
    {
      if id !in nodes { nodes := nodes[id := NodeRows([], 0)]; }
    }

    /** `SELECT COALESCE(MAX(version), 0)`. */
    method MaxVersion(id: string) returns (max: nat)
      requires Valid() && id in nodes
      ensures max == |nodes[id].revisions|
    {
      max := 0;
      var rs, i := nodes[id].revisions, 0;
      while i < |rs|
        invariant 0 <= i <= |rs| && max == i
      {
        if rs[i].version > max { max := rs[i].version; }
        i := i + 1;
      }
    }

    /** `InsertRuntimeRevision`. */
    method Insert(id: string, config: string, applied: bool) returns (version: nat)
      requires Valid() && id in nodes
      modifies this
      ensures version == |old(nodes)[id].revisions| + 1
      ensures nodes == old(nodes)[id := NodeRows(old(nodes)[id].revisions + [Revision(version, config, applied)],
                                                 if applied then version else old(nodes)[id].appliedVersion)]
      ensures Valid() <==> !applied || old(nodes)[id].appliedVersion == 0
    {
      var max := MaxVersion(id);
      version := max + 1;
      var n := nodes[id];
      nodes := nodes[id := NodeRows(n.revisions + [Revision(version, config, applied)], n.appliedVersion)];
      if applied { nodes := nodes[id := nodes[id].(appliedVersion := version)]; }
      InsertedConsistent(n, config, applied);
      assert nodes[id] == Inserted(n, config, applied);
    }

    /** `MarkRuntimeRevisionApplied`, a transaction: all revisions cleared, one set; rolled back when
        there is no such version. */
    method MarkApplied(id: string, version: nat) returns (ok: bool)
      requires Valid() && id in nodes
      modifies this
      ensures Valid() && (ok <==> 1 <= version <= |old(nodes)[id].revisions|)
      ensures !ok ==> nodes == old(nodes)
      ensures ok ==>
        var rs := old(nodes)[id].revisions;
        nodes == old(nodes)[id := NodeRows(Cleared(rs)[version - 1 := rs[version - 1].(applied := true)], version)]
    {
      var tx := Cleared(nodes[id].revisions);
      var found, i := false, 0;
      ghost var cleared := tx;
      while i < |tx|
        invariant 0 <= i <= |tx| == |cleared|
        invariant found <==> 1 <= version <= i
        invariant tx == if found then cleared[version - 1 := cleared[version - 1].(applied := true)] else cleared
      {
        if tx[i].version == version {
          tx := tx[i := tx[i].(applied := true)];
          found := true;
        }
        i := i + 1;
      }
      if !found { return false; }
      nodes := nodes[id := NodeRows(tx, version)];
      ok := true;
    }

    /** `GetNodeRuntimeConfig`: a new revision, not applied yet. */
    method GetConfig(id: string, config: string) returns (version: nat)
      requires Valid()
      modifies this
      ensures Valid()
      ensures var before := if id in old(nodes) then old(nodes)[id] else NodeRows([], 0);
        version == |before.revisions| + 1 && nodes == old(nodes)[id := Next(before, Config(config))]
    {
      EnsureRuntime(id);
      version := Insert(id, config, false);
    }

    /** `ApplyNodeRuntimeConfig`: the latest revision, if there is one. */
    method Apply(id: string) returns (version: Option<nat>)
      requires Valid()
      modifies this
      ensures Valid()
      ensures version == None ==> nodes == old(nodes) && (id !in nodes || nodes[id].revisions == [])
      ensures version.Some? ==>
        && id in old(nodes) && version.value == |old(nodes)[id].revisions|
        && nodes == old(nodes)[id := Next(old(nodes)[id], Step.Apply)]
    {
      if id !in nodes { return None; }
      var latest := MaxVersion(id);
      if latest == 0 { return None; }
      var ok := MarkApplied(id, latest);
      version := Some(latest);
    }
  }

  function Inserted(n: NodeRows, config: string, applied: bool): NodeRows {
    var version := |n.revisions| + 1;
    NodeRows(n.revisions + [Revision(version, config, applied)], if applied then version else n.appliedVersion)
  }

  /** Inserting an applied revision keeps "at most one applied" exactly when none was applied before. */
  lemma InsertedConsistent(n: NodeRows, config: string, applied: bool)
    requires Consistent(n)
    ensures Consistent(Inserted(n, config, applied)) <==> !applied || n.appliedVersion == 0
  {
    var m := Inserted(n, config, applied);
    assert forall i :: 0 <= i < |n.revisions| ==> m.revisions[i] == n.revisions[i];
    if applied && n.appliedVersion > 0 {
      assert m.revisions[n.appliedVersion - 1].applied && m.revisions[|n.revisions|].applied;
    }
  }

  // ----- Whole runs -----

  datatype Step = Config(text: string) | Apply

  function Next(n: NodeRows, s: Step): NodeRows {
    match s
    case Config(text) => Inserted(n, text, false)
    case Apply =>
      var k := |n.revisions|;
      if k == 0 then n else NodeRows(Cleared(n.revisions)[k - 1 := n.revisions[k - 1].(applied := true)], k)
  }

  function After(n: NodeRows, run: seq<Step>): NodeRows
    decreases |run|
  {
    if run == [] then n else After(Next(n, run[0]), run[1..])
  }

  lemma NextConsistent(n: NodeRows, s: Step)
    requires Consistent(n)
    ensures Consistent(Next(n, s)) && n.appliedVersion <= Next(n, s).appliedVersion
    ensures |n.revisions| <= |Next(n, s).revisions|
    ensures forall i :: 0 <= i < |n.revisions| ==> Next(n, s).revisions[i].config == n.revisions[i].config
  {
    if s.Config? { InsertedConsistent(n, s.text, false); }
  }

  /** Over any run of config and apply requests: versions 1..n, at most one applied, the runtime row
      naming it, the applied version never going back, and no revision's text ever changed. */
  lemma {:induction false} RunsStayConsistent(n: NodeRows, run: seq<Step>)
    requires Consistent(n)
    ensures Consistent(After(n, run)) && n.appliedVersion <= After(n, run).appliedVersion
    ensures |n.revisions| <= |After(n, run).revisions|
    ensures forall i :: 0 <= i < |n.revisions| ==> After(n, run).revisions[i].config == n.revisions[i].config
    decreases |run|
  {
    if run != [] {
      NextConsistent(n, run[0]);
      RunsStayConsistent(Next(n, run[0]), run[1..]);
    }
  }

  /** How many revisions the run adds. */
  function Added(run: seq<Step>): nat { if run == [] then 0 else Added(run[..|run| - 1]) + if run[|run| - 1].Config? then 1 else 0 }

  lemma {:induction false} AfterLast(n: NodeRows, run: seq<Step>)
    requires run != []
    ensures After(n, run) == Next(After(n, run[..|run| - 1]), run[|run| - 1])
    decreases |run|
  {
    if |run| == 1 {
      assert run[1..] == [] && run[..0] == [];
    } else {
      AfterLast(Next(n, run[0]), run[1..]);
      assert run[1..][..|run| - 2] == run[..|run| - 1][1..];
    }
  }

  /** The last step of a run, and what it does. */
  lemma LastStep(n: NodeRows, run: seq<Step>)
    requires Consistent(n) && run != []
    ensures var before := After(n, run[..|run| - 1]);
      Consistent(before) && After(n, run) == Next(before, run[|run| - 1])
  {
    hide Consistent;
    AfterLast(n, run);
    RunsStayConsistent(n, run[..|run| - 1]);
  }

  /** A run adds a revision for every configuration asked for. */
  lemma {:induction false} RevisionsCounted(n: NodeRows, run: seq<Step>)
    requires Consistent(n)
    ensures |After(n, run).revisions| == |n.revisions| + Added(run)
    decreases |run|
  {
    hide Consistent, Next;
    if run != [] {
      LastStep(n, run);
      RevisionsCounted(n, run[..|run| - 1]);
      NextKeeps(After(n, run[..|run| - 1]), run[|run| - 1]);
    }
  }

  /** In order: the one asked for in step `k` holds its text, whatever comes later. */
  lemma {:induction false} RevisionOf(n: NodeRows, run: seq<Step>, k: nat)
    requires Consistent(n) && k < |run| && run[k].Config?
    ensures var m, i := After(n, run), |n.revisions| + Added(run[..k]); i < |m.revisions| && m.revisions[i].config == run[k].text
    decreases |run|
  {
    hide Consistent, Next, After;
    var last := |run| - 1;
    LastStep(n, run);
    NextKeeps(After(n, run[..last]), run[last]);
    RevisionsCounted(n, run[..last]);
    if k < last {
      assert run[..last][..k] == run[..k];
      RevisionOf(n, run[..last], k);
    }
  }

  /** Applied is the newest revision there was at the last request to apply. */
  lemma {:induction false} AppliedBy(n: NodeRows, run: seq<Step>, k: nat)
    requires Consistent(n) && k < |run| && run[k].Apply? && forall l :: k < l < |run| ==> run[l].Config?
    ensures After(n, run).appliedVersion == |n.revisions| + Added(run[..k])
    decreases |run|
  {
    hide Consistent, Next, After;
    var last := |run| - 1;
    LastStep(n, run);
    NextKeeps(After(n, run[..last]), run[last]);
    if k < last {
      assert run[..last][..k] == run[..k];
      AppliedBy(n, run[..last], k);
    } else {
      RevisionsCounted(n, run[..last]);
    }
  }

  lemma NextKeeps(n: NodeRows, s: Step)
    requires Consistent(n)
    ensures var m := Next(n, s);
      && (forall i :: 0 <= i < |n.revisions| ==> m.revisions[i].config == n.revisions[i].config)
      && (s.Config? ==> |m.revisions| == |n.revisions| + 1 && m.revisions[|n.revisions|].config == s.text && m.appliedVersion == n.appliedVersion)
      && (s.Apply? ==> |m.revisions| == |n.revisions| == m.appliedVersion)
  {
  }
}
