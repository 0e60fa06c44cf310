/** `selectProcessTree` of e2e/src/support/resource-probe.ts: the rows below a root process, found by
    sweeping the table until nothing changes. */
module ProcessTree {
  import opened FiniteSets

  type Pid = int

  /** One row of the process table, with what the report keeps of it. */
  datatype Row = Row(pid: Pid, parentPid: Pid, residentSetBytes: int, cpuPercent: real, command: string)

  datatype Kind = ElectronMain | BundledCli | AgentRuntime | Renderer | Gpu | Utility | Child

  datatype Metric = Metric(pid: Pid, parentPid: Pid, residentSetBytes: int, cpuPercent: real, kind: Kind)

  type Classifier = (string, Pid, Pid) -> Kind

  predicate IsLink(rows: seq<Row>, parent: Pid, child: Pid) {
    exists i :: 0 <= i < |rows| && rows[i].parentPid == parent && rows[i].pid == child
  }

  /** A chain of parent links from `root` to `pid`. */
  predicate IsPath(rows: seq<Row>, root: Pid, path: seq<Pid>, pid: Pid) {
    && path != [] && path[0] == root && path[|path| - 1] == pid
    && forall k :: 0 < k < |path| ==> IsLink(rows, path[k - 1], path[k])
  }

  ghost predicate Reachable(rows: seq<Row>, root: Pid, pid: Pid) {
    exists path: seq<Pid> :: IsPath(rows, root, path, pid)
  }

  predicate Closed(rows: seq<Row>, pids: set<Pid>) {
    forall i :: 0 <= i < |rows| && rows[i].parentPid in pids ==> rows[i].pid in pids
  }

  lemma {:induction false} Extend(rows: seq<Row>, root: Pid, parent: Pid, child: Pid)
    requires Reachable(rows, root, parent) && IsLink(rows, parent, child)
    ensures Reachable(rows, root, child)
  {
    var path: seq<Pid> :| IsPath(rows, root, path, parent);
    assert IsPath(rows, root, path + [child], child);
  }

  lemma {:induction false} ClosedHoldsPaths(rows: seq<Row>, root: Pid, pids: set<Pid>, path: seq<Pid>, pid: Pid)
    requires Closed(rows, pids) && root in pids && IsPath(rows, root, path, pid)
    ensures pid in pids
    decreases |path|
  {
    if |path| > 1 {
      var parent := path[|path| - 2];
      assert IsPath(rows, root, path[..|path| - 1], parent);
      ClosedHoldsPaths(rows, root, pids, path[..|path| - 1], parent);
      assert IsLink(rows, path[|path| - 1 - 1], path[|path| - 1]);
    }
  }

  function Pids(rows: seq<Row>): set<Pid> {
    set i | 0 <= i < |rows| :: rows[i].pid
  }

  /** Selected so far: only reachable processes, the root among them. */
  ghost predicate Selecting(rows: seq<Row>, root: Pid, selected: set<Pid>) {
    && root in selected && selected <= Pids(rows) + {root}
    && forall pid :: pid in selected ==> Reachable(rows, root, pid)
  }

  ghost function Unselected(rows: seq<Row>, root: Pid, selected: set<Pid>): nat {
    |Pids(rows) + {root} - selected|
  }

  lemma {:induction false} SelectOne(rows: seq<Row>, root: Pid, selected: set<Pid>, k: nat)
    requires Selecting(rows, root, selected) && k < |rows|
    requires rows[k].pid !in selected && rows[k].parentPid in selected
    ensures Selecting(rows, root, selected + {rows[k].pid})
    ensures Unselected(rows, root, selected + {rows[k].pid}) < Unselected(rows, root, selected)
  {
    assert IsLink(rows, rows[k].parentPid, rows[k].pid);
    Extend(rows, root, rows[k].parentPid, rows[k].pid);
    Shrinks(Pids(rows) + {root}, selected, rows[k].pid);
  }

  /** One pass over the table. */
  method Sweep(rows: seq<Row>, ghost root: Pid, before: set<Pid>) returns (selected: set<Pid>, changed: bool)
    requires Selecting(rows, root, before)
    ensures Selecting(rows, root, selected)
    ensures changed ==> Unselected(rows, root, selected) < Unselected(rows, root, before)
    ensures !changed ==> selected == before && Closed(rows, selected)
  {
    selected, changed := before, false;
    for k := 0 to |rows|
      invariant Selecting(rows, root, selected)
      invariant changed ==> Unselected(rows, root, selected) < Unselected(rows, root, before)
      invariant !changed ==> selected == before && Closed(rows[..k], selected)
    {
      var row := rows[k];
      if row.pid !in selected && row.parentPid in selected {
        SelectOne(rows, root, selected, k);
        selected := selected + {row.pid};
        changed := true;
      }
    }
    assert rows[..|rows|] == rows;
  }

  lemma {:induction false} ClosedIsComplete(rows: seq<Row>, root: Pid, selected: set<Pid>)
    requires Selecting(rows, root, selected) && Closed(rows, selected)
    ensures forall pid :: pid in selected <==> Reachable(rows, root, pid)
  {
    forall pid | Reachable(rows, root, pid)
      ensures pid in selected
    {
      var path: seq<Pid> :| IsPath(rows, root, path, pid);
      ClosedHoldsPaths(rows, root, selected, path, pid);
    }
  }

  /** The sweep finds exactly the processes that parent links lead to. */
  method SelectPids(rows: seq<Row>, rootPid: Pid) returns (selected: set<Pid>)
    ensures forall pid :: pid in selected <==> Reachable(rows, rootPid, pid)
  {
    selected := {rootPid};
    assert IsPath(rows, rootPid, [rootPid], rootPid);
    var changed := true;
    while changed
      invariant Selecting(rows, rootPid, selected)
      invariant !changed ==> Closed(rows, selected)
      decreases Unselected(rows, rootPid, selected), changed
    {
      selected, changed := Sweep(rows, rootPid, selected);
    }
    ClosedIsComplete(rows, rootPid, selected);
  }

  function Report(row: Row, rootPid: Pid, classify: Classifier): Metric {
    Metric(row.pid, row.parentPid, row.residentSetBytes, row.cpuPercent, classify(row.command, row.pid, rootPid))
  }

  /** The metrics of the rows whose process is selected, in table order. */
  function Kept(rows: seq<Row>, selected: set<Pid>, rootPid: Pid, classify: Classifier): seq<Metric> {
    if rows == [] then []
    else
      (if rows[0].pid in selected then [Report(rows[0], rootPid, classify)] else [])
      + Kept(rows[1..], selected, rootPid, classify)
  }

  function InsertByPid(m: Metric, metrics: seq<Metric>): seq<Metric> {
    if metrics == [] || m.pid <= metrics[0].pid then [m] + metrics else [metrics[0]] + InsertByPid(m, metrics[1..])
  }

  /** A stable sort by process id. */
  function SortByPid(metrics: seq<Metric>): seq<Metric> {
    if metrics == [] then [] else InsertByPid(metrics[0], SortByPid(metrics[1..]))
  }

  predicate OrderedByPid(metrics: seq<Metric>) {
    forall i, j :: 0 <= i < j < |metrics| ==> metrics[i].pid <= metrics[j].pid
  }

  lemma {:induction false} InsertHolds(m: Metric, metrics: seq<Metric>)
    ensures multiset(InsertByPid(m, metrics)) == multiset{m} + multiset(metrics)
  {
    if metrics != [] && m.pid > metrics[0].pid {
      InsertHolds(m, metrics[1..]);
      assert metrics == [metrics[0]] + metrics[1..];
    }
  }

  lemma {:induction false} Prepend(m: Metric, metrics: seq<Metric>)
    requires OrderedByPid(metrics) && forall n :: n in metrics ==> m.pid <= n.pid
    ensures OrderedByPid([m] + metrics)
  {
    forall i, j | 0 <= i < j < |metrics| + 1
      ensures ([m] + metrics)[i].pid <= ([m] + metrics)[j].pid
    {
      assert metrics[j - 1] in metrics;
    }
  }

  lemma {:induction false} InsertOrders(m: Metric, metrics: seq<Metric>)
    requires OrderedByPid(metrics)
    ensures OrderedByPid(InsertByPid(m, metrics))
  {
    if metrics == [] {
    } else if m.pid <= metrics[0].pid {
      assert forall i :: 0 < i < |metrics| ==> metrics[0].pid <= metrics[i].pid;
      Prepend(m, metrics);
    } else {
      var rest := InsertByPid(m, metrics[1..]);
      InsertOrders(m, metrics[1..]);
      InsertHolds(m, metrics[1..]);
      forall n | n in rest
        ensures metrics[0].pid <= n.pid
      {
        assert n in multiset(rest);
        assert n == m || n in metrics[1..];
      }
      Prepend(metrics[0], rest);
    }
  }

  lemma {:induction false} SortIsRight(metrics: seq<Metric>)
    ensures OrderedByPid(SortByPid(metrics)) && multiset(SortByPid(metrics)) == multiset(metrics)
  {
    if metrics != [] {
      SortIsRight(metrics[1..]);
      InsertOrders(metrics[0], SortByPid(metrics[1..]));
      InsertHolds(metrics[0], SortByPid(metrics[1..]));
      assert metrics == [metrics[0]] + metrics[1..];
    }
  }

  lemma {:induction false} KeptIsRight(rows: seq<Row>, selected: set<Pid>, rootPid: Pid, classify: Classifier,
                                       m: Metric)
    ensures m in Kept(rows, selected, rootPid, classify)
            <==> exists i :: 0 <= i < |rows| && rows[i].pid in selected && m == Report(rows[i], rootPid, classify)
  {
    if rows != [] {
      var rest := Kept(rows[1..], selected, rootPid, classify);
      KeptIsRight(rows[1..], selected, rootPid, classify, m);
      if i :| 0 <= i < |rows| && rows[i].pid in selected && m == Report(rows[i], rootPid, classify) {
        if i > 0 {
          assert rows[1..][i - 1] == rows[i];
          assert m in rest;
        }
      }
      if m in rest {
        var i :| 0 <= i < |rows[1..]| && rows[1..][i].pid in selected && m == Report(rows[1..][i], rootPid, classify);
        assert rows[i + 1] == rows[1..][i];
      }
    }
  }

  /** The metrics of one process id, in their order. */
  function WithPid(metrics: seq<Metric>, pid: Pid): seq<Metric> {
    if metrics == [] then []
    else (if metrics[0].pid == pid then [metrics[0]] else []) + WithPid(metrics[1..], pid)
  }

  lemma {:induction false} InsertIsStable(m: Metric, metrics: seq<Metric>, pid: Pid)
    ensures WithPid(InsertByPid(m, metrics), pid) == WithPid([m] + metrics, pid)
  {
    if metrics != [] && m.pid > metrics[0].pid {
      InsertIsStable(m, metrics[1..], pid);
      assert ([m] + metrics[1..])[1..] == metrics[1..];
      assert ([m] + metrics)[1..] == metrics;
    }
  }

  /** Rows of the same process id stay in the order of the table. */
  lemma {:induction false} SortIsStable(metrics: seq<Metric>, pid: Pid)
    ensures WithPid(SortByPid(metrics), pid) == WithPid(metrics, pid)
  {
    if metrics != [] {
      SortIsStable(metrics[1..], pid);
      InsertIsStable(metrics[0], SortByPid(metrics[1..]), pid);
      assert ([metrics[0]] + SortByPid(metrics[1..]))[1..] == SortByPid(metrics[1..]);
    }
  }

  /** The report lists, in order of process id, exactly the rows of processes reachable from the root,
      each as often as the table does. */
  method SelectProcessTree(rows: seq<Row>, rootPid: Pid, classify: Classifier)
    returns (metrics: seq<Metric>, ghost selected: set<Pid>)
    ensures OrderedByPid(metrics)
    ensures forall pid :: pid in selected <==> Reachable(rows, rootPid, pid)
    ensures multiset(metrics) == multiset(Kept(rows, selected, rootPid, classify))
    ensures forall m :: m in metrics <==>
              exists i :: 0 <= i < |rows| && Reachable(rows, rootPid, rows[i].pid)
                          && m == Metric(rows[i].pid, rows[i].parentPid, rows[i].residentSetBytes, rows[i].cpuPercent,
                                         classify(rows[i].command, rows[i].pid, rootPid))
    ensures forall pid :: WithPid(metrics, pid) == WithPid(Kept(rows, selected, rootPid, classify), pid)
  {
    var pids := SelectPids(rows, rootPid);
    selected := pids;
    var kept := Kept(rows, pids, rootPid, classify);
    metrics := SortByPid(kept);
    SortIsRight(kept);
    forall pid
      ensures WithPid(metrics, pid) == WithPid(kept, pid)
    {
      SortIsStable(kept, pid);
    }
    forall m
      ensures m in metrics <==>
              exists i :: 0 <= i < |rows| && Reachable(rows, rootPid, rows[i].pid)
                          && m == Report(rows[i], rootPid, classify)
    {
      KeptIsRight(rows, pids, rootPid, classify, m);
      assert m in metrics <==> m in multiset(metrics);
      assert m in kept <==> m in multiset(kept);
    }
  }

  /** Reachability does not see the order of the table. */
  lemma {:induction false} RowOrderDoesNotMatter(rows: seq<Row>, others: seq<Row>, root: Pid, pid: Pid)
    requires multiset(rows) == multiset(others)
    ensures Reachable(rows, root, pid) <==> Reachable(others, root, pid)
  {
    if Reachable(rows, root, pid) {
      ReachableIn(rows, others, root, pid);
    }
    if Reachable(others, root, pid) {
      ReachableIn(others, rows, root, pid);
    }
  }

  lemma {:induction false} ReachableIn(rows: seq<Row>, others: seq<Row>, root: Pid, pid: Pid)
    requires multiset(rows) == multiset(others) && Reachable(rows, root, pid)
    ensures Reachable(others, root, pid)
  {
    var path: seq<Pid> :| IsPath(rows, root, path, pid);
    forall k | 0 < k < |path|
      ensures IsLink(others, path[k - 1], path[k])
    {
      assert IsLink(rows, path[k - 1], path[k]);
      var i :| 0 <= i < |rows| && rows[i].parentPid == path[k - 1] && rows[i].pid == path[k];
      assert rows[i] in multiset(others);
      assert rows[i] in others;
    }
    assert IsPath(others, root, path, pid);
  }
}
