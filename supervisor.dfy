/**
 * The process supervisor: waiting for a launched stage to exit, and killing
 * a process together with every process it has spawned.
 */
module Supervisor {
  import opened Values

  type Pid = int

  /** One row of the operating system's process table. */
  datatype Proc = Proc(parent: Pid, alive: bool)

  type Table = map<Pid, Proc>

  /** Following parents from `p` reaches `root` within `fuel` steps. */
  predicate Reaches(t: Table, p: Pid, root: Pid, fuel: nat)
    decreases fuel
  {
    fuel > 0 && p in t && (t[p].parent == root || Reaches(t, t[p].parent, root, fuel - 1))
  }

  /**
   * `psutil.Process(root).children(recursive=True)`: every other process whose
   * chain of parents leads to the root (no chain in a table is longer than the table).
   */
  function Descendants(t: Table, root: Pid): (r: set<Pid>)
    ensures r <= t.Keys && root !in r
  {
    set p | p in t && p != root && Reaches(t, p, root, |t|)
  }

  /** Two tables with the same processes and the same parent links. */
  predicate SameParents(t: Table, u: Table) {
    t.Keys == u.Keys && forall p :: p in t ==> t[p].parent == u[p].parent
  }

  /**
   * What `terminate_subprocesses` does to the table: when the root is still
   * running, every descendant and then the root are killed; otherwise nothing
   * changes. No process is added or removed and no parent link changes.
   */
  function KillTree(t: Table, root: Pid): (r: Table)
    ensures SameParents(t, r)
    ensures root in t && t[root].alive ==>
              !r[root].alive && forall p :: p in Descendants(t, root) ==> !r[p].alive
    ensures forall p :: p in t && p != root && p !in Descendants(t, root) ==> r[p] == t[p]
    ensures !(root in t && t[root].alive) ==> r == t
  {
    if root in t && t[root].alive then
      map p | p in t :: if p == root || p in Descendants(t, root) then t[p].(alive := false) else t[p]
    else t
  }

  /** Whether a chain of parents reaches the root depends only on the parent links. */
  lemma {:induction false} ReachesSameParents(t: Table, u: Table, p: Pid, root: Pid, fuel: nat)
    requires SameParents(t, u)
    ensures Reaches(t, p, root, fuel) == Reaches(u, p, root, fuel)
    decreases fuel
  {
    if fuel > 0 && p in t {
      ReachesSameParents(t, u, t[p].parent, root, fuel - 1);
    }
  }

  /** Killing processes does not change who descends from whom. */
  lemma DescendantsAfterKill(t: Table, root: Pid, x: Pid)
    ensures Descendants(KillTree(t, root), x) == Descendants(t, x)
  {
    var u := KillTree(t, root);
    assert |u| == |t| by {
      assert u.Keys == t.Keys;
    }
    forall p | p in t
      ensures Reaches(t, p, x, |t|) == Reaches(u, p, x, |t|)
    {
      ReachesSameParents(t, u, p, x, |t|);
    }
  }

  /** More fuel never loses a chain. */
  lemma {:induction false} ReachesMonotone(t: Table, p: Pid, root: Pid, m: nat, n: nat)
    requires m <= n && Reaches(t, p, root, m)
    ensures Reaches(t, p, root, n)
    decreases m
  {
    if t[p].parent != root {
      ReachesMonotone(t, t[p].parent, root, m - 1, n - 1);
    }
  }

  /** A chain in a smaller table is a chain in the whole table. */
  lemma {:induction false} ReachesRemoved(t: Table, x: Pid, p: Pid, root: Pid, n: nat)
    requires Reaches(t - {x}, p, root, n)
    ensures Reaches(t, p, root, n)
    decreases n
  {
    if (t - {x})[p].parent != root {
      ReachesRemoved(t, x, (t - {x})[p].parent, root, n - 1);
    }
  }

  /** A chain from `q` that needs `x` to reach the root goes through `x`, so `x` reaches the root too. */
  lemma {:induction false} ReachesThrough(t: Table, x: Pid, q: Pid, root: Pid, n: nat)
    requires Reaches(t, q, root, n) && !Reaches(t - {x}, q, root, n)
    ensures Reaches(t, x, root, n)
    decreases n
  {
    if q != x {
      assert q in t - {x} && (t - {x})[q] == t[q];
      ReachesThrough(t, x, t[q].parent, root, n - 1);
      ReachesMonotone(t, x, root, n - 1, n);
    }
  }

  /** No chain needs more steps than there are processes in the table. */
  lemma {:induction false} ReachesWithinTable(t: Table, p: Pid, root: Pid, n: nat)
    requires Reaches(t, p, root, n)
    ensures Reaches(t, p, root, |t|)
    decreases |t|, n
  {
    var q := t[p].parent;
    if q == root {
      ReachesMonotone(t, p, root, 1, |t|);
    } else {
      var u := t - {p};
      assert u.Keys == t.Keys - {p};
      assert |u| == |t| - 1 by {
        assert |u.Keys| == |t.Keys| - 1;
      }
      if Reaches(u, q, root, n - 1) {
        ReachesWithinTable(u, q, root, n - 1);
        ReachesRemoved(t, p, q, root, |u|);
      } else {
        ReachesThrough(t, p, q, root, n - 1);
        ReachesWithinTable(t, p, root, n - 1);
      }
    }
  }

  /**
   * The descendants are closed under taking children: a process whose parent
   * is the root or one of its descendants is itself a descendant (unless it is
   * the root), so the `|t|` steps `Descendants` allows are enough.
   */
  lemma ChildOfDescendant(t: Table, root: Pid, d: Pid, c: Pid)
    requires d == root || d in Descendants(t, root)
    requires c in t && c != root && t[c].parent == d
    ensures c in Descendants(t, root)
  {
    if d == root {
      ReachesMonotone(t, c, root, 1, |t|);
    } else {
      assert Reaches(t, c, root, |t| + 1);
      ReachesWithinTable(t, c, root, |t| + 1);
    }
  }

  /**
   * Terminating the same process twice is the same as once: after the first
   * call the root has exited, so the second call changes nothing.
   */
  lemma KillTreeIdempotent(t: Table, root: Pid)
    ensures KillTree(KillTree(t, root), root) == KillTree(t, root)
  {
  }

  /**
   * After terminating a process that is still running, neither it nor
   * anything that descends from it is left running, by the table's own
   * reckoning afterwards. The stages never reach this case: they terminate
   * only after waiting for the exit (see `StageLeavesDescendantsRunning`).
   */
  lemma NothingLeftRunning(t: Table, root: Pid)
    requires root in t && t[root].alive
    ensures forall p :: p in KillTree(t, root) && (p == root || p in Descendants(KillTree(t, root), root))
              ==> !KillTree(t, root)[p].alive
  {
    DescendantsAfterKill(t, root, root);
  }

  /** The table once the launched process has exited: its row is marked exited, nothing else changes. */
  function Exited(t: Table, root: Pid): (r: Table)
    requires root in t
    ensures SameParents(t, r) && !r[root].alive
    ensures forall p :: p in t && p != root ==> r[p] == t[p]
  {
    t[root := t[root].(alive := false)]
  }

  /**
   * The end of every stage: once `is_finished_training` has returned, the
   * launched process has exited, so `terminate_subprocesses` finds nothing
   * running to act on. A descendant still running when the launched process
   * exited is still running afterwards, and is still counted as its descendant.
   */
  lemma StageLeavesDescendantsRunning(t: Table, root: Pid, p: Pid)
    requires root in t && p in Descendants(t, root) && t[p].alive
    ensures var after := KillTree(Exited(t, root), root);
            p in after && after[p].alive && p in Descendants(after, root)
  {
    var u := Exited(t, root);
    ReachesSameParents(t, u, p, root, |t|);
    assert |u| == |t| by {
      assert u.Keys == t.Keys;
    }
    assert p in Descendants(u, root);
  }

  /** The process table as the supervising script sees it through `poll()` and `psutil`. */
  class ProcessTable {
    var procs: Table

    constructor (t: Table)
      ensures procs == t
    {
      procs := t;
    }

    /** `process.poll() is None`: the process has not exited. */
    method IsRunning(pid: Pid) returns (running: bool)
      ensures running <==> pid in procs && procs[pid].alive
    {
      running := pid in procs && procs[pid].alive;
    }

    /** `psutil.Process(pid).kill()`. */
    method Kill(pid: Pid)
      requires pid in procs
      modifies this
      ensures procs == old(procs)[pid := old(procs)[pid].(alive := false)]
    {
      procs := procs[pid := procs[pid].(alive := false)];
    }

    /**
     * `terminate_subprocesses(process)`: if the process is still running, kill
     * each of its recursive children and then the process itself; otherwise do
     * nothing.
     */
    method TerminateSubprocesses(root: Pid)
      modifies this
      ensures procs == KillTree(old(procs), root)
    {
      var running := IsRunning(root);
      if running {
        var children := Descendants(procs, root);
        ghost var before := procs;
        var remaining := children;
        while remaining != {}
          invariant remaining <= children
          invariant procs.Keys == before.Keys
          invariant forall p :: p in procs ==>
                      procs[p] == if p in children - remaining then before[p].(alive := false) else before[p]
          decreases remaining
        {
          var child :| child in remaining;
          Kill(child);
          remaining := remaining - {child};
        }
        Kill(root);
      }
    }

    /**
     * What every stage does after `execute_cmd`: `is_finished_training`
     * polls until the launched process has exited, then
     * `terminate_subprocesses` checks `poll()` once more, finds the process
     * exited and kills nothing. The only change to the table is the exit the
     * polls observed; whatever the process spawned keeps running.
     */
    method FinishStage(root: Pid, polls: seq<Option<int>>) returns (n: nat)
      requires root in procs
      requires exists i :: 0 <= i < |polls| && polls[i].Some?
      modifies this
      ensures n < |polls| && polls[n].Some? && forall j :: 0 <= j < n ==> polls[j].None?
      ensures procs == Exited(old(procs), root)
    {
      n := IsFinishedTraining(polls);
      procs := Exited(procs, root);
      TerminateSubprocesses(root);
    }
  }

  /**
   * `is_finished_training(process)`: calls `poll()` every two seconds until it
   * returns an exit status. `polls[i]` is what the i-th call returns; the
   * result is how many calls found the process still running.
   */
  method IsFinishedTraining(polls: seq<Option<int>>) returns (n: nat)
    requires exists i :: 0 <= i < |polls| && polls[i].Some?
    ensures n < |polls| && polls[n].Some?
    ensures forall j :: 0 <= j < n ==> polls[j].None?
  {
    n := 0;
    while polls[n].None?
      invariant n < |polls|
      invariant forall j :: 0 <= j < n ==> polls[j].None?
      invariant exists i :: n <= i < |polls| && polls[i].Some?
      decreases |polls| - n
    {
      n := n + 1;
    }
  }
}
