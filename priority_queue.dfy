/** An abstract model of the stable priority queue the lake filler imports.
    Its implementation is not part of this model; what the lake filler relies
    on is stated here as a reference definition over the queue's live entries:

    - entries are kept in insertion order, one live entry per task;
    - adding a task that is already present replaces its entry, and the new
      entry counts as the most recently inserted one;
    - popping returns the task of lowest priority, and among equal priorities
      the one inserted first (the queue is stable);
    - popping an empty queue fails;
    - merging another queue into this one adds that queue's entries in their
      insertion order, as repeated additions would. */
module StablePQ {

  datatype Option<T> = None | Some(value: T)

  /** One live entry: a task (a node id or a pit id) and its priority. */
  datatype Entry = Entry(task: int, priority: real)

  function Tasks(es: seq<Entry>): set<int>
  {
    set e | e in es :: e.task
  }

  /** No task has two live entries. */
  predicate Distinct(es: seq<Entry>)
  {
    forall i, j :: 0 <= i < j < |es| ==> es[i].task != es[j].task
  }

  /** The entries of `es` for tasks other than `t`, in their original order. */
  function Without(es: seq<Entry>, t: int): (r: seq<Entry>)
    ensures forall e :: e in r <==> e in es && e.task != t
    ensures Distinct(es) ==> Distinct(r)
    decreases |es|
  {
    if es == [] then []
    else if es[0].task == t then
      DistinctTail(es);
      Without(es[1..], t)
    else
      var rest := Without(es[1..], t);
      DistinctTail(es);
      if Distinct(es) then
        DistinctCons(es[0], rest);
        [es[0]] + rest
      else
        [es[0]] + rest
  }

  /** Dropping the first entry keeps the tasks distinct, and the first
      entry's task is then absent from the rest. */
  lemma DistinctTail(es: seq<Entry>)
    requires es != []
    ensures Distinct(es) ==> Distinct(es[1..]) && es[0].task !in Tasks(es[1..])
  {
    if Distinct(es) {
      forall i, j | 0 <= i < j < |es[1..]| ensures es[1..][i].task != es[1..][j].task {
        assert es[1..][i] == es[i + 1] && es[1..][j] == es[j + 1];
      }
      forall e | e in es[1..] ensures e.task != es[0].task {
        var j :| 0 <= j < |es[1..]| && es[1..][j] == e;
        assert es[j + 1] == e;
      }
    }
  }

  /** Putting in front an entry whose task the rest does not hold keeps
      the tasks distinct. */
  lemma DistinctCons(e: Entry, rest: seq<Entry>)
    requires Distinct(rest) && forall x :: x in rest ==> x.task != e.task
    ensures Distinct([e] + rest)
  {
    var s := [e] + rest;
    forall i, j | 0 <= i < j < |s| ensures s[i].task != s[j].task {
      assert s[j] == rest[j - 1];
      assert s[j] in rest;
      if i > 0 {
        assert s[i] == rest[i - 1];
      }
    }
  }

  /** `add_task(t, p)`: any live entry of `t` is dropped and `(t, p)` is
      appended as the newest entry. */
  function Added(es: seq<Entry>, t: int, p: real): (r: seq<Entry>)
    ensures forall e :: e in r <==> (e in es && e.task != t) || e == Entry(t, p)
    ensures Tasks(r) == Tasks(es) + {t}
    ensures Distinct(es) ==> Distinct(r)
    ensures r != [] && r[|r| - 1] == Entry(t, p)
  {
    var w := Without(es, t);
    var r := w + [Entry(t, p)];
    assert Distinct(es) ==> Distinct(r) by {
      if Distinct(es) {
        forall i, j | 0 <= i < j < |r| ensures r[i].task != r[j].task {
          assert r[i] == w[i] && r[i] in w;
          if j < |w| {
            assert r[j] == w[j];
          }
        }
      }
    }
    assert Tasks(r) == Tasks(es) + {t} by {
      forall x | x in Tasks(es) + {t} ensures x in Tasks(r) {
        if x != t {
          var e :| e in es && e.task == x;
          assert e in r;
        } else {
          assert r[|r| - 1] in r;
        }
      }
    }
    r
  }

  /** The most recently inserted entry. */
  function Last(es: seq<Entry>): Entry
    requires es != []
  {
    es[|es| - 1]
  }

  /** Adding the same entry twice is the same as adding it once. */
  lemma AddedTwice(es: seq<Entry>, t: int, p: real)
    ensures Added(Added(es, t, p), t, p) == Added(es, t, p)
  {
    var w := Without(es, t);
    WithoutAbsent(w, t);
    assert Without(w + [Entry(t, p)], t) == Without(w, t) by {
      WithoutAppend(w, Entry(t, p), t);
    }
  }

  /** Removing a task that no entry holds changes nothing. */
  lemma {:induction false} WithoutAbsent(es: seq<Entry>, t: int)
    requires forall e :: e in es ==> e.task != t
    ensures Without(es, t) == es
  {
    if es != [] {
      assert es[0] in es;
      forall e | e in es[1..] ensures e.task != t {
        assert e in es;
      }
      WithoutAbsent(es[1..], t);
      assert es == [es[0]] + es[1..];
    }
  }

  /** Removing `t` from a sequence that ends in an entry of `t` drops that entry. */
  lemma {:induction false} WithoutAppend(es: seq<Entry>, e: Entry, t: int)
    requires e.task == t
    ensures Without(es + [e], t) == Without(es, t)
  {
    if es == [] {
      assert [e][1..] == [];
    } else {
      assert (es + [e])[1..] == es[1..] + [e];
      WithoutAppend(es[1..], e, t);
    }
  }

  /** The index `pop_task` takes: lowest priority, earliest among ties. */
  function MinIndex(es: seq<Entry>): (i: nat)
    requires es != []
    ensures i < |es|
    ensures forall j :: 0 <= j < |es| ==> es[i].priority <= es[j].priority
    ensures forall j :: 0 <= j < i ==> es[i].priority < es[j].priority
    decreases |es|
  {
    if |es| == 1 then 0
    else
      var k := MinIndex(es[..|es| - 1]);
      if es[|es| - 1].priority < es[k].priority then |es| - 1 else k
  }

  /** A task added below every live priority is the next one popped. */
  lemma AddedLowestPopsFirst(es: seq<Entry>, t: int, p: real)
    requires forall e :: e in es ==> p < e.priority
    ensures var r := Added(es, t, p); r[MinIndex(r)] == Entry(t, p)
  {
    var r := Added(es, t, p);
    var i := MinIndex(r);
    assert r[i] in r;
    assert r[i].priority <= r[|r| - 1].priority;
  }

  /** The entries left once the entry at `i` is taken out. */
  function RemoveAt(es: seq<Entry>, i: nat): (r: seq<Entry>)
    requires i < |es|
    ensures |r| == |es| - 1
    ensures forall e :: e in r ==> e in es
    ensures forall e :: e in es && e != es[i] ==> e in r
    ensures Distinct(es) ==> Distinct(r) && es[i].task !in Tasks(r)
  {
    var r := es[..i] + es[i + 1..];
    assert forall k :: 0 <= k < |r| ==> r[k] == es[if k < i then k else k + 1];
    assert forall e :: e in es && e != es[i] ==> e in r by {
      forall e | e in es && e != es[i] ensures e in r {
        var k :| 0 <= k < |es| && es[k] == e;
        assert r[if k < i then k else k - 1] == e;
      }
    }
    r
  }

  /** `merge_queues(other)`: each of `os`'s entries added to `es` in turn. */
  function Merged(es: seq<Entry>, os: seq<Entry>): (r: seq<Entry>)
    ensures Tasks(r) == Tasks(es) + Tasks(os)
    ensures Distinct(es) ==> Distinct(r)
    decreases |os|
  {
    if os == [] then es
    else
      assert os == [os[0]] + os[1..];
      assert Tasks(os) == {os[0].task} + Tasks(os[1..]);
      Merged(Added(es, os[0].task, os[0].priority), os[1..])
  }

  /** What a merge keeps: every entry of the merged-in queue (when its
      tasks are distinct), every entry of this queue whose task the other
      queue does not hold, and nothing else. */
  lemma {:induction false} MergedEntries(es: seq<Entry>, os: seq<Entry>)
    ensures forall e :: e in Merged(es, os) ==> e in os || (e in es && e.task !in Tasks(os))
    ensures forall e :: e in es && e.task !in Tasks(os) ==> e in Merged(es, os)
    ensures Distinct(os) ==> forall e :: e in os ==> e in Merged(es, os)
    decreases |os|
  {
    if os != [] {
      var head, tail := os[0], os[1..];
      var added := Added(es, head.task, head.priority);
      assert os == [head] + tail;
      assert Tasks(os) == {head.task} + Tasks(tail);
      MergedEntries(added, tail);
      DistinctTail(os);
      forall e | e in es && e.task !in Tasks(os) ensures e in Merged(es, os) {
        assert e in added;
      }
      if Distinct(os) {
        assert head in added;
      }
    }
  }

  /** The queue object: its live entries in insertion order. The lake
      filler only adds to the master queue of lakes; the per-lake frontier
      queues are kept as entry sequences and use the functions above. */
  class StablePriorityQueue {
    var entries: seq<Entry>

    constructor ()
      ensures entries == []
    {
      entries := [];
    }

    /** `add_task`. */
    method AddTask(task: int, priority: real)
      modifies this
      ensures entries == Added(old(entries), task, priority)
    {
      entries := Added(entries, task, priority);
    }
  }
}
