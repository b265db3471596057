/**
 * The loop's task queue (unio/src/loop.cc): tasks submit tasks, and one drain runs until the queue
 * is empty. A task is a finite tree of what it will submit, so a drain has something to measure.
 */
module LoopQueue {
  import opened Prelude

  datatype Task = Task(id: nat, acts: seq<Act>)

  /** What a running task asks of its loop: `sendQueuedTask` or `uninit`. */
  datatype Act = Submit(task: Task) | Uninit

  function TaskSize(t: Task): nat
    decreases t, 1
  {
    1 + ActsSize(t.acts)
  }

  function ActsSize(acts: seq<Act>): nat
    decreases acts, 0
  {
    if acts == [] then 0
    else ActSize(acts[0]) + ActsSize(acts[1..])
  }

  function ActSize(a: Act): nat
    decreases a, 0
  {
    match a
    case Submit(t) => TaskSize(t)
    case Uninit => 0
  }

  /** Number of tasks a queue will ever give rise to. */
  function ForestSize(q: seq<Task>): nat {
    if q == [] then 0 else TaskSize(q[0]) + ForestSize(q[1..])
  }

  /** The tasks a list of acts submits, in order. */
  function Submitted(acts: seq<Act>): seq<Task> {
    if acts == [] then []
    else (match acts[0] case Submit(t) => [t] case Uninit => []) + Submitted(acts[1..])
  }

  /** The tasks submitted by all of `q`, in order: the next level of the forest. */
  function Children(q: seq<Task>): seq<Task> {
    if q == [] then [] else Submitted(q[0].acts) + Children(q[1..])
  }

  lemma {:induction false} ForestSizeAppend(p: seq<Task>, q: seq<Task>)
    ensures ForestSize(p + q) == ForestSize(p) + ForestSize(q)
  {
    if p == [] {
      assert p + q == q;
    } else {
      ForestSizeAppend(p[1..], q);
      assert (p + q)[1..] == p[1..] + q;
    }
  }

  lemma {:induction false} SubmittedSize(acts: seq<Act>)
    ensures ForestSize(Submitted(acts)) == ActsSize(acts)
  {
    if acts != [] {
      SubmittedSize(acts[1..]);
      var first := match acts[0] case Submit(t) => [t] case Uninit => [];
      ForestSizeAppend(first, Submitted(acts[1..]));
    }
  }

  lemma {:induction false} SubmittedAppend(a: seq<Act>, b: seq<Act>)
    ensures Submitted(a + b) == Submitted(a) + Submitted(b)
  {
    if a == [] {
      assert a + b == b;
    } else {
      SubmittedAppend(a[1..], b);
      assert (a + b)[1..] == a[1..] + b;
    }
  }

  /** One level further down, exactly the level's own tasks are gone. */
  lemma {:induction false} ChildrenSize(q: seq<Task>)
    ensures ForestSize(Children(q)) + |q| == ForestSize(q)
  {
    if q != [] {
      ChildrenSize(q[1..]);
      SubmittedSize(q[0].acts);
      ForestSizeAppend(Submitted(q[0].acts), Children(q[1..]));
    }
  }

  /** Order of execution: take the front task, run it, its submissions join the back. */
  function DrainOrder(q: seq<Task>): seq<Task>
    decreases ForestSize(q)
  {
    if q == [] then []
    else
      SubmittedSize(q[0].acts);
      ForestSizeAppend(q[1..], Submitted(q[0].acts));
      [q[0]] + DrainOrder(q[1..] + Submitted(q[0].acts))
  }

  /** Level-order traversal of the forest, level by level. */
  function LevelOrder(q: seq<Task>): seq<Task>
    decreases ForestSize(q)
  {
    if q == [] then []
    else
      ChildrenSize(q);
      q + LevelOrder(Children(q))
  }

  lemma DrainUnfold(q: seq<Task>)
    requires q != []
    ensures DrainOrder(q) == [q[0]] + DrainOrder(q[1..] + Submitted(q[0].acts))
  {
  }

  lemma {:induction false} DrainFrontSegment(p: seq<Task>, r: seq<Task>)
    ensures DrainOrder(p + r) == p + DrainOrder(r + Children(p))
    decreases |p|
  {
    hide DrainOrder, Submitted;
    if p == [] {
      assert p + r == r && r + Children(p) == r;
      assert p + DrainOrder(r) == DrainOrder(r);
    } else {
      var kids, rest := Submitted(p[0].acts), p[1..];
      assert (p + r)[0] == p[0] && (p + r)[1..] == rest + r && [p[0]] + rest == p;
      DrainUnfold(p + r);
      Associative(rest, r, kids);
      DrainFrontSegment(rest, r + kids);
      Associative(r, kids, Children(rest));
      Associative([p[0]], rest, DrainOrder(r + Children(p)));
    }
  }

  /** A drain runs the whole queue first, then everything that queue submitted, and so on. */
  lemma {:induction false} DrainIsLevelOrder(q: seq<Task>)
    ensures DrainOrder(q) == q + DrainOrder(Children(q))
    ensures DrainOrder(q) == LevelOrder(q)
    decreases ForestSize(q)
  {
    DrainFrontSegment(q, []);
    assert q + [] == q && [] + Children(q) == Children(q);
    if q != [] {
      ChildrenSize(q);
      DrainIsLevelOrder(Children(q));
    }
  }

  /** Every task of the forest is run once: the drain is exactly as long as the forest is large. */
  lemma {:induction false} DrainRunsEveryTask(q: seq<Task>)
    ensures |DrainOrder(q)| == ForestSize(q)
    decreases ForestSize(q)
  {
    if q != [] {
      SubmittedSize(q[0].acts);
      ForestSizeAppend(q[1..], Submitted(q[0].acts));
      DrainRunsEveryTask(q[1..] + Submitted(q[0].acts));
    }
  }

  /** Whether some task of the list calls `uninit`. */
  predicate Closes(ts: seq<Task>) {
    exists i :: 0 <= i < |ts| && Uninit in ts[i].acts
  }

  /** Whether some task of the list submits a task. */
  predicate Submits(ts: seq<Task>) {
    exists i :: 0 <= i < |ts| && Submitted(ts[i].acts) != []
  }

  class LoopContext {
    /** `queue_handle.type != 0`, that is, `uv_async_init` has run. */
    var handleType: bool
    /** The coalescing flag of `uv_async_send`. */
    var wakePending: bool
    /** `uv_close` has been called on the async handle. */
    var closing: bool
    var queue: seq<Task>
    /** Tasks begun so far, oldest first. */
    var executed: seq<Task>

    constructor ()
      ensures !handleType && !wakePending && !closing && queue == [] && executed == []
    {
      handleType, wakePending, closing, queue, executed := false, false, false, [], [];
    }

    method Init()
      modifies this
      ensures handleType && wakePending
      ensures queue == old(queue) && executed == old(executed) && closing == old(closing)
    {
      handleType := true;
      wakePending := true;
    }

    /** It must be called from the loop thread; every task already is. */
    method Uninit()
      modifies this`closing
      ensures closing
    {
      closing := true;
    }

    method AddQueuedTask(task: Task)
      modifies this`queue, this`wakePending
      ensures queue == old(queue) + [task]
      ensures wakePending == (old(wakePending) || handleType)
    {
      queue := queue + [task];
      if handleType {
        wakePending := true;
      }
    }

    method RunTask(task: Task)
      modifies this`queue, this`wakePending, this`closing
      ensures queue == old(queue) + Submitted(task.acts)
      ensures closing == (old(closing) || Act.Uninit in task.acts)
      ensures wakePending == (old(wakePending) || (handleType && Submitted(task.acts) != []))
    {
      var i := 0;
      while i < |task.acts|
        invariant i <= |task.acts|
        invariant queue == old(queue) + Submitted(task.acts[..i])
        invariant closing == (old(closing) || Act.Uninit in task.acts[..i])
        invariant wakePending == (old(wakePending) || (handleType && Submitted(task.acts[..i]) != []))
      {
        assert task.acts[..i + 1] == task.acts[..i] + [task.acts[i]];
        SubmittedAppend(task.acts[..i], [task.acts[i]]);
        match task.acts[i] {
          case Submit(t) => AddQueuedTask(t);
          case Uninit => Uninit();
        }
        i := i + 1;
      }
      assert task.acts[..i] == task.acts;
    }

    /**
     * The async callback. It returns only with an empty queue, also when a task calls `uninit`, and
     * has then run the level-order traversal of what was queued.
     */
    method ProcessQueuedTask()
      modifies this`queue, this`wakePending, this`closing, this`executed
      ensures queue == []
      ensures executed == old(executed) + LevelOrder(old(queue))
      ensures closing == (old(closing) || Closes(LevelOrder(old(queue))))
      ensures wakePending == (old(wakePending) || (handleType && Submits(LevelOrder(old(queue)))))
    {
      ghost var done: seq<Task> := [];
      while queue != []
        invariant executed == old(executed) + done
        invariant DrainOrder(old(queue)) == done + DrainOrder(queue)
        invariant closing == (old(closing) || Closes(done))
        invariant wakePending == (old(wakePending) || (handleType && Submits(done)))
        decreases ForestSize(queue)
      {
        ghost var before, q := done, queue;
        var resource := queue[0];
        queue := queue[1..];
        executed := executed + [resource];
        RunTask(resource);
        done := done + [resource];
        DrainStep(before, q);
        ClosesSnoc(before, resource);
      }
      DrainIsLevelOrder(old(queue));
      assert done == LevelOrder(old(queue));
    }
  }

  /** One turn of the drain loop: the front task moves from the work left to the work done. */
  lemma DrainStep(done: seq<Task>, q: seq<Task>)
    requires q != []
    ensures ForestSize(q[1..] + Submitted(q[0].acts)) < ForestSize(q)
    ensures done + DrainOrder(q) == (done + [q[0]]) + DrainOrder(q[1..] + Submitted(q[0].acts))
  {
    SubmittedSize(q[0].acts);
    ForestSizeAppend(q[1..], Submitted(q[0].acts));
    Associative(done, [q[0]], DrainOrder(q[1..] + Submitted(q[0].acts)));
  }

  lemma ClosesSnoc(ts: seq<Task>, t: Task)
    ensures Closes(ts + [t]) <==> Closes(ts) || Uninit in t.acts
    ensures Submits(ts + [t]) <==> Submits(ts) || Submitted(t.acts) != []
  {
    var all := ts + [t];
    assert all[|ts|] == t;
    forall i | 0 <= i < |ts| ensures all[i] == ts[i] {}
    if Closes(ts) {
      var i :| 0 <= i < |ts| && Uninit in ts[i].acts;
      assert Uninit in all[i].acts;
    }
    if Submits(ts) {
      var i :| 0 <= i < |ts| && Submitted(ts[i].acts) != [];
      assert Submitted(all[i].acts) != [];
    }
  }
}
