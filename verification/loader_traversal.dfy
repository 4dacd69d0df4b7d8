/**
  The node walk of the scene loader: a FIFO worklist of nodes, each with the
  transform accumulated above it. Popping a node gives it its own local
  transform times the accumulated one, and enqueues every child, in order,
  carrying that product. The walk ends because the node hierarchy has no
  cycle: every entry's work is the number of paths below its node, and each
  pop lowers the queue's total by one.
 */
module LoaderTraversal {
  import opened Common
  import opened GltfDocument
  import LoaderFormats

  /** An entry of the worklist: a node and the transform accumulated above it. */
  datatype Pending = Pending(transform: Mat4, index: nat)

  predicate QueueInRange(d: Document, q: seq<Pending>) {
    forall k :: 0 <= k < |q| ==> q[k].index < |d.nodes|
  }

  /** The node's local transform, multiplied on the left of the accumulated one. */
  function ThisTransform(d: Document, p: Pending): (m: Mat4)
    requires p.index < |d.nodes|
    ensures m.factors == LoaderFormats.ToGlam(d.nodes[p.index].transform).factors + p.transform.factors
  {
    Mul(LoaderFormats.ToGlam(d.nodes[p.index].transform), p.transform)
  }

  /** The entries enqueued for `children`, in order, each carrying `t`. */
  function ChildEntries(t: Mat4, children: seq<nat>): (r: seq<Pending>)
    ensures |r| == |children|
    ensures forall k :: 0 <= k < |r| ==> r[k] == Pending(t, children[k])
  {
    seq(|children|, k requires 0 <= k < |children| => Pending(t, children[k]))
  }

  /** The worklist after popping its front entry and enqueueing that node's children. */
  function Step(d: Document, q: seq<Pending>): (r: seq<Pending>)
    requires q != [] && q[0].index < |d.nodes|
  {
    q[1..] + ChildEntries(ThisTransform(d, q[0]), d.nodes[q[0].index].children)
  }

  /** The number of paths that start at node `n` and follow child links, the empty one included. */
  function Paths(d: Document, rank: seq<nat>, n: nat): (c: nat)
    requires RankedBy(d, rank) && n < |d.nodes|
    ensures c >= 1
    decreases rank[n], 1, 0
  {
    1 + ChildPaths(d, rank, n, |d.nodes[n].children|)
  }

  /** The paths below the first `k` children of node `n`. */
  function ChildPaths(d: Document, rank: seq<nat>, n: nat, k: nat): nat
    requires RankedBy(d, rank) && n < |d.nodes| && k <= |d.nodes[n].children|
    decreases rank[n], 0, k
  {
    if k == 0 then 0
    else ChildPaths(d, rank, n, k - 1) + Paths(d, rank, d.nodes[n].children[k - 1])
  }

  /** The work left in a worklist: the paths below all its entries. */
  function QueueWork(d: Document, rank: seq<nat>, q: seq<Pending>): (w: nat)
    requires RankedBy(d, rank) && QueueInRange(d, q)
    ensures w >= |q|
  {
    if q == [] then 0
    else QueueWork(d, rank, q[..|q| - 1]) + Paths(d, rank, q[|q| - 1].index)
  }

  lemma {:induction false} QueueWorkConcat(d: Document, rank: seq<nat>, a: seq<Pending>, b: seq<Pending>)
    requires RankedBy(d, rank) && QueueInRange(d, a) && QueueInRange(d, b)
    ensures QueueInRange(d, a + b)
    ensures QueueWork(d, rank, a + b) == QueueWork(d, rank, a) + QueueWork(d, rank, b)
    decreases |b|
  {
    if b == [] {
      assert a + b == a;
    } else {
      assert (a + b)[..|a + b| - 1] == a + b[..|b| - 1];
      QueueWorkConcat(d, rank, a, b[..|b| - 1]);
    }
  }

  lemma {:induction false} QueueWorkChildren(d: Document, rank: seq<nat>, n: nat, t: Mat4, k: nat)
    requires RankedBy(d, rank) && n < |d.nodes| && k <= |d.nodes[n].children|
    ensures QueueInRange(d, ChildEntries(t, d.nodes[n].children[..k]))
    ensures QueueWork(d, rank, ChildEntries(t, d.nodes[n].children[..k])) == ChildPaths(d, rank, n, k)
    decreases k
  {
    var ch := d.nodes[n].children;
    if k > 0 {
      QueueWorkChildren(d, rank, n, t, k - 1);
      assert ChildEntries(t, ch[..k])[..k - 1] == ChildEntries(t, ch[..k - 1]);
    }
  }

  /** A step keeps the worklist inside the document and does exactly one unit of work. */
  lemma StepWork(d: Document, rank: seq<nat>, q: seq<Pending>)
    requires RankedBy(d, rank) && QueueInRange(d, q) && q != []
    ensures QueueInRange(d, Step(d, q))
    ensures QueueWork(d, rank, Step(d, q)) == QueueWork(d, rank, q) - 1
  {
    var n := q[0].index;
    var ch := d.nodes[n].children;
    assert q == [q[0]] + q[1..];
    QueueWorkConcat(d, rank, [q[0]], q[1..]);
    assert [q[0]][..0] == [];
    QueueWorkChildren(d, rank, n, ThisTransform(d, q[0]), |ch|);
    assert ch[..|ch|] == ch;
    QueueWorkConcat(d, rank, q[1..], ChildEntries(ThisTransform(d, q[0]), ch));
  }

  /** The entries the walk pops from worklist `q`, in the order it pops them. */
  function Visits(d: Document, rank: seq<nat>, q: seq<Pending>): (r: seq<Pending>)
    requires RankedBy(d, rank) && QueueInRange(d, q)
    ensures QueueInRange(d, r)
    ensures |r| == QueueWork(d, rank, q)
    decreases QueueWork(d, rank, q)
  {
    if q == [] then []
    else
      StepWork(d, rank, q);
      [q[0]] + Visits(d, rank, Step(d, q))
  }

  /** `c` is what popping `p` enqueues for one of its node's children. */
  predicate ChildOf(d: Document, c: Pending, p: Pending) {
    p.index < |d.nodes| && c.index in d.nodes[p.index].children && c.transform == ThisTransform(d, p)
  }

  /** Every entry of `v` from position `from` on was enqueued by popping an earlier entry. */
  predicate EnqueuedByEarlier(d: Document, v: seq<Pending>, from: nat) {
    forall k :: from <= k < |v| ==> EnqueuedBefore(d, v, k)
  }

  /** Entry `k` of `v` was enqueued by popping an entry before it. */
  predicate EnqueuedBefore(d: Document, v: seq<Pending>, k: nat)
    requires k < |v|
  {
    exists j :: 0 <= j < k && ChildOf(d, v[k], v[j])
  }

  /** Every child of every node popped in `v` is popped in `v` too, carrying that node's transform. */
  predicate ChildrenVisited(d: Document, v: seq<Pending>)
    requires QueueInRange(d, v)
  {
    forall j, c :: 0 <= j < |v| && c in d.nodes[v[j].index].children ==> Pending(ThisTransform(d, v[j]), c) in v
  }

  /** The walk is first in, first out: it pops the entries already queued first, in order. */
  lemma {:induction false} VisitsFifo(d: Document, rank: seq<nat>, q: seq<Pending>)
    requires RankedBy(d, rank) && QueueInRange(d, q)
    ensures |q| <= |Visits(d, rank, q)| && Visits(d, rank, q)[..|q|] == q
    decreases QueueWork(d, rank, q)
  {
    if q != [] {
      VisitsUnfold(d, rank, q);
      var next := Step(d, q);
      VisitsFifo(d, rank, next);
      assert next[..|q| - 1] == q[1..];
      ConsPrefix(q, Visits(d, rank, next), next);
    }
  }

  /** Popping the front entry: the walk from `q` is that entry, then the walk from the next worklist. */
  lemma VisitsUnfold(d: Document, rank: seq<nat>, q: seq<Pending>)
    requires RankedBy(d, rank) && QueueInRange(d, q) && q != []
    ensures QueueInRange(d, Step(d, q))
    ensures Visits(d, rank, q) == [q[0]] + Visits(d, rank, Step(d, q))
  {
    StepWork(d, rank, q);
  }

  /** `q` is a prefix of its front followed by `rest`, when `rest` starts with `next` and `next` with the rest of `q`. */
  lemma ConsPrefix<T>(q: seq<T>, rest: seq<T>, next: seq<T>)
    requires q != [] && |next| <= |rest| && rest[..|next|] == next
    requires |q| - 1 <= |next| && next[..|q| - 1] == q[1..]
    ensures |q| <= |[q[0]] + rest| && ([q[0]] + rest)[..|q|] == q
  {
    assert rest[..|q| - 1] == rest[..|next|][..|q| - 1];
    assert ([q[0]] + rest)[..|q|] == [q[0]] + rest[..|q| - 1];
  }


  /** Every child of every node the walk pops is popped too, carrying that node's transform. */
  lemma {:induction false} VisitsClosed(d: Document, rank: seq<nat>, q: seq<Pending>)
    requires RankedBy(d, rank) && QueueInRange(d, q)
    ensures ChildrenVisited(d, Visits(d, rank, q))
    decreases QueueWork(d, rank, q)
  {
    if q != [] {
      StepWork(d, rank, q);
      var next := Step(d, q);
      var v, rest := Visits(d, rank, q), Visits(d, rank, next);
      VisitsClosed(d, rank, next);
      VisitsFifo(d, rank, next);
      forall j, c | 0 <= j < |v| && c in d.nodes[v[j].index].children
        ensures Pending(ThisTransform(d, v[j]), c) in v
      {
        if j == 0 {
          var i :| 0 <= i < |d.nodes[q[0].index].children| && d.nodes[q[0].index].children[i] == c;
          assert next[|q| - 1 + i] == Pending(ThisTransform(d, q[0]), c);
          assert rest[|q| - 1 + i] == next[|q| - 1 + i];
        } else {
          assert v[j] == rest[j - 1];
        }
      }
    }
  }

  /** Every entry the walk pops beyond the queued ones was enqueued by an earlier pop. */
  lemma {:induction false} VisitsOrigin(d: Document, rank: seq<nat>, q: seq<Pending>)
    requires RankedBy(d, rank) && QueueInRange(d, q)
    ensures EnqueuedByEarlier(d, Visits(d, rank, q), |q|)
    decreases QueueWork(d, rank, q)
  {
    if q != [] {
      VisitsUnfold(d, rank, q);
      var next := Step(d, q);
      VisitsOrigin(d, rank, next);
      VisitsFifo(d, rank, next);
      OriginAfterPop(d, q, next, Visits(d, rank, next));
    }
  }

  /**
    The step of `VisitsOrigin`: once the front of `q` is popped, every entry
    past the original worklist is either one of its children or was enqueued
    by an entry popped later.
   */
  lemma OriginAfterPop(d: Document, q: seq<Pending>, next: seq<Pending>, rest: seq<Pending>)
    requires q != [] && q[0].index < |d.nodes| && next == Step(d, q)
    requires |next| <= |rest| && rest[..|next|] == next
    requires EnqueuedByEarlier(d, rest, |next|)
    ensures EnqueuedByEarlier(d, [q[0]] + rest, |q|)
  {
    var v := [q[0]] + rest;
    var t := ThisTransform(d, q[0]);
    var children := d.nodes[q[0].index].children;
    assert next == q[1..] + ChildEntries(t, children);
    forall k | |q| <= k < |v|
      ensures EnqueuedBefore(d, v, k)
    {
      assert v[k] == rest[k - 1];
      if k - 1 < |next| {
        var i := k - 1 - (|q| - 1);
        assert rest[k - 1] == next[k - 1] == Pending(t, children[i]);
        assert children[i] in children;
        assert ChildOf(d, v[k], v[0]);
      } else {
        assert EnqueuedBefore(d, rest, k - 1);
        var j :| 0 <= j < k - 1 && ChildOf(d, rest[k - 1], rest[j]);
        assert v[j + 1] == rest[j];
        assert ChildOf(d, v[k], v[j + 1]);
      }
    }
    assert EnqueuedByEarlier(d, v, |q|);
  }


  /** The walk the loader runs: from node 0 at the identity, whatever the scenes list as roots. */
  function Walk(d: Document, rank: seq<nat>): (r: seq<Pending>)
    requires RankedBy(d, rank) && |d.nodes| > 0
    ensures QueueInRange(d, r)
  {
    Visits(d, rank, [Pending(Identity, 0)])
  }

  /** The walk pops node 0 first, at the identity, and pops one entry per path from node 0. */
  lemma WalkStart(d: Document, rank: seq<nat>)
    requires RankedBy(d, rank) && |d.nodes| > 0
    ensures |Walk(d, rank)| == Paths(d, rank, 0)
    ensures Walk(d, rank)[0] == Pending(Identity, 0)
  {
    var q := [Pending(Identity, 0)];
    assert Walk(d, rank) == Visits(d, rank, q);
    assert q[..0] == [];
    assert QueueWork(d, rank, q) == Paths(d, rank, 0);
    VisitsFifo(d, rank, q);
  }

  /** Every entry the walk pops after node 0 is a child of an earlier one, carrying its transform. */
  lemma WalkOrigin(d: Document, rank: seq<nat>)
    requires RankedBy(d, rank) && |d.nodes| > 0
    ensures EnqueuedByEarlier(d, Walk(d, rank), 1)
  {
    var q := [Pending(Identity, 0)];
    assert Walk(d, rank) == Visits(d, rank, q);
    VisitsOrigin(d, rank, q);
  }

  /** Every child of a node the walk pops is popped too, carrying that node's transform. */
  lemma WalkClosed(d: Document, rank: seq<nat>)
    requires RankedBy(d, rank) && |d.nodes| > 0
    ensures ChildrenVisited(d, Walk(d, rank))
  {
    var q := [Pending(Identity, 0)];
    assert Walk(d, rank) == Visits(d, rank, q);
    VisitsClosed(d, rank, q);
  }

  /**
    Transforms compose child first: a grandchild of node 0 gets its own local
    transform, then its parent's, then node 0's.
   */
  lemma GrandchildTransform(d: Document, rank: seq<nat>, a: nat, b: nat)
    requires RankedBy(d, rank) && |d.nodes| > 0
    requires a in d.nodes[0].children && b in d.nodes[a].children
    ensures a < |d.nodes| && b < |d.nodes|
    ensures var top := Pending(Identity, 0);
      var pa := Pending(ThisTransform(d, top), a);
      var pb := Pending(ThisTransform(d, pa), b);
      pa in Walk(d, rank) && pb in Walk(d, rank) &&
      ThisTransform(d, pb).factors ==
        LoaderFormats.ToGlam(d.nodes[b].transform).factors +
        LoaderFormats.ToGlam(d.nodes[a].transform).factors +
        LoaderFormats.ToGlam(d.nodes[0].transform).factors
  {
    var w := Walk(d, rank);
    WalkStart(d, rank);
    WalkClosed(d, rank);
    var top := Pending(Identity, 0);
    var pa := Pending(ThisTransform(d, top), a);
    assert pa in w by {
      assert w[0] == top;
    }
    var j :| 0 <= j < |w| && w[j] == pa;
    assert Pending(ThisTransform(d, w[j]), b) in w;
  }
}
