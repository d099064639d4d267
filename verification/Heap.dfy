/**
 * broker/heap.go: the priority queue, a slice of job pointers kept in heap order with each job's slot in its index
 * field. The sifting loops are those of Go's container/heap, which heap.go calls with its Less, Swap, Push and Pop.
 */
module Heap {
  import opened Basics
  import opened Inspection
  import opened Model

  /** owner is the queue a job belongs to; it never moves to another. */
  class QueuedJob<T> {
    var node: T
    var priority: int
    var index: int
    ghost const owner: object

    constructor (node: T, priority: int, index: int, ghost owner: object)
      ensures this.node == node && this.priority == priority && this.index == index && this.owner == owner
    {
      this.node := node;
      this.priority := priority;
      this.index := index;
      this.owner := owner;
    }
  }

  // ---------------------------------------------------------------- heap order on plain sequences

  function Parent(k: nat): nat
    requires k > 0
  {
    (k - 1) / 2
  }

  ghost predicate Fits(v: seq<Job>, k: nat)
    requires 0 < k < |v|
  {
    v[Parent(k)].priority <= v[k].priority
  }

  /** The first n slots are in heap order. */
  ghost predicate HeapOrdered(v: seq<Job>, n: nat)
    requires n <= |v|
  {
    forall k: nat | 0 < k < n :: Fits(v, k)
  }

  /** In heap order but for slot i, whose children would also fit under its parent. */
  ghost predicate HoleAt(v: seq<Job>, i: nat, n: nat)
    requires n <= |v|
  {
    && (forall k: nat | 0 < k < n && k != i && Parent(k) != i :: Fits(v, k))
    && (i > 0 ==> forall k: nat | 0 < k < n && Parent(k) == i :: v[Parent(i)].priority <= v[k].priority)
  }

  /** Slot i is no larger than its children within the first n slots. */
  ghost predicate ChildrenFit(v: seq<Job>, i: nat, n: nat)
    requires n <= |v|
  {
    forall k: nat | 0 < k < n && Parent(k) == i :: Fits(v, k)
  }

  function Exchange<A>(s: seq<A>, i: nat, j: nat): seq<A>
    requires i < |s| && j < |s|
  {
    s[i := s[j]][j := s[i]]
  }

  lemma ExchangeKeepsJobs(v: seq<Job>, i: nat, j: nat)
    requires i < |v| && j < |v|
    ensures multiset(Exchange(v, i, j)) == multiset(v)
  {
  }

  lemma AppendHole(v: seq<Job>, job: Job)
    requires HeapOrdered(v, |v|)
    ensures Rising(v + [job], |v|, |v| + 1)
  {
    forall k: nat | 0 < k < |v|
      ensures Fits(v + [job], k)
    {
      assert Fits(v, k);
    }
  }

  lemma UpdateHole(v: seq<Job>, i: nat, job: Job)
    requires HeapOrdered(v, |v|) && i < |v|
    ensures HoleAt(v[i := job], i, |v|)
  {
    var w := v[i := job];
    forall k: nat | 0 < k < |v| && k != i && Parent(k) != i
      ensures Fits(w, k)
    {
      assert Fits(v, k);
    }
    if i > 0 {
      assert Fits(v, i);
      forall k: nat | 0 < k < |v| && Parent(k) == i
        ensures w[Parent(i)].priority <= w[k].priority
      {
        assert Fits(v, k);
      }
    }
  }

  /** After trading the root for the last job only the root may be out of place. */
  lemma RootHole(v: seq<Job>, n: nat)
    requires n + 1 == |v| && HeapOrdered(v, |v|)
    ensures HoleAt(Exchange(v, 0, n), 0, n)
  {
    forall k: nat | 0 < k < n && Parent(k) != 0
      ensures Fits(Exchange(v, 0, n), k)
    {
      assert Fits(v, k);
    }
  }

  lemma PopRest(v: seq<Job>, n: nat, moved: bool)
    requires n <= |v|
    requires moved ==> HeapOrdered(v, n)
    requires !moved ==> HoleAt(v, 0, n) && ChildrenFit(v, 0, n)
    ensures HeapOrdered(v[..n], n)
  {
    forall k: nat | 0 < k < n
      ensures Fits(v[..n], k)
    {
      assert Fits(v, k);
    }
  }

  lemma ReplaceJob(v: seq<Job>, i: nat, job: Job)
    requires i < |v|
    ensures multiset(v[i := job]) == multiset(v) - multiset{v[i]} + multiset{job}
  {
  }

  /** The root of a heap is a least element. */
  lemma {:induction false} RootIsLeast(v: seq<Job>, k: nat)
    requires HeapOrdered(v, |v|) && k < |v|
    ensures v[0].priority <= v[k].priority
    decreases k
  {
    if k > 0 {
      RootIsLeast(v, Parent(k));
      assert Fits(v, k);
    }
  }

  lemma OrderedMeansLeast(v: seq<Job>)
    requires v != [] && HeapOrdered(v, |v|)
    ensures Least(multiset(v), v[0])
  {
    forall j | j in multiset(v)
      ensures v[0].priority <= j.priority
    {
      assert j in v;
      var k :| 0 <= k < |v| && v[k] == j;
      RootIsLeast(v, k);
    }
  }

  /** order is what PopItem gives, call after call, from a queue that holds jobs. */
  ghost predicate Pops(jobs: multiset<Job>, order: seq<Job>) {
    order == [] || (Least(jobs, order[0]) && Pops(jobs - multiset{order[0]}, order[1..]))
  }

  lemma {:induction false} PopsCount(jobs: multiset<Job>, order: seq<Job>)
    requires Pops(jobs, order)
    ensures multiset(order) <= jobs
    ensures |order| == |jobs| ==> multiset(order) == jobs
  {
    if order != [] {
      PopsCount(jobs - multiset{order[0]}, order[1..]);
      assert order == [order[0]] + order[1..];
    }
  }

  /** Popping yields nondecreasing priorities and each job as often as it was pushed. */
  lemma {:induction false} PopsAreSorted(jobs: multiset<Job>, order: seq<Job>)
    requires Pops(jobs, order)
    ensures forall i, j | 0 <= i < j < |order| :: order[i].priority <= order[j].priority
    ensures multiset(order) <= jobs && (|order| == |jobs| ==> multiset(order) == jobs)
  {
    hide Least;
    PopsCount(jobs, order);
    forall i, j | 0 <= i < j < |order|
      ensures order[i].priority <= order[j].priority
    {
      EarlierIsLess(jobs, order, i, j);
    }
    hide Pops;
  }

  lemma {:induction false} EarlierIsLess(jobs: multiset<Job>, order: seq<Job>, i: nat, j: nat)
    requires Pops(jobs, order) && i < j < |order|
    ensures order[i].priority <= order[j].priority
  {
    if i == 0 {
      PopsCount(jobs, order);
      assert order[j] in multiset(order);
    } else {
      EarlierIsLess(jobs - multiset{order[0]}, order[1..], i - 1, j - 1);
    }
  }

  /** In heap order but for slot j, which may be too small for its place. */
  ghost predicate Rising(v: seq<Job>, j: nat, n: nat)
    requires n <= |v|
  {
    && (forall k: nat | 0 < k < n && k != j :: Fits(v, k))
    && (0 < j < n ==> forall k: nat | 0 < k < n && Parent(k) == j :: v[Parent(j)].priority <= v[k].priority)
  }

  lemma HoleRises(v: seq<Job>, i: nat, n: nat)
    requires n <= |v| && HoleAt(v, i, n) && ChildrenFit(v, i, n)
    ensures Rising(v, i, n)
  {
  }

  lemma RisenIsOrdered(v: seq<Job>, j: nat, n: nat)
    requires n <= |v| && Rising(v, j, n) && (0 < j < n ==> v[Parent(j)].priority <= v[j].priority)
    ensures HeapOrdered(v, n)
  {
  }

  /** One step of sifting up: the small job at j trades places with its larger parent. */
  lemma UpStep(v: seq<Job>, j: nat, n: nat)
    requires 0 < j < n <= |v| && v[j].priority < v[Parent(j)].priority && Rising(v, j, n)
    ensures Rising(Exchange(v, Parent(j), j), Parent(j), n)
  {
    var w, i := Exchange(v, Parent(j), j), Parent(j);
    forall k: nat | 0 < k < n && k != i
      ensures Fits(w, k)
    {
      if k != j {
        assert Fits(v, k);
      }
    }
    if i > 0 {
      assert Fits(v, i);
      forall k: nat | 0 < k < n && Parent(k) == i
        ensures w[Parent(i)].priority <= w[k].priority
      {
        if k != j {
          assert Fits(v, k);
        }
      }
    }
  }

  /** j is the smaller child of i within the first n slots. */
  ghost predicate SmallerChild(v: seq<Job>, i: nat, j: nat, n: nat)
    requires n <= |v|
  {
    0 < j < n && Parent(j) == i && forall k: nat | 0 < k < n && Parent(k) == i :: v[j].priority <= v[k].priority
  }

  /** One step of sifting down: the large job at i trades places with its smaller child. */
  lemma DownStep(v: seq<Job>, i: nat, j: nat, n: nat)
    requires n <= |v| && HoleAt(v, i, n) && SmallerChild(v, i, j, n) && v[j].priority < v[i].priority
    ensures var w := Exchange(v, i, j); HoleAt(w, j, n) && Fits(w, j)
  {
  }

  // ---------------------------------------------------------------- the queue

  class HeapQueue<T> {
    var taint: string
    var heap: seq<QueuedJob<T>>
    ghost const key: T -> Id
    ghost const tag: Option<string>
    ghost var items: set<QueuedJob<T>>
    /** What the queue holds, by node identifier. */
    ghost var jobs: multiset<Job>

    /** Slots and index fields agree; the jobs are exactly the items of this queue. */
    ghost predicate Indexed()
      reads this`heap, this`items, items
    {
      && (forall i | 0 <= i < |heap| :: heap[i] in items && heap[i].index == i)
      && (forall x | x in items :: x.owner == this && 0 <= x.index < |heap| && heap[x.index] == x)
    }

    ghost function JobOf(item: QueuedJob<T>): Job
      reads item
    {
      Job(key(item.node), item.priority)
    }

    /** The jobs slot by slot, by node identifier. */
    ghost function JobsOf(slots: seq<QueuedJob<T>>): (v: seq<Job>)
      reads slots
      ensures |v| == |slots|
    {
      seq(|slots|, i requires 0 <= i < |slots| reads slots => JobOf(slots[i]))
    }

    ghost function View(): (v: seq<Job>)
      requires Indexed()
      reads this`heap, this`items, items
      ensures |v| == |heap|
    {
      JobsOf(heap)
    }

    ghost predicate Ordered()
      reads this`heap, this`items, items
    {
      Indexed() && HeapOrdered(View(), |heap|)
    }

    ghost predicate Valid()
      reads this, items
    {
      Ordered() && jobs == Jobs()
    }

    ghost function Jobs(): multiset<Job>
      requires Indexed()
      reads this`heap, this`items, items
    {
      multiset(View())
    }

    /** tag tells the queues of a broker apart; key names the node of a job. */
    constructor (ghost key: T -> Id, ghost tag: Option<string>)
      ensures Valid() && jobs == multiset{} && taint == "" && items == {} && this.key == key && this.tag == tag
    {
      taint := "";
      heap := [];
      items := {};
      jobs := multiset{};
      this.key := key;
      this.tag := tag;
    }

    method Less(i: nat, j: nat) returns (less: bool)
      requires Indexed() && i < |heap| && j < |heap|
      ensures less <==> View()[i].priority < View()[j].priority
    {
      less := heap[i].priority < heap[j].priority;
    }

    method Swap(i: nat, j: nat)
      requires Indexed() && i < |heap| && j < |heap|
      modifies this`heap, items`index
      ensures Indexed() && items == old(items) && heap == Exchange(old(heap), i, j)
      ensures View() == Exchange(old(View()), i, j)
    {
      heap := heap[i := heap[j]][j := heap[i]];
      heap[i].index := i;
      heap[j].index := j;
    }

    /** container/heap: move the job in slot j up to where it fits. */
    method Up(j0: nat)
      requires Indexed() && j0 < |heap| && Rising(View(), j0, |heap|)
      modifies this`heap, items`index
      ensures Ordered() && items == old(items) && Jobs() == old(Jobs())
    {
      hide Rising, HeapOrdered, Fits;
      var j: nat := j0;
      while true
        invariant Indexed() && items == old(items) && |heap| == old(|heap|) && j < |heap|
        invariant Jobs() == old(Jobs()) && Rising(View(), j, |heap|)
        decreases j
      {
        // Go's (j - 1) / 2 rounds towards zero, so the root is its own parent
        var i: nat := if j == 0 then 0 else (j - 1) / 2;
        if i == j {
          break;
        }
        var less := Less(j, i);
        if !less {
          break;
        }
        UpStep(View(), j, |heap|);
        ExchangeKeepsJobs(View(), i, j);
        Swap(i, j);
        j := i;
      }
      RisenIsOrdered(View(), j, |heap|);
    }

    /** The child of slot i that sifting down compares with: the right one only if strictly smaller. */
    method ChooseChild(i: nat, n: nat) returns (j: nat)
      requires Indexed() && n <= |heap| && 2 * i + 1 < n
      ensures i < j < n && SmallerChild(View(), i, j, n)
    {
      j := 2 * i + 1;
      var j2 := j + 1;
      if j2 < n {
        var right := Less(j2, j);
        if right {
          j := j2;
        }
      }
    }

    /** One exchange of Down. */
    method Sink(i: nat, j: nat, n: nat)
      requires Indexed() && i < j < n <= |heap| && HoleAt(View(), i, n) && SmallerChild(View(), i, j, n)
      requires View()[j].priority < View()[i].priority
      modifies this`heap, items`index
      ensures Indexed() && items == old(items) && |heap| == old(|heap|) && Jobs() == old(Jobs())
      ensures HoleAt(View(), j, n) && Fits(View(), j) && View()[n..] == old(View())[n..]
    {
      DownStep(View(), i, j, n);
      ExchangeKeepsJobs(View(), i, j);
      hide HoleAt, Fits, SmallerChild;
      Swap(i, j);
    }

    /** container/heap: move the job in slot i0 down within the first n slots; says whether it moved. */
    method Down(i0: nat, n: nat) returns (moved: bool)
      requires Indexed() && n <= |heap| && i0 < |heap| && HoleAt(View(), i0, n)
      modifies this`heap, items`index
      ensures Indexed() && items == old(items) && |heap| == old(|heap|) && Jobs() == old(Jobs())
      ensures View()[n..] == old(View())[n..]
      ensures moved ==> HeapOrdered(View(), n)
      ensures !moved ==> View() == old(View()) && ChildrenFit(View(), i0, n)
    {
      hide HoleAt, Fits, SmallerChild, HeapOrdered, ChildrenFit;
      var i: nat := i0;
      while true
        invariant Indexed() && items == old(items) && |heap| == old(|heap|) && i < |heap|
        invariant Jobs() == old(Jobs()) && View()[n..] == old(View())[n..]
        invariant HoleAt(View(), i, n) && i0 <= i
        invariant i == i0 ==> View() == old(View())
        invariant i > i0 ==> i < n && Fits(View(), i)
        decreases |heap| - i
      {
        if 2 * i + 1 >= n {
          NoChildren(View(), i, n);
          break;
        }
        var j := ChooseChild(i, n);
        var less := Less(j, i);
        if !less {
          SettledHole(View(), i, j, n);
          break;
        }
        Sink(i, j, n);
        i := j;
      }
      moved := i > i0;
      if moved {
        ClosedHole(View(), i, n);
      }
    }

    /** heap.Push: append, then sift up. */
    method Push(item: QueuedJob<T>)
      requires Ordered() && item !in items && item.owner == this
      modifies this`heap, this`items, item`index, items`index
      ensures Ordered() && items == old(items) + {item}
      ensures Jobs() == old(Jobs()) + multiset{JobOf(item)}
    {
      ghost var before := View();
      ghost var job := JobOf(item);
      var n := |heap|;
      item.index := n;
      heap := heap + [item];
      items := items + {item};
      assert View() == before + [job];
      AppendHole(before, job);
      assert multiset(before + [job]) == multiset(before) + multiset{job};
      Up(n);
    }

    /** The Pop of heap.Interface: cut the last slot off. */
    method CutLast() returns (item: QueuedJob<T>)
      requires Indexed() && heap != [] && HeapOrdered(View()[..|heap| - 1], |heap| - 1)
      modifies this`heap, this`items
      ensures Ordered() && old(heap) == heap + [item] && items == old(items) - {item} && item in old(items)
      ensures old(View()) == View() + [JobOf(item)]
    {
      var n := |heap| - 1;
      ghost var v := View();
      item := heap[n];
      heap := heap[..n];
      items := items - {item};
      assert View() == v[..n];
    }

    /** The root goes to the last slot; the slots before it are a heap again. */
    method RootToLast()
      requires Ordered() && heap != []
      modifies this`heap, items`index
      ensures Indexed() && items == old(items) && |heap| == old(|heap|) && Jobs() == old(Jobs())
      ensures View()[|heap| - 1] == old(View())[0] && HeapOrdered(View()[..|heap| - 1], |heap| - 1)
    {
      var n := |heap| - 1;
      RootHole(View(), n);
      ExchangeKeepsJobs(View(), 0, n);
      hide HoleAt, Fits, HeapOrdered, ChildrenFit;
      Swap(0, n);
      var moved := Down(0, n);
      PopRest(View(), n, moved);
    }

    /** heap.Pop: trade the root for the last job, sift it down, cut the last slot off. */
    method Pop() returns (item: QueuedJob<T>)
      requires Ordered() && heap != []
      modifies this`heap, this`items, items`index
      ensures Ordered() && items == old(items) - {item} && item in old(items)
      ensures Least(old(Jobs()), JobOf(item))
      ensures Jobs() == old(Jobs()) - multiset{JobOf(item)}
    {
      hide Fits, HeapOrdered, Least;
      ghost var root := View()[0];
      OrderedMeansLeast(View());
      RootToLast();
      item := CutLast();
      assert multiset(View() + [root]) == multiset(View()) + multiset{root};
    }

    // -------------------------------------------------------------- operations of HeapQueue

    method PushItem(node: T, priority: int)
      requires Valid()
      modifies this`heap, this`items, this`jobs, items`index
      ensures Valid() && fresh(items - old(items)) && old(items) <= items
      ensures forall x | x in items && x !in old(items) :: x.node == node
      ensures jobs == old(jobs) + multiset{Job(key(node), priority)}
    {
      var item := new QueuedJob(node, priority, -1, this);
      Push(item);
      jobs := Jobs();
    }

    /** The least job, or null if there is none. */
    method PopItem() returns (item: QueuedJob?<T>)
      requires Valid()
      modifies this`heap, this`items, this`jobs, items`index
      ensures Valid()
      ensures item == null <==> old(jobs) == multiset{}
      ensures item == null ==> items == old(items) && jobs == old(jobs)
      ensures item != null ==>
        && items == old(items) - {item} && item in old(items)
        && Least(old(jobs), JobOf(item))
        && jobs == old(jobs) - multiset{JobOf(item)}
    {
      hide HeapOrdered, Indexed, Least, View, JobsOf, Jobs, Ordered;
      EmptyMeansNoJobs();
      if |heap| == 0 {
        return null;
      }
      item := PopSome();
    }

    method PopSome() returns (item: QueuedJob<T>)
      requires Valid() && heap != []
      modifies this`heap, this`items, this`jobs, items`index
      ensures Valid() && items == old(items) - {item} && item in old(items)
      ensures Least(old(jobs), JobOf(item)) && jobs == old(jobs) - multiset{JobOf(item)}
    {
      hide HeapOrdered, Least, View, JobsOf;
      item := Pop();
      jobs := Jobs();
    }

    lemma EmptyMeansNoJobs()
      requires Valid()
      ensures heap == [] <==> jobs == multiset{}
    {
    }

    method PeekItem() returns (item: QueuedJob?<T>)
      requires Valid()
      ensures item == null <==> jobs == multiset{}
      ensures item != null ==> item in items && Least(jobs, JobOf(item))
    {
      if |heap| == 0 {
        return null;
      }
      OrderedMeansLeast(View());
      assert View()[0] in Jobs();
      item := heap[0];
    }

    method Length() returns (n: nat)
      requires Valid()
      ensures n == |jobs|
    {
      n := |heap|;
    }

    /** heap.Fix: the job in slot i has a new priority; sift it down, or failing that up. */
    method Fix(i: nat)
      requires Indexed() && i < |heap| && HoleAt(View(), i, |heap|)
      modifies this`heap, items`index
      ensures Ordered() && items == old(items) && Jobs() == old(Jobs())
    {
      hide Fits, HeapOrdered, HoleAt, ChildrenFit, Rising;
      var moved := Down(i, |heap|);
      if !moved {
        HoleRises(View(), i, |heap|);
        Up(i);
      }
    }

    /** The first half of UpdateItem: the fields change, the slot does not yet. */
    method Relabel(item: QueuedJob<T>, node: T, priority: int)
      requires Ordered() && item in items
      modifies item`node, item`priority
      ensures Indexed() && item.node == node && item.priority == priority && item.index == old(item.index)
      ensures 0 <= item.index < |heap| && HoleAt(View(), item.index, |heap|)
      ensures Jobs() == old(Jobs()) - multiset{old(JobOf(item))} + multiset{Job(key(node), priority)}
    {
      hide HoleAt, HeapOrdered, Fits;
      ghost var v, i, job := View(), item.index, Job(key(node), priority);
      UpdateHole(v, i, job);
      ReplaceJob(v, i, job);
      item.node := node;
      item.priority := priority;
      assert View() == v[i := job];
    }

    method UpdateItem(item: QueuedJob<T>, node: T, priority: int)
      requires Valid() && item in items
      modifies this`heap, this`jobs, items`index, item`node, item`priority
      ensures Valid() && items == old(items)
      ensures jobs == old(jobs) - multiset{old(JobOf(item))} + multiset{Job(key(node), priority)}
    {
      hide HoleAt, Indexed, Jobs, View, JobsOf;
      Relabel(item, node, priority);
      Fix(item.index);
      jobs := Jobs();
    }
  }

  lemma NoChildren(v: seq<Job>, i: nat, n: nat)
    requires n <= |v| && 2 * i + 1 >= n
    ensures ChildrenFit(v, i, n)
  {
  }

  /** No larger than its smaller child: no larger than any child. */
  lemma SettledHole(v: seq<Job>, i: nat, j: nat, n: nat)
    requires n <= |v| && i < |v| && SmallerChild(v, i, j, n) && v[i].priority <= v[j].priority
    ensures ChildrenFit(v, i, n)
  {
  }

  lemma ClosedHole(v: seq<Job>, i: nat, n: nat)
    requires 0 < i < n <= |v| && HoleAt(v, i, n) && Fits(v, i) && ChildrenFit(v, i, n)
    ensures HeapOrdered(v, n)
  {
  }

  // ---------------------------------------------------------------- popping it all

  lemma WithoutFirst(jobs: multiset<Job>, order: seq<Job>)
    requires order != []
    ensures jobs - multiset{order[0]} - multiset(order[1..]) == jobs - multiset(order)
  {
    assert order == [order[0]] + order[1..];
    assert multiset(order) == multiset{order[0]} + multiset(order[1..]);
  }

  /** One more pop. */
  lemma {:induction false} PopsSnoc(jobs: multiset<Job>, order: seq<Job>, job: Job)
    requires Pops(jobs, order) && Least(jobs - multiset(order), job)
    ensures Pops(jobs, order + [job])
  {
    if order == [] {
      assert jobs - multiset(order) == jobs;
      assert (order + [job])[1..] == [];
    } else {
      hide Least;
      WithoutFirst(jobs, order);
      PopsSnoc(jobs - multiset{order[0]}, order[1..], job);
      assert (order + [job])[1..] == order[1..] + [job];
    }
  }

  /** order has come out of jobs so far, rest is still there. */
  ghost predicate Popping(jobs: multiset<Job>, rest: multiset<Job>, order: seq<Job>) {
    Pops(jobs, order) && jobs == rest + multiset(order)
  }

  lemma NonePopped(jobs: multiset<Job>)
    ensures Popping(jobs, jobs, [])
  {
  }

  lemma PopMore(jobs: multiset<Job>, rest: multiset<Job>, order: seq<Job>, job: Job)
    requires Popping(jobs, rest, order) && Least(rest, job)
    ensures Popping(jobs, rest - multiset{job}, order + [job]) && |rest - multiset{job}| < |rest|
  {
    assert jobs - multiset(order) == rest;
    PopsSnoc(jobs, order, job);
  }

  lemma AllPopped(jobs: multiset<Job>, order: seq<Job>)
    requires Popping(jobs, multiset{}, order)
    ensures multiset(order) == jobs && forall i, j | 0 <= i < j < |order| :: order[i].priority <= order[j].priority
  {
    PopsAreSorted(jobs, order);
    hide Pops;
  }

  /** PopItem until it has nothing: every job comes out, as often as it went in, in order of priority. */
  method PopAll<T>(queue: HeapQueue<T>) returns (popped: seq<QueuedJob<T>>, ghost order: seq<Job>)
    requires queue.Valid()
    modifies queue`heap, queue`items, queue`jobs, queue.items`index
    ensures queue.Valid() && queue.jobs == multiset{}
    ensures |order| == |popped| && forall i | 0 <= i < |popped| :: order[i] == queue.JobOf(popped[i])
    ensures forall i, j | 0 <= i < j < |popped| :: popped[i].priority <= popped[j].priority
    ensures multiset(order) == old(queue.jobs)
  {
    hide HeapQueue.Valid, Least, Popping;
    popped, order := [], [];
    NonePopped(queue.jobs);
    var more := true;
    while more
      invariant queue.Valid() && queue.items <= old(queue.items) && Popping(old(queue.jobs), queue.jobs, order)
      invariant |order| == |popped| && forall i | 0 <= i < |popped| :: order[i] == queue.JobOf(popped[i])
      invariant !more ==> queue.jobs == multiset{}
      decreases |queue.jobs|, more
    {
      ghost var rest := queue.jobs;
      var item := queue.PopItem();
      if item == null {
        more := false;
      } else {
        PopMore(old(queue.jobs), rest, order, queue.JobOf(item));
        popped, order := popped + [item], order + [queue.JobOf(item)];
      }
    }
    AllPopped(old(queue.jobs), order);
  }
}
