/**
 Choosing an agent worker for a job: at random, weighted by spare capacity, trying another one as long
 as workers turn the job down.
 */
module WorkerSelection {
  import opened Common

  type Worker = nat
  type Key = nat
  type Job = nat

  /** What a worker says of itself when asked. */
  datatype View = View(available: bool, load: real)

  function Spare(v: View): (spare: real)
    ensures 0.0 <= spare
  {
    if v.load < 1.0 then 1.0 - v.load else 0.0
  }

  /** The capacity of the workers in a list, added up in its order. */
  function Capacity(list: seq<Worker>, view: Worker -> View): (sum: real)
    ensures 0.0 <= sum
  {
    if list == [] then 0.0 else Capacity(list[..|list| - 1], view) + Spare(view(list[|list| - 1]))
  }

  predicate Distinct(list: seq<Worker>) { forall i, j :: 0 <= i < j < |list| ==> list[i] != list[j] }

  /** The workers a draw may select. */
  function Candidates(workers: seq<Worker>, ignore: set<Worker>, view: Worker -> View): set<Worker> {
    set w | w in workers && w !in ignore && view(w).available
  }

  // ---------------------------------------------------------------------------------- which draw selects which

  /** The share of draws of the worker at a position: above all capacity before it, up to its own. */
  predicate Selects(order: seq<Worker>, view: Worker -> View, x: real, i: nat) {
    && i < |order|
    && x <= Capacity(order[..i + 1], view)
    && (i == 0 || Capacity(order[..i], view) < x)
  }

  lemma CapacityNext(list: seq<Worker>, view: Worker -> View, i: nat)
    requires i < |list|
    ensures Capacity(list[..i + 1], view) == Capacity(list[..i], view) + Spare(view(list[i]))
  {
    assert list[..i + 1][..i] == list[..i];
  }

  lemma {:induction false} CapacityGrows(list: seq<Worker>, view: Worker -> View, i: nat, j: nat)
    requires i <= j <= |list|
    ensures Capacity(list[..i], view) <= Capacity(list[..j], view)
    decreases j
  {
    if i < j {
      CapacityGrows(list, view, i, j - 1);
      CapacityNext(list, view, j - 1);
    }
  }

  /** No point is in the share of two workers. */
  lemma SelectsOne(order: seq<Worker>, view: Worker -> View, x: real, i: nat, j: nat)
    requires Selects(order, view, x, i) && Selects(order, view, x, j)
    ensures i == j
  {
    if i < j {
      CapacityGrows(order, view, i + 1, j);
    } else if j < i {
      CapacityGrows(order, view, j + 1, i);
    }
  }

  /** And every point up to the whole capacity is in the share of some worker: there is nothing to fall back from. */
  lemma {:induction false} SelectsSome(order: seq<Worker>, view: Worker -> View, x: real, n: nat)
    requires 0 < n <= |order| && x <= Capacity(order[..n], view)
    ensures exists i :: 0 <= i < n && Selects(order, view, x, i)
    decreases n
  {
    if n == 1 {
      assert Selects(order, view, x, 0);
    } else if x <= Capacity(order[..n - 1], view) {
      SelectsSome(order, view, x, n - 1);
    } else {
      assert Selects(order, view, x, n - 1);
    }
  }

  /** The point of a draw from [0, 1): that part of the whole capacity. */
  predicate IsPoint(draw: real, sum: real, point: real) { point == draw * sum }

  lemma Divides(a: real, b: real, s: real)
    requires s > 0.0
    ensures a < b * s <==> a / s < b
  {
    var q := a / s;
    assert q * s == a;
    Scales(q, b, s);
    Scales(b, q, s);
  }

  lemma Scales(a: real, b: real, s: real)
    requires s > 0.0
    ensures a < b ==> a * s < b * s
  {
    if a < b {
      assert (b - a) * s > 0.0;
    }
  }

  lemma SplitFraction(a: real, b: real, s: real)
    requires s > 0.0
    ensures (a + b) / s - a / s == b / s
  {
  }

  lemma SelectsBetween(order: seq<Worker>, view: Worker -> View, x: real, i: nat)
    requires i < |order|
    ensures Selects(order, view, x, i) <==>
            x <= Capacity(order[..i], view) + Spare(view(order[i])) && (i == 0 || Capacity(order[..i], view) < x)
  {
    CapacityNext(order, view, i);
  }

  /**
   The draws that select a worker form an interval whose length is its part of the whole capacity,
   wherever in the visiting order it comes.
   */
  lemma ShareOfDraws(order: seq<Worker>, view: Worker -> View, all: real, i: nat, draw: real, point: real)
    requires i < |order| && all == Capacity(order, view) > 0.0 && IsPoint(draw, all, point)
    ensures
      var before, spare := Capacity(order[..i], view), Spare(view(order[i]));
      && (Selects(order, view, point, i) <==> (i == 0 || before / all < draw) && draw <= (before + spare) / all)
      && (before + spare) / all - before / all == spare / all
      && spare == if view(order[i]).load < 1.0 then 1.0 - view(order[i]).load else 0.0
  {
    var before, spare := Capacity(order[..i], view), Spare(view(order[i]));
    SelectsBetween(order, view, draw * all, i);
    Divides(before, draw, all);
    Divides(before + spare, draw, all);
    SplitFraction(before, spare, all);
  }

  /** A worker with no spare capacity can be selected by the draw of exactly zero only, when it is visited first. */
  lemma BusyOnlyAtZero(order: seq<Worker>, view: Worker -> View, all: real, draw: real, i: nat)
    requires 0.0 <= draw && all == Capacity(order, view) > 0.0 && i < |order| && view(order[i]).load >= 1.0
    ensures Selects(order, view, draw * all, i) <==> i == 0 && draw == 0.0
  {
    SelectsBetween(order, view, draw * all, i);
    if i == 0 {
      assert Capacity(order[..i], view) == 0.0;
      Scales(0.0, draw, all);
      assert 0.0 * all == 0.0;
    }
  }

  // ---------------------------------------------------------------------------------- order does not matter

  function Without(list: seq<Worker>, w: Worker): seq<Worker> {
    if list == [] then []
    else if list[|list| - 1] == w then list[..|list| - 1]
    else Without(list[..|list| - 1], w) + [list[|list| - 1]]
  }

  lemma {:induction false} WithoutOne(list: seq<Worker>, w: Worker, view: Worker -> View)
    requires w in list && Distinct(list)
    ensures Capacity(list, view) == Capacity(Without(list, w), view) + Spare(view(w))
    ensures Distinct(Without(list, w))
    ensures forall x :: x in Without(list, w) <==> x in list && x != w
    ensures |Without(list, w)| == |list| - 1
  {
    var front, last := list[..|list| - 1], list[|list| - 1];
    assert list == front + [last];
    if last == w {
    } else {
      WithoutOne(front, w, view);
      var rest := Without(front, w);
      assert (rest + [last])[..|rest|] == rest;
      assert last !in rest;
    }
  }

  lemma SomeMember(list: seq<Worker>)
    requires list != []
    ensures exists w :: w in list
  {
    assert list[0] in list;
  }

  /** The whole capacity is the same in whatever order it is added up. */
  lemma {:induction false} CapacityOfSet(a: seq<Worker>, b: seq<Worker>, view: Worker -> View)
    requires Distinct(a) && Distinct(b) && forall w :: w in a <==> w in b
    ensures Capacity(a, view) == Capacity(b, view)
    decreases |a|
  {
    if a == [] {
      if b != [] {
        SomeMember(b);
        assert false;
      }
    } else {
      var last := a[|a| - 1];
      var front := a[..|a| - 1];
      assert a == front + [last];
      WithoutOne(b, last, view);
      CapacityOfSet(front, Without(b, last), view);
    }
  }

  // ---------------------------------------------------------------------------------- selection

  datatype Selection = Selected(worker: Worker) | NoWorkers | NoCapacity

  lemma CandidatesNext(workers: seq<Worker>, ignore: set<Worker>, view: Worker -> View, n: nat)
    requires n < |workers|
    ensures Candidates(workers[..n + 1], ignore, view) ==
            Candidates(workers[..n], ignore, view)
            + if workers[n] !in ignore && view(workers[n]).available then {workers[n]} else {}
  {
    assert workers[..n + 1] == workers[..n] + [workers[n]];
  }

  lemma CapacityExtends(list: seq<Worker>, view: Worker -> View, w: Worker)
    ensures Capacity(list + [w], view) == Capacity(list, view) + Spare(view(w))
  {
    assert (list + [w])[..|list|] == list;
  }

  /** The candidates in the order of the registry, and their capacity. */
  method NormalizeLoads(workers: seq<Worker>, ignore: set<Worker>, view: Worker -> View)
    returns (loads: map<Worker, real>, sum: real, listed: seq<Worker>)
    requires Distinct(workers)
    ensures loads.Keys == Candidates(workers, ignore, view)
    ensures forall w :: w in loads ==> loads[w] == Spare(view(w))
    ensures forall w :: w in loads ==> loads[w] == if view(w).load < 1.0 then 1.0 - view(w).load else 0.0
    ensures IsOrder(listed, loads.Keys)
    ensures sum == Capacity(listed, view)
  {
    loads, sum, listed := map[], 0.0, [];
    for n := 0 to |workers|
      invariant loads.Keys == Candidates(workers[..n], ignore, view)
      invariant forall w :: w in loads ==> loads[w] == Spare(view(w))
      invariant IsOrder(listed, loads.Keys)
      invariant sum == Capacity(listed, view)
    {
      var w := workers[n];
      CandidatesNext(workers, ignore, view, n);
      assert w !in loads.Keys;
      if w !in ignore && view(w).available {
        loads := loads[w := Spare(view(w))];
        sum := sum + loads[w];
        CapacityExtends(listed, view, w);
        listed := listed + [w];
      }
    }
    assert workers[..|workers|] == workers;
  }

  /** No worker that is registered, available and not ignored has a load below 1. */
  predicate AllBusy(workers: seq<Worker>, ignore: set<Worker>, view: Worker -> View) {
    forall w | w in workers :: w !in ignore && view(w).available ==> view(w).load >= 1.0
  }

  lemma {:induction false} ZeroExactly(list: seq<Worker>, view: Worker -> View)
    ensures Capacity(list, view) == 0.0 <==> forall w :: w in list ==> view(w).load >= 1.0
  {
    if list != [] {
      var front, last := list[..|list| - 1], list[|list| - 1];
      ZeroExactly(front, view);
      assert list == front + [last];
    }
  }

  lemma BusyExactly(order: seq<Worker>, workers: seq<Worker>, ignore: set<Worker>, view: Worker -> View)
    requires IsOrder(order, Candidates(workers, ignore, view))
    ensures Capacity(order, view) == 0.0 <==> AllBusy(workers, ignore, view)
  {
    ZeroExactly(order, view);
    assert forall w :: w in order <==> w in Candidates(workers, ignore, view);
  }

  /** A random point below the whole capacity. */
  method DrawPoint(draw: real, sum: real) returns (point: real)
    requires 0.0 <= draw < 1.0 && sum > 0.0
    ensures IsPoint(draw, sum, point) && point < sum
  {
    point := draw * sum;
    Scales(draw, 1.0, sum);
  }

  /** A point falls into the share of a worker. */
  ghost predicate PointSelects(order: seq<Worker>, view: Worker -> View, x: real, w: Worker) {
    exists i: nat :: Selects(order, view, x, i) && order[i] == w
  }

  /** Takes the capacity of one worker after the other off the drawn sum until nothing is left. */
  method Visit(order: seq<Worker>, loads: map<Worker, real>, view: Worker -> View, x: real) returns (n: nat)
    requires forall w :: w in order ==> w in loads && loads[w] == Spare(view(w))
    requires 0 < |order| && x <= Capacity(order, view)
    ensures Selects(order, view, x, n)
  {
    var current := x;
    n := 0;
    assert order[..|order|] == order;
    while n < |order|
      invariant 0 <= n <= |order|
      invariant current == x - Capacity(order[..n], view)
      invariant n == 0 || Capacity(order[..n], view) < x
    {
      SelectsBetween(order, view, x, n);
      CapacityNext(order, view, n);
      current := current - loads[order[n]];
      if current <= 0.0 {
        return;
      }
      n := n + 1;
    }
    assert false;
  }

  /**
   A draw from [0, 1) selects the candidate in whose share it falls, times the whole capacity; `order` is
   the order in which the candidates happened to be visited.
   */
  method SelectWorkerWeightedByLoad(
    registered: Option<seq<Worker>>, ignore: set<Worker>, view: Worker -> View, draw: real)
    returns (selection: Selection, order: seq<Worker>, sum: real, point: real)
    requires registered.Some? ==> Distinct(registered.value)
    requires 0.0 <= draw < 1.0
    ensures selection.NoWorkers? <==> registered.None?
    ensures registered.Some? ==>
              IsOrder(order, Candidates(registered.value, ignore, view)) && sum == Capacity(order, view)
    ensures registered.Some? ==> (selection.NoCapacity? <==> sum == 0.0)
    ensures registered.Some? ==> (selection.NoCapacity? <==> AllBusy(registered.value, ignore, view))
    ensures selection.Selected? ==> IsPoint(draw, sum, point) && PointSelects(order, view, point, selection.worker)
  {
    order, sum, point := [], 0.0, 0.0;
    if registered.None? {
      return NoWorkers, order, sum, point;
    }
    var loads, listed;
    loads, sum, listed := NormalizeLoads(registered.value, ignore, view);
    order := ListAll(loads.Keys);
    CapacityOfSet(order, listed, view);
    BusyExactly(order, registered.value, ignore, view);
    if sum == 0.0 {
      return NoCapacity, order, sum, point;
    }
    point := DrawPoint(draw, sum);
    assert |order| > 0;
    var n := Visit(order, loads, view, point);
    assert PointSelects(order, view, point, order[n]);
    return Selected(order[n]), order, sum, point;
  }

  /** The order in which ranging over a map visits its keys: any. */
  method ListAll(keys: set<Worker>) returns (order: seq<Worker>)
    ensures IsOrder(order, keys)
  {
    order := [];
    var rest := keys;
    while rest != {}
      invariant rest <= keys
      invariant IsOrder(order, keys - rest)
      decreases |rest|
    {
      var w :| w in rest;
      order, rest := order + [w], rest - {w};
    }
    assert keys - rest == keys;
  }

  // ---------------------------------------------------------------------------------- assigning a job

  /** What a worker answers when it is given the job. */
  datatype Answer = Accepted | NotAvailable | Closed | Failure(code: nat)

  predicate Retryable(a: Answer) { a == NotAvailable || a == Closed }

  datatype Outcome = Assigned(worker: Worker) | Refused(code: nat) | Exhausted

  /**
   Every worker tried was available and registered, no worker was tried twice, and all but the last turned
   the job down.
   */
  ghost predicate TriedInv(
    workers: seq<Worker>, views: nat -> Worker -> View, answers: Worker -> Answer, tried: seq<Worker>)
  {
    && Distinct(tried)
    && (forall i :: 0 <= i < |tried| ==> tried[i] in workers && views(i)(tried[i]).available)
    && (forall i :: 0 <= i < |tried| - 1 ==> Retryable(answers(tried[i])))
  }

  /** No worker left untried has capacity to spare. */
  ghost predicate NoneLeft(workers: seq<Worker>, view: Worker -> View, tried: seq<Worker>) {
    forall w :: w in workers && w !in tried && view(w).available ==> view(w).load >= 1.0
  }

  lemma {:induction false} ZeroCapacity(list: seq<Worker>, view: Worker -> View, w: Worker)
    requires Capacity(list, view) == 0.0 && w in list
    ensures Spare(view(w)) == 0.0
    decreases |list|
  {
    if list[|list| - 1] != w {
      ZeroCapacity(list[..|list| - 1], view, w);
    }
  }

  lemma {:induction false} FewerThanWorkers(tried: seq<Worker>, workers: seq<Worker>)
    requires Distinct(tried) && Distinct(workers) && forall w :: w in tried ==> w in workers
    ensures |tried| <= |workers|
    decreases |tried|
  {
    if tried != [] {
      var last, front := tried[|tried| - 1], tried[..|tried| - 1];
      assert tried == front + [last];
      WithoutOne(workers, last, w => View(false, 0.0));
      FewerThanWorkers(front, Without(workers, last));
    }
  }

  lemma NoneLeftWhenEmpty(
    workers: seq<Worker>, attempted: set<Worker>, view: Worker -> View, tried: seq<Worker>, order: seq<Worker>)
    requires forall w :: w in attempted <==> w in tried
    requires workers == [] || (IsOrder(order, Candidates(workers, attempted, view)) && Capacity(order, view) == 0.0)
    ensures NoneLeft(workers, view, tried)
  {
    forall w | w in workers && w !in tried && view(w).available
      ensures view(w).load >= 1.0
    {
      assert w in Candidates(workers, attempted, view);
      ZeroCapacity(order, view, w);
    }
  }

  /** The next worker to try, if any is left. */
  method NextWorker(
    registered: Option<seq<Worker>>, attempted: set<Worker>, view: Worker -> View, draw: real, ghost tried: seq<Worker>)
    returns (next: Option<Worker>)
    requires registered.Some? ==> Distinct(registered.value)
    requires 0.0 <= draw < 1.0 && forall w :: w in attempted <==> w in tried
    ensures next.Some? ==>
      registered.Some? && next.value in registered.value && next.value !in tried && view(next.value).available
    ensures next.None? && registered.Some? ==> NoneLeft(registered.value, view, tried)
  {
    var selection, order, sum, point := SelectWorkerWeightedByLoad(registered, attempted, view, draw);
    match selection
    case Selected(w) =>
      assert w in order;
      return Some(w);
    case NoWorkers => return None;
    case NoCapacity =>
      NoneLeftWhenEmpty(registered.value, attempted, view, tried, order);
      return None;
  }

  lemma TriedExtends(
    workers: seq<Worker>, views: nat -> Worker -> View, answers: Worker -> Answer, tried: seq<Worker>, w: Worker)
    requires Distinct(workers) && TriedInv(workers, views, answers, tried)
    requires forall i :: 0 <= i < |tried| ==> Retryable(answers(tried[i]))
    requires w in workers && w !in tried && views(|tried|)(w).available
    ensures TriedInv(workers, views, answers, tried + [w]) && |tried| + 1 <= |workers|
  {
    FewerThanWorkers(tried + [w], workers);
  }

  /** The registry of workers and who has which job; `views` and `draws` are what each attempt sees and draws. */
  class AgentHandler {
    var namespaceWorkers: map<Key, seq<Worker>>
    var jobToWorker: map<Job, Worker>

    constructor ()
      ensures Valid() && namespaceWorkers == map[] && jobToWorker == map[]
    {
      namespaceWorkers, jobToWorker := map[], map[];
    }

    predicate Valid()
      reads this
    {
      forall k :: k in namespaceWorkers ==> Distinct(namespaceWorkers[k])
    }

    function Workers(key: Key): seq<Worker>
      reads this
    {
      if key in namespaceWorkers then namespaceWorkers[key] else []
    }

    method JobRequest(
      key: Key, job: Job, views: nat -> Worker -> View, draws: nat -> real, answers: Worker -> Answer)
      returns (outcome: Outcome, tried: seq<Worker>)
      requires Valid() && forall n :: 0.0 <= draws(n) < 1.0
      modifies `jobToWorker
      ensures TriedInv(Workers(key), views, answers, tried) && |tried| <= |Workers(key)|
      ensures outcome.Assigned? ==>
        && tried != [] && outcome.worker == tried[|tried| - 1] && answers(outcome.worker) == Accepted
        && jobToWorker == old(jobToWorker)[job := outcome.worker]
      ensures !outcome.Assigned? ==> jobToWorker == old(jobToWorker)
      ensures forall i :: 0 <= i < |tried| - 1 ==> answers(tried[i]) == NotAvailable || answers(tried[i]) == Closed
      ensures outcome.Refused? ==> tried != [] && answers(tried[|tried| - 1]) == Failure(outcome.code)
      ensures outcome.Exhausted? ==>
        && (forall w :: w in tried ==> answers(w) == NotAvailable || answers(w) == Closed)
        && NoneLeft(Workers(key), views(|tried|), tried)
    {
      tried := [];
      var attempted: set<Worker> := {};
      ghost var workers := Workers(key);
      while true
        invariant TriedInv(workers, views, answers, tried)
        invariant forall i :: 0 <= i < |tried| ==> Retryable(answers(tried[i]))
        invariant forall w :: w in attempted <==> w in tried
        invariant |tried| <= |workers|
        invariant jobToWorker == old(jobToWorker)
        decreases |workers| - |tried|
      {
        var registered := if key in namespaceWorkers then Some(namespaceWorkers[key]) else None;
        var next := NextWorker(registered, attempted, views(|tried|), draws(|tried|), tried);
        if next.None? {
          return Exhausted, tried;
        }
        var w := next.value;
        TriedExtends(workers, views, answers, tried, w);
        attempted := attempted + {w};
        tried := tried + [w];
        match answers(w)
        case Accepted =>
          jobToWorker := jobToWorker[job := w];
          return Assigned(w), tried;
        case Failure(code) => return Refused(code), tried;
        case _ =>
      }
    }
  }
}
