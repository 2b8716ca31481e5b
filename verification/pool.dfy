/** The two ways `get_characters` runs the chunk fetches: a sequential list
    comprehension, and `run_function_with_multiprocessing`, whose
    `Pool.map` is modelled by its contract: one independent task per
    argument, results collected in input order, a raised exception
    re-raised by `map`. */
module Pool {
  import opened Common

  /** `[f(x) for x in xs]`: evaluates in order and stops at the first call
      that raises. */
  function SequentialMap<A, B>(f: A -> Result<B>, xs: seq<A>): (r: Result<seq<B>>)
    ensures r.Ok? <==> forall i :: 0 <= i < |xs| ==> f(xs[i]).Ok?
    ensures r.Ok? ==> |r.value| == |xs| && forall i :: 0 <= i < |xs| ==> r.value[i] == f(xs[i]).value
    ensures r.Err? ==>
      exists i :: && 0 <= i < |xs|
                  && (forall j :: 0 <= j < i ==> f(xs[j]).Ok?)
                  && f(xs[i]).Err? && f(xs[i]).fault == r.fault
  {
    if |xs| == 0 then Ok([])
    else
      match f(xs[0])
      case Err(e) => Err(e)
      case Ok(y) =>
        match SequentialMap(f, xs[1..])
        case Err(e) => Err(e)
        case Ok(ys) => Ok([y] + ys)
  }

  /** The pool's outcomes: each is `f` of its argument, in input order. A
      task the pool skips after an earlier failure in its batch would have
      had the same outcome, since `f` depends on its argument alone. */
  function RunTasks<A, B>(f: A -> Result<B>, xs: seq<A>): (outcomes: seq<Result<B>>)
    ensures |outcomes| == |xs|
    ensures forall i :: 0 <= i < |xs| ==> outcomes[i] == f(xs[i])
  {
    seq(|xs|, i requires 0 <= i < |xs| => f(xs[i]))
  }

  /** The failed task whose failure reaches the pool first: `times[i]` is
      the moment task `i` finished, and a tie goes to the lower index. */
  function FirstFailure<B>(outcomes: seq<Result<B>>, times: seq<int>): (k: Option<nat>)
    requires |times| == |outcomes|
    ensures k.None? <==> forall i :: 0 <= i < |outcomes| ==> outcomes[i].Ok?
    ensures k.Some? ==> k.value < |outcomes| && outcomes[k.value].Err?
    ensures k.Some? ==> forall i :: 0 <= i < |outcomes| && outcomes[i].Err? ==> times[k.value] <= times[i]
    ensures k.Some? ==> forall i :: 0 <= i < k.value && outcomes[i].Err? ==> times[k.value] < times[i]
  {
    if |outcomes| == 0 then None
    else
      match FirstFailure(outcomes[1..], times[1..])
      case None => if outcomes[0].Err? then Some(0) else None
      case Some(k) =>
        if outcomes[0].Err? && times[0] <= times[k + 1] then Some(0) else Some(k + 1)
  }

  /** The join of `Pool.map`: the list of results if every task returned,
      otherwise the exception of the failed task that finished first. */
  function Collect<B>(outcomes: seq<Result<B>>, times: seq<int>): (r: Result<seq<B>>)
    requires |times| == |outcomes|
    ensures r.Ok? <==> forall i :: 0 <= i < |outcomes| ==> outcomes[i].Ok?
    ensures r.Ok? ==> |r.value| == |outcomes| && forall i :: 0 <= i < |outcomes| ==> r.value[i] == outcomes[i].value
    ensures r.Err? ==>
      exists i :: && 0 <= i < |outcomes|
                  && outcomes[i].Err? && outcomes[i].fault == r.fault
                  && forall j :: 0 <= j < |outcomes| && outcomes[j].Err? ==> times[i] <= times[j]
  {
    match FirstFailure(outcomes, times)
    case Some(k) => Err(outcomes[k].fault)
    case None => Ok(seq(|outcomes|, i requires 0 <= i < |outcomes| && outcomes[i].Ok? => outcomes[i].value))
  }

  /** `run_function_with_multiprocessing(f, xs)`; `finish(x)` is the moment
      the task for `x` finished. */
  function PoolMap<A, B>(f: A -> Result<B>, xs: seq<A>, finish: A -> int): (r: Result<seq<B>>)
    ensures r.Ok? <==> forall i :: 0 <= i < |xs| ==> f(xs[i]).Ok?
    ensures r.Ok? ==> |r.value| == |xs| && forall i :: 0 <= i < |xs| ==> r.value[i] == f(xs[i]).value
    ensures r.Err? ==>
      exists i :: && 0 <= i < |xs|
                  && f(xs[i]).Err? && f(xs[i]).fault == r.fault
                  && forall j :: 0 <= j < |xs| && f(xs[j]).Err? ==> finish(xs[i]) <= finish(xs[j])
  {
    Collect(RunTasks(f, xs), seq(|xs|, i requires 0 <= i < |xs| => finish(xs[i])))
  }

  /** The pool and the comprehension agree on whether the fetches succeed,
      and on the results when they do. */
  lemma PoolAgreesWithSequential<A, B>(f: A -> Result<B>, xs: seq<A>, finish: A -> int)
    ensures PoolMap(f, xs, finish).Ok? <==> SequentialMap(f, xs).Ok?
    ensures PoolMap(f, xs, finish).Ok? ==> PoolMap(f, xs, finish) == SequentialMap(f, xs)
  {
    var p := PoolMap(f, xs, finish);
    var q := SequentialMap(f, xs);
    if p.Ok? {
      assert p.value == q.value;
    }
  }

  /** When the tasks finish in input order, the pool also raises the same
      exception as the comprehension, so the two are indistinguishable. */
  lemma PoolMatchesSequentialInOrder<A, B>(f: A -> Result<B>, xs: seq<A>, finish: A -> int)
    requires forall i, j :: 0 <= i < j < |xs| ==> finish(xs[i]) <= finish(xs[j])
    ensures PoolMap(f, xs, finish) == SequentialMap(f, xs)
  {
    PoolAgreesWithSequential(f, xs, finish);
    var outcomes := RunTasks(f, xs);
    var times := seq(|xs|, i requires 0 <= i < |xs| => finish(xs[i]));
    var k := FirstFailure(outcomes, times);
    var q := SequentialMap(f, xs);
    if q.Err? {
      var i :| && 0 <= i < |xs|
               && (forall j :: 0 <= j < i ==> f(xs[j]).Ok?)
               && f(xs[i]).Err? && f(xs[i]).fault == q.fault;
      assert outcomes[i].Err? && times[i] == finish(xs[i]);
      assert k.value == i;
      assert PoolMap(f, xs, finish) == Collect(outcomes, times);
    }
  }

  /** When two chunks are malformed and the later one finishes first, the
      pool raises the later chunk's `KeyError` while the comprehension
      raises the earlier one's. */
  lemma PoolMayRaiseADifferentFault()
    ensures var f := (x: int) => if x == 0 then Err(MissingKey("name")) else Err(MissingKey("comics"));
            var later := (x: int) => 1 - x;
            && SequentialMap<int, int>(f, [0, 1]) == Err(MissingKey("name"))
            && PoolMap<int, int>(f, [0, 1], later) == Err(MissingKey("comics"))
  {
    var f := (x: int) => if x == 0 then Err(MissingKey("name")) else Err(MissingKey("comics"));
    var later := (x: int) => 1 - x;
    var outcomes := RunTasks<int, int>(f, [0, 1]);
    var times := seq(2, i requires 0 <= i < 2 => later([0, 1][i]));
    assert times == [1, 0];
    assert outcomes == [Err(MissingKey("name")), Err(MissingKey("comics"))];
    assert outcomes[1..] == [Err(MissingKey("comics"))];
    assert FirstFailure(outcomes[1..][1..], times[1..][1..]) == None;
    assert FirstFailure(outcomes[1..], times[1..]) == Some(0);
    assert FirstFailure(outcomes, times) == Some(1);
  }
}
