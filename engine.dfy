/**
 * The batching engine: `Question.create_batches` groups the responses to one question,
 * in the order they are fetched, into batches of responses equivalent to the batch's
 * representative. The functions below state what one run computes; class Question runs it
 * with the source's nested loops.
 */
module Engine {
  import opened Wrappers
  import opened Registry
  import opened Responses
  import opened Batches

  /** `Response.query.filter_by(assignment_id=..., var_name=...).all()`, in table order. */
  function Fetch(store: seq<Response>, assignmentId: int, varName: string): (rs: seq<Response>)
    ensures forall r :: r in rs <==> r in store && r.assignmentId == assignmentId && r.varName == varName
  {
    if store == [] then []
    else
      var rest := Fetch(store[..|store| - 1], assignmentId, varName);
      var last := store[|store| - 1];
      assert forall r :: r in store <==> r in store[..|store| - 1] || r == last;
      if last.assignmentId == assignmentId && last.varName == varName then rest + [last] else rest
  }

  /** Response ids strictly increase along the sequence. */
  ghost predicate IdsAscending(rs: seq<Response>)
  {
    forall i, j :: 0 <= i < j < |rs| ==> rs[i].id < rs[j].id
  }

  /** Filtering keeps the table's id order. */
  lemma {:induction false} FetchKeepsOrder(store: seq<Response>, assignmentId: int, varName: string)
    requires IdsAscending(store)
    ensures IdsAscending(Fetch(store, assignmentId, varName))
  {
    if store != [] {
      var front := store[..|store| - 1];
      FetchKeepsOrder(front, assignmentId, varName);
      var rest := Fetch(front, assignmentId, varName);
      forall r | r in rest ensures r.id < store[|store| - 1].id {
        var i :| 0 <= i < |front| && front[i] == r;
      }
    }
  }

  /** The batch created for a response that matched no existing batch, once its link is recorded. */
  function NewBatch(qid: int, r: Response): Batch
  {
    Batch(0, "", r.kind, qid, [r])
  }

  /**
   * The inner loop over `bs[..n]`: the index of the LAST batch that compares equal
   * (the loop keeps overwriting `this_batch`), or the first fault raised.
   */
  function Scan(cmp: Comparison, bs: seq<Batch>, r: Response, n: nat): (res: Result<Option<nat>, Fault>)
    requires n <= |bs|
    ensures res.Ok? ==> forall j :: 0 <= j < n ==> cmp(bs[j], r).Ok?
    ensures res.Err? ==> exists j :: 0 <= j < n && cmp(bs[j], r) == Err(res.error)
                                     && forall k :: 0 <= k < j ==> cmp(bs[k], r).Ok?
    ensures res == Ok(None) <==> forall j :: 0 <= j < n ==> cmp(bs[j], r) == Ok(false)
    ensures res.Ok? && res.value.Some? ==>
              res.value.value < n && cmp(bs[res.value.value], r) == Ok(true)
              && forall j :: res.value.value < j < n ==> cmp(bs[j], r) == Ok(false)
  {
    if n == 0 then Ok(None)
    else
      match Scan(cmp, bs, r, n - 1)
      case Err(e) => Err(e)
      case Ok(found) =>
        match cmp(bs[n - 1], r)
        case Err(e) => Err(e)
        case Ok(eq) => Ok(if eq then Some(n - 1) else found)
  }

  /** The scan's answer is determined: the last match, when every comparison returns. */
  lemma ScanFindsLastMatch(cmp: Comparison, bs: seq<Batch>, r: Response, i: nat)
    requires i < |bs|
    requires forall j :: 0 <= j < |bs| ==> cmp(bs[j], r).Ok?
    requires cmp(bs[i], r) == Ok(true)
    requires forall j :: i < j < |bs| ==> cmp(bs[j], r) == Ok(false)
    ensures Scan(cmp, bs, r, |bs|) == Ok(Some(i))
  {
  }

  /** A fault ends the scan: scanning further returns the same fault. */
  lemma {:induction false} ScanStopsAtFault(cmp: Comparison, bs: seq<Batch>, r: Response, n: nat, m: nat)
    requires n <= m <= |bs|
    requires Scan(cmp, bs, r, n).Err?
    ensures Scan(cmp, bs, r, m) == Scan(cmp, bs, r, n)
  {
    if m > n {
      ScanStopsAtFault(cmp, bs, r, n, m - 1);
    }
  }

  /** One iteration of the outer loop: the response joins the last matching batch or founds a new one. */
  function Place(qid: int, cmp: Comparison, bs: seq<Batch>, r: Response): Result<seq<Batch>, Fault>
  {
    match Scan(cmp, bs, r, |bs|)
    case Err(e) => Err(e)
    case Ok(None) => Ok(bs + [NewBatch(qid, r)])
    case Ok(Some(i)) => Ok(bs[i := bs[i].(members := bs[i].members + [r])])
  }

  /**
   * A placement raises exactly when some comparison raises; otherwise the response founds
   * a new batch exactly when it is unequal to every batch, and else joins a batch it is
   * equal to with no equal batch after it.
   */
  lemma PlaceOutcome(qid: int, cmp: Comparison, bs: seq<Batch>, r: Response)
    ensures var res := Place(qid, cmp, bs, r);
            && (res.Err? <==> exists j :: 0 <= j < |bs| && cmp(bs[j], r).Err?)
            && (res.Ok? ==> (|res.value| == |bs| + 1 <==> forall j :: 0 <= j < |bs| ==> cmp(bs[j], r) == Ok(false)))
            && (res.Ok? && |res.value| != |bs| + 1 ==>
                  exists i :: 0 <= i < |bs| && cmp(bs[i], r) == Ok(true)
                              && (forall j :: i < j < |bs| ==> cmp(bs[j], r) == Ok(false))
                              && res.value == bs[i := bs[i].(members := bs[i].members + [r])])
            && (res.Ok? && |res.value| == |bs| + 1 ==> res.value == bs + [NewBatch(qid, r)])
  {
  }

  /** The placement the inner loop's answer leads to. */
  lemma PlaceFound(qid: int, cmp: Comparison, bs: seq<Batch>, r: Response, found: Result<Option<nat>, Fault>)
    requires found == Scan(cmp, bs, r, |bs|) && found.Ok?
    ensures found.value.None? ==> Place(qid, cmp, bs, r) == Ok(bs + [NewBatch(qid, r)])
    ensures found.value.Some? ==>
              var i := found.value.value;
              i < |bs| && Place(qid, cmp, bs, r) == Ok(bs[i := bs[i].(members := bs[i].members + [r])])
  {
  }

  /** The outcome of a run: the batches it leaves and the fault that stopped it, if any. */
  datatype Run = Run(batches: seq<Batch>, failure: Option<Fault>)

  /** The outer loop over the fetched responses, starting from the batches `init`. */
  function Build(qid: int, cmp: Comparison, init: seq<Batch>, rs: seq<Response>): Run
  {
    if rs == [] then Run(init, None)
    else
      var prev := Build(qid, cmp, init, rs[..|rs| - 1]);
      if prev.failure.Some? then prev
      else
        match Place(qid, cmp, prev.batches, rs[|rs| - 1])
        case Err(e) => Run(prev.batches, Some(e))
        case Ok(bs) => Run(bs, None)
  }

  /** One more response, placed without a fault, extends the run. */
  lemma BuildStep(qid: int, cmp: Comparison, init: seq<Batch>, rs: seq<Response>, k: nat, bs: seq<Batch>)
    requires k < |rs|
    requires Build(qid, cmp, init, rs[..k]) == Run(bs, None)
    requires Place(qid, cmp, bs, rs[k]).Ok?
    ensures Build(qid, cmp, init, rs[..k + 1]) == Run(Place(qid, cmp, bs, rs[k]).value, None)
  {
    assert rs[..k + 1][..k] == rs[..k];
  }

  /** One more response whose placement raises stops the run. */
  lemma BuildFault(qid: int, cmp: Comparison, init: seq<Batch>, rs: seq<Response>, k: nat, bs: seq<Batch>)
    requires k < |rs|
    requires Build(qid, cmp, init, rs[..k]) == Run(bs, None)
    requires Place(qid, cmp, bs, rs[k]).Err?
    ensures Build(qid, cmp, init, rs) == Run(bs, Some(Place(qid, cmp, bs, rs[k]).error))
  {
    assert rs[..k + 1][..k] == rs[..k];
    BuildStopsAtFault(qid, cmp, init, rs, k + 1);
  }

  /** Once a run has stopped at a fault, later responses change nothing. */
  lemma {:induction false} BuildStopsAtFault(qid: int, cmp: Comparison, init: seq<Batch>, rs: seq<Response>, k: nat)
    requires k <= |rs|
    requires Build(qid, cmp, init, rs[..k]).failure.Some?
    ensures Build(qid, cmp, init, rs) == Build(qid, cmp, init, rs[..k])
  {
    if k < |rs| {
      assert rs[..|rs| - 1][..k] == rs[..k];
      BuildStopsAtFault(qid, cmp, init, rs[..|rs| - 1], k);
    } else {
      assert rs[..k] == rs;
    }
  }

  /** A run that stops has batched exactly the responses before the one whose comparison raised. */
  lemma {:induction false} BuildFailure(qid: int, cmp: Comparison, init: seq<Batch>, rs: seq<Response>)
    requires Build(qid, cmp, init, rs).failure.Some?
    ensures exists k :: 0 <= k < |rs| && Build(qid, cmp, init, rs[..k]) == Run(Build(qid, cmp, init, rs).batches, None)
                        && Place(qid, cmp, Build(qid, cmp, init, rs).batches, rs[k]) == Err(Build(qid, cmp, init, rs).failure.value)
  {
    var n := |rs|;
    var run := Build(qid, cmp, init, rs);
    var prev := Build(qid, cmp, init, rs[..n - 1]);
    if prev.failure.Some? {
      assert run == prev;
      BuildFailure(qid, cmp, init, rs[..n - 1]);
      var k :| 0 <= k < n - 1 && Build(qid, cmp, init, rs[..n - 1][..k]) == Run(prev.batches, None)
               && Place(qid, cmp, prev.batches, rs[..n - 1][k]) == Err(prev.failure.value);
      assert rs[..n - 1][..k] == rs[..k] && rs[..n - 1][k] == rs[k];
      assert Build(qid, cmp, init, rs[..k]) == Run(run.batches, None) && Place(qid, cmp, run.batches, rs[k]) == Err(run.failure.value);
    } else {
      assert prev == Run(run.batches, None) && Place(qid, cmp, run.batches, rs[n - 1]) == Err(run.failure.value);
    }
  }

  /** All members of the batches, batch by batch, each in link order. */
  function Flatten(bs: seq<Batch>): seq<Response>
  {
    if bs == [] then [] else Flatten(bs[..|bs| - 1]) + bs[|bs| - 1].members
  }

  /** `Question.total_responses`: the sum of the batch sizes, which is the number of membership links. */
  function CountResponses(bs: seq<Batch>): (n: nat)
    ensures n == |Flatten(bs)|
  {
    if bs == [] then 0 else CountResponses(bs[..|bs| - 1]) + BatchSize(bs[|bs| - 1])
  }

  /** No batch holds more links than its question. */
  lemma {:induction false} BatchWithinQuestion(bs: seq<Batch>, i: nat)
    requires i < |bs|
    ensures BatchSize(bs[i]) <= CountResponses(bs)
  {
    if i < |bs| - 1 {
      BatchWithinQuestion(bs[..|bs| - 1], i);
      assert bs[..|bs| - 1][i] == bs[i];
    }
  }

  lemma FlattenAppend(bs: seq<Batch>, b: Batch)
    ensures Flatten(bs + [b]) == Flatten(bs) + b.members
  {
    assert (bs + [b])[..|bs|] == bs;
  }

  /** Recording one more link adds exactly that response to the members. */
  lemma {:induction false} FlattenJoin(bs: seq<Batch>, i: nat, r: Response)
    requires i < |bs|
    ensures multiset(Flatten(bs[i := bs[i].(members := bs[i].members + [r])])) == multiset(Flatten(bs)) + multiset{r}
  {
    var n := |bs|;
    var bs' := bs[i := bs[i].(members := bs[i].members + [r])];
    var front, front' := bs[..n - 1], bs'[..n - 1];
    assert Flatten(bs) == Flatten(front) + bs[n - 1].members;
    assert Flatten(bs') == Flatten(front') + bs'[n - 1].members;
    if i == n - 1 {
      assert front' == front;
      assert multiset(bs'[n - 1].members) == multiset(bs[n - 1].members) + multiset{r};
    } else {
      assert front' == front[i := front[i].(members := front[i].members + [r])];
      FlattenJoin(front, i, r);
      assert bs'[n - 1] == bs[n - 1];
    }
  }

  lemma FlattenLast(bs: seq<Batch>)
    requires bs != []
    ensures multiset(Flatten(bs)) == multiset(Flatten(bs[..|bs| - 1])) + multiset(bs[|bs| - 1].members)
  {
  }

  lemma SplitCount<T>(all: multiset<T>, head: multiset<T>, tail: multiset<T>, x: T)
    requires all == head + tail
    ensures all[x] == head[x] + tail[x] && all[x] >= head[x] && all[x] >= tail[x]
  {
  }

  /** A response occurs in the members at least as often as in any one batch. */
  lemma {:induction false} MemberCount(bs: seq<Batch>, j: nat, r: Response)
    requires j < |bs|
    ensures multiset(Flatten(bs))[r] >= multiset(bs[j].members)[r]
  {
    var n := |bs|;
    var front := bs[..n - 1];
    FlattenLast(bs);
    SplitCount(multiset(Flatten(bs)), multiset(Flatten(front)), multiset(bs[n - 1].members), r);
    if j < n - 1 {
      MemberCount(front, j, r);
      assert front[j] == bs[j];
    }
  }

  /** A response that occurs once among the members belongs to exactly one batch. */
  lemma {:induction false} UniqueBatch(bs: seq<Batch>, r: Response)
    requires multiset(Flatten(bs))[r] == 1
    ensures exists i :: 0 <= i < |bs| && r in bs[i].members
                        && forall j :: 0 <= j < |bs| && j != i ==> r !in bs[j].members
  {
    var n := |bs|;
    var front, last := bs[..n - 1], bs[n - 1];
    FlattenLast(bs);
    SplitCount(multiset(Flatten(bs)), multiset(Flatten(front)), multiset(last.members), r);
    if r in last.members {
      AloneInLast(bs, r);
    } else {
      UniqueBatch(front, r);
      var i :| 0 <= i < |front| && r in front[i].members
               && forall j :: 0 <= j < |front| && j != i ==> r !in front[j].members;
      AloneInFront(bs, r, i);
    }
  }

  lemma AloneInLast(bs: seq<Batch>, r: Response)
    requires bs != [] && r in bs[|bs| - 1].members
    requires multiset(Flatten(bs[..|bs| - 1]))[r] == 0
    ensures Alone(bs, r, |bs| - 1)
  {
    var front := bs[..|bs| - 1];
    forall j | 0 <= j < |bs| - 1 ensures r !in bs[j].members {
      MemberCount(front, j, r);
      assert front[j] == bs[j];
    }
  }

  lemma AloneInFront(bs: seq<Batch>, r: Response, i: int)
    requires bs != [] && r !in bs[|bs| - 1].members
    requires Alone(bs[..|bs| - 1], r, i)
    ensures Alone(bs, r, i)
  {
    var front := bs[..|bs| - 1];
    forall j | 0 <= j < |bs| && j != i ensures r !in bs[j].members {
      if j < |bs| - 1 { assert front[j] == bs[j]; }
    }
  }

  ghost predicate Alone(bs: seq<Batch>, r: Response, i: int)
  {
    0 <= i < |bs| && r in bs[i].members && forall j :: 0 <= j < |bs| && j != i ==> r !in bs[j].members
  }

  /**
   * The batch invariant: every batch has members and the datatype of its first member;
   * every later member compared equal to the representative; and the representative of
   * each batch compared unequal to every batch created before it.
   */
  ghost predicate Coherent(cmp: Comparison, bs: seq<Batch>)
  {
    && (forall i :: 0 <= i < |bs| ==> |bs[i].members| > 0 && bs[i].kind == bs[i].members[0].kind)
    && (forall i, k :: 0 <= i < |bs| && 0 < k < |bs[i].members| ==> cmp(bs[i], bs[i].members[k]) == Ok(true))
    && (forall i, j :: 0 <= i < j < |bs| ==> cmp(bs[i], bs[j].members[0]) == Ok(false))
  }

  /** Batches as created: no grade, no comments, owned by this question. */
  ghost predicate Ungraded(qid: int, bs: seq<Batch>)
  {
    forall i :: 0 <= i < |bs| ==> bs[i].grade == 0 && bs[i].comments == "" && bs[i].questionId == qid
  }

  /** A new batch for a response unequal to every batch keeps the invariant. */
  lemma CoherentFound(qid: int, cmp: Comparison, bs: seq<Batch>, r: Response)
    requires Coherent(cmp, bs)
    requires forall j :: 0 <= j < |bs| ==> cmp(bs[j], r) == Ok(false)
    ensures Coherent(cmp, bs + [NewBatch(qid, r)])
  {
  }

  /** Joining a batch whose representative compared equal keeps the invariant. */
  lemma CoherentJoined(cmp: Comparison, bs: seq<Batch>, i: nat, r: Response)
    requires KeepsRepresentative(cmp)
    requires Coherent(cmp, bs)
    requires i < |bs| && cmp(bs[i], r) == Ok(true)
    ensures Coherent(cmp, bs[i := bs[i].(members := bs[i].members + [r])])
  {
    var bs' := bs[i := bs[i].(members := bs[i].members + [r])];
    forall x: Response ensures cmp(bs'[i], x) == cmp(bs[i], x) {
    }
    forall j, k | 0 <= j < |bs'| && 0 < k < |bs'[j].members|
      ensures cmp(bs'[j], bs'[j].members[k]) == Ok(true)
    {
      if j == i && k == |bs[i].members| {
        assert bs'[j].members[k] == r;
      } else if j == i {
        assert bs'[j].members[k] == bs[i].members[k];
      }
    }
    forall j, k | 0 <= j < k < |bs'| ensures cmp(bs'[j], bs'[k].members[0]) == Ok(false) {
      assert bs'[k].members[0] == bs[k].members[0];
    }
  }

  lemma PlaceKeepsCoherent(qid: int, cmp: Comparison, bs: seq<Batch>, r: Response)
    requires KeepsRepresentative(cmp)
    requires Coherent(cmp, bs)
    requires Place(qid, cmp, bs, r).Ok?
    ensures Coherent(cmp, Place(qid, cmp, bs, r).value)
    ensures Ungraded(qid, bs) ==> Ungraded(qid, Place(qid, cmp, bs, r).value)
  {
    PlaceOutcome(qid, cmp, bs, r);
    var bs' := Place(qid, cmp, bs, r).value;
    if |bs'| == |bs| + 1 {
      CoherentFound(qid, cmp, bs, r);
    } else {
      var i :| 0 <= i < |bs| && cmp(bs[i], r) == Ok(true)
               && bs' == bs[i := bs[i].(members := bs[i].members + [r])];
      CoherentJoined(cmp, bs, i, r);
    }
  }

  /** A run keeps the batch invariant, and keeps batches ungraded. */
  lemma {:induction false} BuildInvariant(qid: int, cmp: Comparison, init: seq<Batch>, rs: seq<Response>)
    requires KeepsRepresentative(cmp)
    requires Coherent(cmp, init)
    ensures Coherent(cmp, Build(qid, cmp, init, rs).batches)
    ensures Ungraded(qid, init) ==> Ungraded(qid, Build(qid, cmp, init, rs).batches)
  {
    if rs != [] {
      var n := |rs|;
      var prev := Build(qid, cmp, init, rs[..n - 1]);
      BuildInvariant(qid, cmp, init, rs[..n - 1]);
      if prev.failure.None? && Place(qid, cmp, prev.batches, rs[n - 1]).Ok? {
        PlaceKeepsCoherent(qid, cmp, prev.batches, rs[n - 1]);
      }
    }
  }

  /** One placement adds exactly the placed response to the members. */
  lemma PlaceLinksOnce(qid: int, cmp: Comparison, bs: seq<Batch>, r: Response)
    requires Place(qid, cmp, bs, r).Ok?
    ensures multiset(Flatten(Place(qid, cmp, bs, r).value)) == multiset(Flatten(bs)) + multiset{r}
  {
    PlaceOutcome(qid, cmp, bs, r);
    var bs' := Place(qid, cmp, bs, r).value;
    if |bs'| == |bs| + 1 {
      FlattenAppend(bs, NewBatch(qid, r));
    } else {
      var i :| 0 <= i < |bs| && bs' == bs[i := bs[i].(members := bs[i].members + [r])];
      FlattenJoin(bs, i, r);
    }
  }

  /**
   * `total_responses` under one placement: a new batch counts one link, or exactly one
   * batch counts one more; every other batch keeps its links, and the question gains one.
   */
  lemma PlaceGrowsOneBatch(qid: int, cmp: Comparison, bs: seq<Batch>, r: Response)
    requires Place(qid, cmp, bs, r).Ok?
    ensures var bs' := Place(qid, cmp, bs, r).value;
            && CountResponses(bs') == CountResponses(bs) + 1
            && ((|bs'| == |bs| + 1 && BatchSize(bs'[|bs|]) == 1 && bs'[..|bs|] == bs)
                || (|bs'| == |bs|
                    && exists i :: 0 <= i < |bs| && BatchSize(bs'[i]) == BatchSize(bs[i]) + 1
                                   && forall j :: 0 <= j < |bs| && j != i ==> bs'[j] == bs[j]))
  {
    PlaceOutcome(qid, cmp, bs, r);
    PlaceLinksOnce(qid, cmp, bs, r);
    var bs' := Place(qid, cmp, bs, r).value;
    assert |multiset(Flatten(bs'))| == |multiset(Flatten(bs))| + 1;
    if |bs'| != |bs| + 1 {
      var i :| 0 <= i < |bs| && bs' == bs[i := bs[i].(members := bs[i].members + [r])];
      assert BatchSize(bs'[i]) == BatchSize(bs[i]) + 1;
    } else {
      assert bs'[..|bs|] == bs;
    }
  }

  /** One placement keeps every batch's first member, and a new batch's first member is the response. */
  lemma PlaceKeepsRepresentatives(qid: int, cmp: Comparison, bs: seq<Batch>, r: Response)
    requires forall i :: 0 <= i < |bs| ==> |bs[i].members| > 0
    requires Place(qid, cmp, bs, r).Ok?
    ensures var bs' := Place(qid, cmp, bs, r).value;
            && |bs| <= |bs'|
            && (forall i :: 0 <= i < |bs'| ==> |bs'[i].members| > 0)
            && forall i :: 0 <= i < |bs| ==> bs'[i].members[0] == bs[i].members[0]
  {
    PlaceOutcome(qid, cmp, bs, r);
  }

  /**
   * A run never changes a batch's representative: every batch it leaves has members, and
   * `get_data` of each batch held before the run still reads its first member's file.
   */
  lemma {:induction false} BuildKeepsRepresentatives(qid: int, cmp: Comparison, init: seq<Batch>, rs: seq<Response>)
    requires forall i :: 0 <= i < |init| ==> |init[i].members| > 0
    ensures var bs := Build(qid, cmp, init, rs).batches;
            && |init| <= |bs|
            && (forall i :: 0 <= i < |bs| ==> |bs[i].members| > 0)
            && forall i :: 0 <= i < |init| ==>
                 bs[i].members[0] == init[i].members[0] && BatchData(bs[i]) == BatchData(init[i])
  {
    if rs != [] {
      var prev := Build(qid, cmp, init, rs[..|rs| - 1]);
      BuildKeepsRepresentatives(qid, cmp, init, rs[..|rs| - 1]);
      if prev.failure.None? && Place(qid, cmp, prev.batches, rs[|rs| - 1]).Ok? {
        PlaceKeepsRepresentatives(qid, cmp, prev.batches, rs[|rs| - 1]);
      }
    }
  }

  /** A run that completes ended with a placement that completed. */
  lemma BuildLast(qid: int, cmp: Comparison, init: seq<Batch>, rs: seq<Response>)
    requires rs != [] && Build(qid, cmp, init, rs).failure.None?
    ensures var prev := Build(qid, cmp, init, rs[..|rs| - 1]);
            && prev.failure.None?
            && Place(qid, cmp, prev.batches, rs[|rs| - 1]) == Ok(Build(qid, cmp, init, rs).batches)
  {
  }

  /** A run that completes adds exactly the fetched responses to the members. */
  lemma {:induction false} BuildLinksAll(qid: int, cmp: Comparison, init: seq<Batch>, rs: seq<Response>)
    requires Build(qid, cmp, init, rs).failure.None?
    ensures multiset(Flatten(Build(qid, cmp, init, rs).batches)) == multiset(Flatten(init)) + multiset(rs)
  {
    if rs != [] {
      var n := |rs|;
      var front, last := rs[..n - 1], rs[n - 1];
      BuildLast(qid, cmp, init, rs);
      var prev := Build(qid, cmp, init, front).batches;
      BuildLinksAll(qid, cmp, init, front);
      PlaceLinksOnce(qid, cmp, prev, last);
      MultisetLast(rs);
      AddUp(multiset(Flatten(Build(qid, cmp, init, rs).batches)), multiset(Flatten(prev)),
            multiset(Flatten(init)), multiset(front), multiset{last}, multiset(rs));
    }
  }

  lemma AddUp<T>(total: multiset<T>, prev: multiset<T>, init: multiset<T>, front: multiset<T>, last: multiset<T>, all: multiset<T>)
    requires total == prev + last && prev == init + front && all == front + last
    ensures total == init + all
  {
  }

  lemma MultisetLast<T>(s: seq<T>)
    requires s != []
    ensures multiset(s) == multiset(s[..|s| - 1]) + multiset{s[|s| - 1]}
  {
    assert s == s[..|s| - 1] + [s[|s| - 1]];
  }

  /**
   * After a rebuild that completes (delete, then create from no batches), every fetched
   * response is linked to exactly one batch, every member was fetched, and the links are
   * as many as the responses.
   */
  lemma RebuildPartitions(qid: int, cmp: Comparison, rs: seq<Response>)
    requires IdsAscending(rs)
    requires Build(qid, cmp, [], rs).failure.None?
    ensures var bs := Build(qid, cmp, [], rs).batches;
            && (forall r :: r in rs ==> exists i :: 0 <= i < |bs| && r in bs[i].members
                                                   && forall j :: 0 <= j < |bs| && j != i ==> r !in bs[j].members)
            && (forall i, r :: 0 <= i < |bs| && r in bs[i].members ==> r in rs)
            && CountResponses(bs) == |rs|
  {
    var bs := Build(qid, cmp, [], rs).batches;
    BuildLinksAll(qid, cmp, [], rs);
    assert multiset(Flatten(bs)) == multiset(rs);
    forall r | r in rs
      ensures exists i :: 0 <= i < |bs| && r in bs[i].members
                          && forall j :: 0 <= j < |bs| && j != i ==> r !in bs[j].members
    {
      OccursOnce(rs, r);
      UniqueBatch(bs, r);
    }
    forall i, r | 0 <= i < |bs| && r in bs[i].members ensures r in rs {
      MemberCount(bs, i, r);
    }
    assert |Flatten(bs)| == |multiset(Flatten(bs))| == |multiset(rs)| == |rs|;
  }

  /** With ascending ids, each response occurs once. */
  lemma {:induction false} OccursOnce(rs: seq<Response>, r: Response)
    requires IdsAscending(rs) && r in rs
    ensures multiset(rs)[r] == 1
  {
    var n := |rs|;
    assert rs == rs[..n - 1] + [rs[n - 1]];
    if r == rs[n - 1] {
      assert r !in rs[..n - 1] by {
        forall i | 0 <= i < n - 1 ensures rs[i] != r {
          assert rs[i].id < rs[n - 1].id;
        }
      }
    } else {
      OccursOnce(rs[..n - 1], r);
    }
  }

  /**
   * Without a transform, no two text or symbolic representatives of the same datatype
   * have the same contents: each was compared unequal to the earlier one, and exact
   * string matching makes that a difference of contents.
   */
  lemma TextRepresentativesDiffer(q: QuestionSettings, bs: seq<Batch>, i: nat, j: nat)
    requires Coherent(Comparer(q), bs) && q.transform.None?
    requires i < j < |bs|
    requires bs[i].kind == bs[j].kind
    requires bs[i].kind.name == "text" || bs[i].kind.name == "symbolic"
    ensures bs[i].members[0].file.File? && bs[j].members[0].file.File?
    ensures bs[i].members[0].file.text != bs[j].members[0].file.text
  {
    assert Compare(q, bs[i], bs[j].members[0]) == Ok(false);
  }

  /** The storage of one question's batches and the engine's entry points. */
  class Question {
    const id: int
    const name: string
    const varName: string
    const maxGrade: int
    const tolerance: real
    const preprocessing: Option<Transform>
    const assignmentId: int
    var batches: seq<Batch>

    constructor (id: int, name: string, varName: string, maxGrade: int, tolerance: real,
                 preprocessing: Option<Transform>, assignmentId: int)
      ensures this.id == id && this.name == name && this.varName == varName
      ensures this.maxGrade == maxGrade && this.tolerance == tolerance
      ensures this.preprocessing == preprocessing && this.assignmentId == assignmentId
      ensures batches == []
    {
      this.id := id;
      this.name := name;
      this.varName := varName;
      this.maxGrade := maxGrade;
      this.tolerance := tolerance;
      this.preprocessing := preprocessing;
      this.assignmentId := assignmentId;
      batches := [];
    }

    function Settings(): QuestionSettings
    {
      QuestionSettings(id, tolerance, preprocessing)
    }

    /** `Question.total_responses`. */
    function TotalResponses(): (n: nat)
      reads this
      ensures n == |Flatten(batches)|
    {
      CountResponses(batches)
    }

    /** `Question.delete_batches`: every batch, and with it every membership link, is deleted. */
    method DeleteBatches()
      modifies this
      ensures batches == []
    {
      while batches != []
        decreases |batches|
      {
        batches := batches[1..];
      }
    }

    /**
     * The inner loop of `create_batches`: compare the response with every batch in
     * creation order, remembering the last one that matched; `cmp` is `compare` under
     * this question's settings.
     */
    method FindBatch(cmp: Comparison, response: Response) returns (found: Result<Option<nat>, Fault>)
      ensures found == Scan(cmp, batches, response, |batches|)
    {
      var batched := false;
      var thisBatch := 0;
      var i := 0;
      while i < |batches|
        invariant 0 <= i <= |batches|
        invariant Scan(cmp, batches, response, i) == Ok(if batched then Some(thisBatch) else None)
      {
        var equal := cmp(batches[i], response);
        if equal.Err? {
          ScanStopsAtFault(cmp, batches, response, i + 1, |batches|);
          return Err(equal.error);
        }
        if equal.value {
          thisBatch := i;
          batched := true;
        }
        i := i + 1;
      }
      found := Ok(if batched then Some(thisBatch) else None);
    }

    /**
     * The rest of one outer iteration: found a new batch when nothing matched, then record
     * the response's link to its batch.
     */
    method Join(response: Response, found: Result<Option<nat>, Fault>)
      modifies this
      requires found == Scan(Comparer(Settings()), batches, response, |batches|) && found.Ok?
      ensures Place(id, Comparer(Settings()), old(batches), response) == Ok(batches)
    {
      PlaceFound(id, Comparer(Settings()), batches, response, found);
      ghost var before := batches;
      var thisBatch;
      if found.value.None? {
        batches := batches + [Batch(0, "", response.kind, id, [])];
        thisBatch := |batches| - 1;
      } else {
        thisBatch := found.value.value;
      }
      batches := batches[thisBatch := batches[thisBatch].(members := batches[thisBatch].members + [response])];
      if found.value.None? {
        assert [] + [response] == [response];
        assert batches == before + [NewBatch(id, response)];
      }
    }

    /** `Question.create_batches`, from whatever batches the question holds. */
    method CreateBatches(store: seq<Response>) returns (failure: Option<Fault>)
      modifies this
      ensures Build(id, Comparer(Settings()), old(batches), Fetch(store, assignmentId, varName)) == Run(batches, failure)
    {
      var responses := Fetch(store, assignmentId, varName);
      var k := 0;
      while k < |responses|
        invariant 0 <= k <= |responses|
        invariant Build(id, Comparer(Settings()), old(batches), responses[..k]) == Run(batches, None)
      {
        var response := responses[k];
        ghost var before := batches;
        var found := FindBatch(Comparer(Settings()), response);
        if found.Err? {
          failure := Some(found.error);
          BuildFault(id, Comparer(Settings()), old(batches), responses, k, before);
          return;
        }
        Join(response, found);
        BuildStep(id, Comparer(Settings()), old(batches), responses, k, before);
        k := k + 1;
      }
      assert responses[..k] == responses;
      failure := None;
    }

    /** The route's rebuild: delete the question's batches, then create them again. */
    method Rebuild(store: seq<Response>) returns (failure: Option<Fault>)
      modifies this
      ensures Build(id, Comparer(Settings()), [], Fetch(store, assignmentId, varName)) == Run(batches, failure)
      ensures Coherent(Comparer(Settings()), batches) && Ungraded(id, batches)
    {
      DeleteBatches();
      failure := CreateBatches(store);
      ComparerKeepsRepresentative(Settings());
      BuildInvariant(id, Comparer(Settings()), [], Fetch(store, assignmentId, varName));
    }
  }
}
