/**
 * A batch of equivalent responses and `Batch.compare`, the test of a candidate response
 * against the batch's representative (its first member).
 */
module Batches {
  import opened Wrappers
  import opened Registry
  import opened Responses

  /** A batch: its grade and comments, the Datatype row copied from its first member, and its members in link order. */
  datatype Batch = Batch(grade: int, comments: string, kind: Datatype, questionId: int, members: seq<Response>)

  /** The question's preprocessing transform `fun(student_id, data)`; `None` stands for a call that raised. */
  type Transform = (int, Data) -> Option<Data>

  /** What `compare` takes from its question: the id, the numeric tolerance and the loaded transform. */
  datatype QuestionSettings = QuestionSettings(questionId: int, tolerance: real, transform: Option<Transform>)

  /** The default relative tolerance of `np.allclose`. */
  const RelativeTolerance: real := 0.00001

  function Abs(x: real): real { if x < 0.0 then -x else x }

  /** `np.allclose` on one pair of elements, `b` being the second argument. */
  predicate Close(a: real, b: real, atol: real)
  {
    Abs(a - b) <= atol + RelativeTolerance * Abs(b)
  }

  predicate AllClose(a: seq<real>, b: seq<real>, atol: real)
  {
    |a| == |b| && forall i :: 0 <= i < |a| ==> Close(a[i], b[i], atol)
  }

  /**
   * The single `try` around both transform calls: the response side is transformed first;
   * if that call raises, both values stay raw; if the batch-side call raises, the response
   * keeps its transformed value and the batch value stays raw.
   */
  function Preprocess(fun: Option<Transform>, responseStudent: int, responseData: Data,
                      batchStudent: int, batchData: Data): (p: (Data, Data))
    ensures p.0 == responseData || (fun.Some? && fun.value(responseStudent, responseData) == Some(p.0))
    ensures p.1 == batchData || (fun.Some? && fun.value(responseStudent, responseData).Some?
                                 && fun.value(batchStudent, batchData) == Some(p.1))
    ensures fun.Some? && fun.value(responseStudent, responseData).Some? ==>
              p.0 == fun.value(responseStudent, responseData).value
  {
    match fun
    case None => (responseData, batchData)
    case Some(f) =>
      match f(responseStudent, responseData)
      case None => (responseData, batchData)
      case Some(rd) =>
        match f(batchStudent, batchData)
        case None => (rd, batchData)
        case Some(bd) => (rd, bd)
  }

  /** The datatype names `compare` knows how to compare. */
  predicate KnownKind(name: string)
  {
    name == "text" || name == "symbolic" || name == "numeric"
  }

  /** The dispatch on the batch's datatype name, after preprocessing. */
  function Equivalent(name: string, batchData: Data, responseData: Data, tolerance: real): (res: Result<bool, Fault>)
    ensures res.Err? <==> name == "numeric" && !(batchData.Array? && responseData.Array?)
    ensures res.Err? ==> res.error == NoShape
    ensures res == Ok(true) ==> KnownKind(name)
    ensures res == Ok(true) && name == "numeric" ==>
              batchData.shape == responseData.shape && |batchData.flat| == |responseData.flat|
    ensures KnownKind(name) && res.Ok? && batchData == responseData && tolerance >= 0.0 ==> res == Ok(true)
    ensures (name == "text" || name == "symbolic") ==> (res == Ok(true) <==> batchData == responseData)
    ensures name == "numeric" && res.Ok? ==>
              (res.value <==> batchData.shape == responseData.shape && AllClose(batchData.flat, responseData.flat, tolerance))
  {
    if name == "text" || name == "symbolic" then Ok(batchData == responseData)
    else if name == "numeric" then
      if batchData.Array? && responseData.Array? then
        Ok(batchData.shape == responseData.shape && AllClose(batchData.flat, responseData.flat, tolerance))
      else Err(NoShape)
    else Ok(false)
  }

  /** `Batch.total_responses`: the number of membership links of the batch. */
  function BatchSize(b: Batch): (n: nat)
    ensures n == |b.members|
  {
    |b.members|
  }

  /** `Batch.get_data`: the data of the batch's first member; a batch without members raises. */
  function BatchData(b: Batch): (d: Result<Data, Fault>)
    ensures |b.members| > 0 ==> d == GetData(b.members[0])
    ensures |b.members| == 0 ==> d == Err(EmptyBatch)
  {
    if |b.members| == 0 then Err(EmptyBatch) else GetData(b.members[0])
  }

  /** `Batch.compare`: is `r` equivalent to the representative of `b`? The response's file is read first. */
  function Compare(q: QuestionSettings, b: Batch, r: Response): (res: Result<bool, Fault>)
    ensures b.kind.id != r.kind.id ==> res == Ok(false)
    ensures res == Ok(true) ==> b.kind.id == r.kind.id && KnownKind(b.kind.name)
    ensures b.kind.id == r.kind.id && GetData(r).Err? ==> res == Err(GetData(r).error)
    ensures b.kind.id == r.kind.id && GetData(r).Ok? && BatchData(b).Err? ==> res == Err(BatchData(b).error)
    ensures res.Err? ==> b.kind.id == r.kind.id
                         && (GetData(r) == Err(res.error)
                             || (GetData(r).Ok? && BatchData(b) == Err(res.error))
                             || (GetData(r).Ok? && BatchData(b).Ok? && b.kind.name == "numeric" && res.error == NoShape))
  {
    if b.kind.id != r.kind.id then Ok(false)
    else
      match GetData(r)
      case Err(e) => Err(e)
      case Ok(responseData) =>
        match BatchData(b)
        case Err(e) => Err(e)
        case Ok(batchData) =>
          var (rd, bd) := Preprocess(q.transform, r.studentId, responseData, b.members[0].studentId, batchData);
          Equivalent(b.kind.name, bd, rd, q.tolerance)
  }

  /** A comparison of a batch with a candidate response, as a value the engine is run with. */
  type Comparison = (Batch, Response) -> Result<bool, Fault>

  /** `compare` under one question's settings. */
  function Comparer(q: QuestionSettings): (cmp: Comparison)
    ensures forall b, r :: cmp(b, r) == Compare(q, b, r)
  {
    (b: Batch, r: Response) => Compare(q, b, r)
  }

  /** Recording one more member leaves every later comparison with the batch as it was. */
  ghost predicate KeepsRepresentative(cmp: Comparison)
  {
    forall b: Batch, r: Response, x: Response :: |b.members| > 0 ==> cmp(b.(members := b.members + [r]), x) == cmp(b, x)
  }

  /** A datatype mismatch is "not equivalent" before any file is read or any transform is run. */
  lemma KindMismatch(q: QuestionSettings, b: Batch, r: Response)
    requires b.kind.id != r.kind.id
    ensures Compare(q, b, r) == Ok(false)
  {
  }

  /** Only the datatype and the first member of a batch take part in a comparison. */
  lemma CompareSeesRepresentative(q: QuestionSettings, b: Batch, b': Batch, r: Response)
    requires |b.members| > 0 && |b'.members| > 0
    requires b'.kind == b.kind && b'.members[0] == b.members[0]
    ensures Compare(q, b', r) == Compare(q, b, r)
  {
  }

  /** `compare` takes the representative, whatever members follow it. */
  lemma ComparerKeepsRepresentative(q: QuestionSettings)
    ensures KeepsRepresentative(Comparer(q))
  {
    forall b: Batch, r: Response, x: Response | |b.members| > 0
      ensures Comparer(q)(b.(members := b.members + [r]), x) == Comparer(q)(b, x)
    {
      CompareSeesRepresentative(q, b, b.(members := b.members + [r]), x);
    }
  }

  /**
   * Whatever the transform: once both files decode, `compare` is the dispatch on the
   * preprocessed pair, exact equality for text and symbolic values, and equal shapes with
   * `np.allclose` for numeric arrays, which raise when a side is not an array.
   */
  lemma CompareAfterTransform(q: QuestionSettings, b: Batch, r: Response)
    requires b.kind.id == r.kind.id && |b.members| > 0
    requires GetData(r).Ok? && BatchData(b).Ok?
    ensures var p := Preprocess(q.transform, r.studentId, GetData(r).value, b.members[0].studentId, BatchData(b).value);
            && ((b.kind.name == "text" || b.kind.name == "symbolic") ==> Compare(q, b, r) == Ok(p.1 == p.0))
            && (b.kind.name == "numeric" && p.0.Array? && p.1.Array? ==>
                  Compare(q, b, r) == Ok(p.1.shape == p.0.shape && AllClose(p.1.flat, p.0.flat, q.tolerance)))
            && (b.kind.name == "numeric" && !(p.0.Array? && p.1.Array?) ==> Compare(q, b, r) == Err(NoShape))
  {
  }

  /** Without a transform, text and symbolic responses are equivalent exactly when their files read the same. */
  lemma TextExactMatch(q: QuestionSettings, b: Batch, r: Response)
    requires q.transform.None?
    requires |b.members| > 0 && b.members[0].kind == b.kind && r.kind == b.kind
    requires b.kind.name == "text" || b.kind.name == "symbolic"
    requires b.members[0].file.File? && r.file.File?
    ensures Compare(q, b, r) == Ok(b.members[0].file.text == r.file.text)
  {
    CompareAfterTransform(q, b, r);
  }

  /** Without a transform, numeric responses are equivalent exactly when the shapes agree and every pair of elements is close. */
  lemma NumericMatch(q: QuestionSettings, b: Batch, r: Response)
    requires q.transform.None?
    requires |b.members| > 0 && b.members[0].kind == b.kind && r.kind == b.kind
    requires b.kind.name == "numeric"
    requires b.members[0].file.File? && b.members[0].file.table.Some?
    requires r.file.File? && r.file.table.Some?
    ensures var bd, rd := Unwrap(b.members[0].file.table.value), Unwrap(r.file.table.value);
            Compare(q, b, r) == Ok(bd.shape == rd.shape && AllClose(bd.flat, rd.flat, q.tolerance))
  {
    CompareAfterTransform(q, b, r);
  }

  /** A datatype name other than text, symbolic and numeric never matches, whatever the transform does. */
  lemma UnknownKindNeverMatches(q: QuestionSettings, b: Batch, r: Response)
    requires |b.members| > 0 && b.members[0].kind == b.kind && r.kind == b.kind
    requires b.kind.name !in {"text", "symbolic", "numeric"}
    requires b.members[0].file.File? && r.file.File?
    ensures Compare(q, b, r) == Ok(false)
  {
  }

  /** The fail-open policy of the transform step, case by case. */
  lemma PreprocessFailOpen(f: Transform, rs: int, rd: Data, bs: int, bd: Data)
    ensures Preprocess(None, rs, rd, bs, bd) == (rd, bd)
    ensures f(rs, rd).None? ==> Preprocess(Some(f), rs, rd, bs, bd) == (rd, bd)
    ensures f(rs, rd).Some? && f(bs, bd).None? ==> Preprocess(Some(f), rs, rd, bs, bd) == (f(rs, rd).value, bd)
    ensures f(rs, rd).Some? && f(bs, bd).Some? ==> Preprocess(Some(f), rs, rd, bs, bd) == (f(rs, rd).value, f(bs, bd).value)
  {
  }

  /** Every element pair within the absolute tolerance is close. */
  lemma WithinToleranceIsClose(a: real, b: real, atol: real)
    requires Abs(a - b) <= atol
    ensures Close(a, b, atol)
  {
  }

  /** The relative term lets a difference larger than the tolerance through. */
  lemma RelativeSlack()
    ensures Abs(1000.005 - 1000.0) > 0.001 && Close(1000.005, 1000.0, 0.001)
  {
  }

  /** Closeness depends on which value is the representative. */
  lemma CloseIsAsymmetric()
    ensures var a, b := 1.0, 1.0 + RelativeTolerance / (1.0 - RelativeTolerance);
            Close(a, b, 0.0) && !Close(b, a, 0.0)
  {
  }

  /** A text or symbolic representative is equivalent to itself under any transform. */
  lemma {:induction false} TextRepresentativeMatchesItself(q: QuestionSettings, b: Batch)
    requires |b.members| > 0 && b.members[0].kind == b.kind
    requires b.kind.name == "text" || b.kind.name == "symbolic"
    requires b.members[0].file.File?
    ensures Compare(q, b, b.members[0]) == Ok(true)
  {
    var rep := b.members[0];
    var d := GetData(rep).value;
    match q.transform
    case None =>
    case Some(f) =>
      assert Preprocess(q.transform, rep.studentId, d, rep.studentId, d).0
          == Preprocess(q.transform, rep.studentId, d, rep.studentId, d).1;
  }

  /** Without a transform, a numeric representative is equivalent to itself for a tolerance of zero or more. */
  lemma {:induction false} NumericRepresentativeMatchesItself(q: QuestionSettings, b: Batch)
    requires q.transform.None? && q.tolerance >= 0.0
    requires |b.members| > 0 && b.members[0].kind == b.kind
    requires b.kind.name == "numeric"
    requires b.members[0].file.File? && b.members[0].file.table.Some?
    ensures Compare(q, b, b.members[0]) == Ok(true)
  {
    var d := Unwrap(b.members[0].file.table.value);
    forall i | 0 <= i < |d.flat| ensures Close(d.flat[i], d.flat[i], q.tolerance) {
      assert Abs(d.flat[i] - d.flat[i]) == 0.0;
    }
  }
}
