/** Worked runs of the batching engine on small inputs. */
module Scenarios {
  import opened Wrappers
  import opened Registry
  import opened Responses
  import opened Batches
  import opened Engine
  import Export

  const Numeric: Datatype := Datatype(1, "numeric", "csv")
  const Plain: Datatype := Datatype(2, "text", "txt")

  function Matrix(id: int, student: int, rows: nat, cols: nat, cells: seq<real>): Response
  {
    Response(id, "x", student, Numeric, 1, File("", Some(Table(rows, cols, cells))))
  }

  function Written(id: int, student: int, text: string): Response
  {
    Response(id, "x", student, Plain, 1, File(text, None))
  }

  const Strict: QuestionSettings := QuestionSettings(7, 0.001, None)
  const Zero: Response := Matrix(1, 10, 1, 1, [0.0])
  const Far: Response := Matrix(2, 11, 1, 1, [0.0015])
  const Between: Response := Matrix(3, 12, 1, 1, [0.0008])

  /** A response unequal to every batch founds a new one. */
  lemma Founds(qid: int, cmp: Comparison, bs: seq<Batch>, r: Response)
    requires forall j :: 0 <= j < |bs| ==> cmp(bs[j], r) == Ok(false)
    ensures Place(qid, cmp, bs, r) == Ok(bs + [NewBatch(qid, r)])
  {
  }

  /** A response equal to batch `i` and unequal to every later batch joins batch `i`. */
  lemma Joins(qid: int, cmp: Comparison, bs: seq<Batch>, i: nat, r: Response)
    requires i < |bs|
    requires forall j :: 0 <= j < |bs| ==> cmp(bs[j], r).Ok?
    requires cmp(bs[i], r) == Ok(true)
    requires forall j :: i < j < |bs| ==> cmp(bs[j], r) == Ok(false)
    ensures Place(qid, cmp, bs, r) == Ok(bs[i := bs[i].(members := bs[i].members + [r])])
  {
    ScanFindsLastMatch(cmp, bs, r, i);
    PlaceFound(qid, cmp, bs, r, Scan(cmp, bs, r, |bs|));
  }

  lemma FirstResponse(qid: int, cmp: Comparison, rs: seq<Response>)
    requires rs != []
    ensures Build(qid, cmp, [], rs[..1]) == Run([NewBatch(qid, rs[0])], None)
  {
    assert rs[..1][..0] == [];
  }

  lemma ZeroFarApart()
    ensures Compare(Strict, NewBatch(7, Zero), Far) == Ok(false)
  {
    assert GetData(Far) == Ok(Array([], [0.0015])) && GetData(Zero) == Ok(Array([], [0.0]));
    assert !Close([0.0][0], [0.0015][0], 0.001);
  }

  lemma BetweenMatchesBoth()
    ensures Compare(Strict, NewBatch(7, Zero), Between) == Ok(true)
    ensures Compare(Strict, NewBatch(7, Far), Between) == Ok(true)
  {
    assert GetData(Between) == Ok(Array([], [0.0008]));
    assert Close([0.0][0], [0.0008][0], 0.001);
    assert Close([0.0015][0], [0.0008][0], 0.001);
  }

  /** 0 and 0.0015 are not close under a tolerance of 0.001: they found two batches. */
  lemma TwoRepresentatives()
    ensures Build(7, Comparer(Strict), [], [Zero, Far]) == Run([NewBatch(7, Zero), NewBatch(7, Far)], None)
  {
    var cmp, rs := Comparer(Strict), [Zero, Far];
    FirstResponse(7, cmp, rs);
    ZeroFarApart();
    Founds(7, cmp, [NewBatch(7, Zero)], Far);
    BuildStep(7, cmp, [], rs, 1, [NewBatch(7, Zero)]);
    assert rs[..2] == rs;
  }

  /** 0.0008 is close to both representatives and joins the later batch. */
  lemma JoinsLaterBatch()
    ensures Place(7, Comparer(Strict), [NewBatch(7, Zero), NewBatch(7, Far)], Between)
         == Ok([NewBatch(7, Zero), Batch(0, "", Numeric, 7, [Far, Between])])
  {
    var bs := [NewBatch(7, Zero), NewBatch(7, Far)];
    BetweenMatchesBoth();
    Joins(7, Comparer(Strict), bs, 1, Between);
    assert [Far] + [Between] == [Far, Between];
    assert bs[1 := bs[1].(members := bs[1].members + [Between])] == [NewBatch(7, Zero), Batch(0, "", Numeric, 7, [Far, Between])];
  }

  /**
   * Two batches whose representatives (0 and 0.0015) are not close both match 0.0008;
   * the response joins the later one.
   */
  lemma LastMatchWins()
    ensures Build(7, Comparer(Strict), [], [Zero, Far, Between])
         == Run([NewBatch(7, Zero), Batch(0, "", Numeric, 7, [Far, Between])], None)
  {
    var rs := [Zero, Far, Between];
    assert rs[..2] == [Zero, Far];
    TwoRepresentatives();
    JoinsLaterBatch();
    BuildStep(7, Comparer(Strict), [], rs, 2, [NewBatch(7, Zero), NewBatch(7, Far)]);
    assert rs[..3] == rs;
  }

  const Pair: Response := Matrix(1, 10, 1, 2, [1.0, 2.0])
  const NearPair: Response := Matrix(2, 11, 1, 2, [1.0005, 2.0])
  const Five: Response := Matrix(3, 12, 1, 1, [5.0])

  lemma NearPairIsClose()
    ensures Compare(Strict, NewBatch(7, Pair), NearPair) == Ok(true)
  {
    assert GetData(Pair) == Ok(Array([1, 2], [1.0, 2.0]));
    assert GetData(NearPair) == Ok(Array([1, 2], [1.0005, 2.0]));
    assert Close([1.0, 2.0][0], [1.0005, 2.0][0], 0.001) && Close([1.0, 2.0][1], [1.0005, 2.0][1], 0.001);
  }

  lemma ScalarHasOtherShape()
    ensures Compare(Strict, Batch(0, "", Numeric, 7, [Pair, NearPair]), Five) == Ok(false)
  {
    assert GetData(Pair) == Ok(Array([1, 2], [1.0, 2.0]));
    assert GetData(Five) == Ok(Array([], [5.0]));
  }

  lemma NearPairJoins()
    ensures Build(7, Comparer(Strict), [], [Pair, NearPair, Five][..2]) == Run([Batch(0, "", Numeric, 7, [Pair, NearPair])], None)
  {
    var cmp, rs := Comparer(Strict), [Pair, NearPair, Five];
    var one := [NewBatch(7, Pair)];
    FirstResponse(7, cmp, rs);
    NearPairIsClose();
    Joins(7, cmp, one, 0, NearPair);
    assert [Pair] + [NearPair] == [Pair, NearPair];
    assert one[0 := one[0].(members := one[0].members + [NearPair])] == [Batch(0, "", Numeric, 7, [Pair, NearPair])];
    BuildStep(7, cmp, [], rs, 1, one);
  }

  /** [1.0, 2.0] and [1.0005, 2.0] batch together; the scalar 5.0 has another shape. */
  lemma ToleranceAndShape()
    ensures Build(7, Comparer(Strict), [], [Pair, NearPair, Five])
         == Run([Batch(0, "", Numeric, 7, [Pair, NearPair]), NewBatch(7, Five)], None)
  {
    var cmp, rs := Comparer(Strict), [Pair, NearPair, Five];
    var two := [Batch(0, "", Numeric, 7, [Pair, NearPair])];
    NearPairJoins();
    ScalarHasOtherShape();
    Founds(7, cmp, two, Five);
    BuildStep(7, cmp, [], rs, 2, two);
    assert rs[..3] == rs;
  }

  lemma CaseDiffers()
    ensures Compare(Strict, NewBatch(7, Written(1, 10, "foo")), Written(2, 11, "Foo")) == Ok(false)
  {
    assert "foo" != "Foo" by { assert "foo"[0] != "Foo"[0]; }
  }

  /** Text matching is case-sensitive: "foo" and "Foo" found two batches. */
  lemma CaseSensitiveText()
    ensures var a, b := Written(1, 10, "foo"), Written(2, 11, "Foo");
            Build(7, Comparer(Strict), [], [a, b]) == Run([NewBatch(7, a), NewBatch(7, b)], None)
  {
    var cmp := Comparer(Strict);
    var a, b := Written(1, 10, "foo"), Written(2, 11, "Foo");
    var rs := [a, b];
    FirstResponse(7, cmp, rs);
    CaseDiffers();
    Founds(7, cmp, [NewBatch(7, a)], b);
    BuildStep(7, cmp, [], rs, 1, [NewBatch(7, a)]);
    assert rs[..2] == rs;
  }

  /** A transform that maps "01" and "1" to "1" and raises on anything else. */
  function Normalise(s: int, d: Data): Option<Data>
  {
    if d == Text("01") || d == Text("1") then Some(Text("1")) else None
  }

  const Normalising: QuestionSettings := QuestionSettings(7, 0.001, Some(Normalise))

  lemma NormalisedTextMatches()
    ensures Compare(Normalising, NewBatch(7, Written(1, 10, "01")), Written(2, 11, "1")) == Ok(true)
  {
  }

  lemma RawTextDiffers()
    ensures Compare(Normalising, Batch(0, "", Plain, 7, [Written(1, 10, "01"), Written(2, 11, "1")]), Written(3, 12, "abc"))
         == Ok(false)
  {
    assert Normalise(12, Text("abc")) == None;
    assert "abc" != "01" by { assert "abc"[0] != "01"[0]; }
  }

  lemma NormalisedPairJoins()
    ensures var a, b, c := Written(1, 10, "01"), Written(2, 11, "1"), Written(3, 12, "abc");
            Build(7, Comparer(Normalising), [], [a, b, c][..2]) == Run([Batch(0, "", Plain, 7, [a, b])], None)
  {
    var cmp := Comparer(Normalising);
    var a, b, c := Written(1, 10, "01"), Written(2, 11, "1"), Written(3, 12, "abc");
    var rs := [a, b, c];
    var one := [NewBatch(7, a)];
    FirstResponse(7, cmp, rs);
    NormalisedTextMatches();
    Joins(7, cmp, one, 0, b);
    assert [a] + [b] == [a, b];
    assert one[0 := one[0].(members := one[0].members + [b])] == [Batch(0, "", Plain, 7, [a, b])];
    BuildStep(7, cmp, [], rs, 1, one);
  }

  /**
   * A transform that raises on "abc" does not stop the run: "abc" is compared raw and
   * founds its own batch, while "01" and "1" normalise to the same value.
   */
  lemma FailingTransformDoesNotAbort()
    ensures var a, b, c := Written(1, 10, "01"), Written(2, 11, "1"), Written(3, 12, "abc");
            Build(7, Comparer(Normalising), [], [a, b, c]) == Run([Batch(0, "", Plain, 7, [a, b]), NewBatch(7, c)], None)
  {
    var cmp := Comparer(Normalising);
    var a, b, c := Written(1, 10, "01"), Written(2, 11, "1"), Written(3, 12, "abc");
    var rs := [a, b, c];
    var two := [Batch(0, "", Plain, 7, [a, b])];
    NormalisedPairJoins();
    RawTextDiffers();
    Founds(7, cmp, two, c);
    BuildStep(7, cmp, [], rs, 2, two);
    assert rs[..3] == rs;
  }

  /** Student 1's rows: 3 points for Q1 and 2 for a question named Total. */
  const Graded: seq<Export.Entry> := [Export.Entry(1, "Q1", 3, "ok"), Export.Entry(1, "Total", 2, "fine")]
  const GradedViews: seq<Export.QuestionView> := [Export.QuestionView("Q1", 4, []), Export.QuestionView("Total", 10, [])]
  const GradedColumns: seq<string> := ["Q1", "Total"]

  lemma GradedCells()
    ensures Export.GradeCells(Graded, 1, GradedColumns) == [3, 2]
    ensures Export.Sum(Export.GradeCells(Graded, 1, GradedColumns)) == 5
  {
    assert Graded[..1] == [Graded[0]] && Graded[..1][..0] == [];
    assert Export.GradeCell(Graded, 1, "Q1") == 3 && Export.GradeCell(Graded, 1, "Total") == 2;
    var gs := Export.GradeCells(Graded, 1, GradedColumns);
    assert gs == [3, 2];
    assert gs[..1] == [3] && gs[..1][..0] == [];
    assert Export.Sum([3]) == 3;
  }

  lemma GradedMaxGrade()
    ensures forall q :: q in GradedColumns ==> Export.Named(GradedViews, q)
    ensures Export.MaxGradeOf(GradedViews, "Total") == 10
  {
    assert GradedViews[0].name == "Q1" && GradedViews[1].name == "Total";
    assert GradedViews[1..][0] == GradedViews[1];
  }

  /**
   * A question named `Total`: the assigned row sum replaces the question's cell, so the
   * grade CSV holds 3 and 5 under the header (Q1, Total), and the feedback reports 5 for
   * the question Total.
   */
  lemma TotalQuestionOverwritten()
    ensures Export.TableLine(Graded, 1, GradedColumns) == [3, 5]
    ensures Export.Header(GradedColumns) == GradedColumns
    ensures forall q :: q in GradedColumns ==> Export.Named(GradedViews, q)
    ensures Export.Sections(GradedViews, Graded, 1, GradedColumns, [3, 5], false)[1]
            == "\nTotal\nGrade: 5/10.0\nComments: fine\n"
  {
    GradedCells();
    GradedMaxGrade();
    assert Graded[..1] == [Graded[0]] && Graded[..1][..0] == [];
    assert Export.CommentCell(Graded, 1, "Total") == "fine";
    TotalSectionText();
  }

  lemma TotalSectionText()
    ensures Export.Section("Total", 5, false, 10, "fine") == "\nTotal\nGrade: 5/10.0\nComments: fine\n"
  {
    assert Export.IntText(5) == "5" && Export.IntText(10) == "10";
  }
}
