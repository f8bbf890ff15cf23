/**
 * `Assignment.save_grades` without the files: every membership link yields one
 * (student, question, grade, comments) row; `pivot` lays the rows out with one line per
 * student and one column per question, missing pairs are filled, each line gets its
 * `Total`, and every student gets a feedback text with one section per question column.
 * `Assignment.total_points` lives here too.
 */
module Export {
  import opened Wrappers
  import opened Ordering
  import opened Responses
  import opened Batches
  import opened Engine

  /** One row of the joined BatchResponse / Batch / Question / Response table. */
  datatype Entry = Entry(studentId: int, question: string, grade: int, comments: string)

  /** What `save_grades` reads of one question of the assignment. */
  datatype QuestionView = QuestionView(name: string, maxGrade: int, batches: seq<Batch>)

  /**
   * One line of the grade table and the feedback written for that student: the cells of the
   * question columns as the table holds them once `Total` is assigned, and the row sum.
   */
  datatype StudentRow = StudentRow(studentId: int, grades: seq<int>, total: int, feedback: string)

  /**
   * The grade table: the pivot's question columns, whether pandas holds the table as floats
   * (it does once a (student, question) pair is missing), and one row per student.
   */
  datatype Report = Report(columns: seq<string>, floats: bool, rows: seq<StudentRow>)

  /** `pivot` raises when a (student, question) pair occurs twice. */
  datatype ExportError = DuplicateEntries

  /** The column `save_grades` assigns the row sums to. */
  const TotalColumn := "Total"

  /** The comment written for a pair that has no row. */
  const Placeholder := "Did not find a response for this question."

  /** The rows one batch contributes: one per member. */
  function BatchEntries(name: string, b: Batch): (es: seq<Entry>)
    ensures |es| == |b.members|
    ensures forall e :: e in es <==> exists r :: r in b.members && e == Entry(r.studentId, name, b.grade, b.comments)
  {
    var es := seq(|b.members|, k requires 0 <= k < |b.members| => Entry(b.members[k].studentId, name, b.grade, b.comments));
    assert forall e :: e in es ==> exists r :: r in b.members && e == Entry(r.studentId, name, b.grade, b.comments) by {
      forall e | e in es ensures exists r :: r in b.members && e == Entry(r.studentId, name, b.grade, b.comments) {
        var k :| 0 <= k < |es| && es[k] == e;
        assert b.members[k] in b.members;
      }
    }
    assert forall r :: r in b.members ==> Entry(r.studentId, name, b.grade, b.comments) in es by {
      forall r | r in b.members ensures Entry(r.studentId, name, b.grade, b.comments) in es {
        var k :| 0 <= k < |b.members| && b.members[k] == r;
        assert es[k] == Entry(r.studentId, name, b.grade, b.comments);
      }
    }
    es
  }

  /** The rows of one question, batch after batch. */
  function ViewEntries(v: QuestionView, n: nat): (es: seq<Entry>)
    requires n <= |v.batches|
    ensures |es| == CountResponses(v.batches[..n])
    ensures forall e :: e in es <==> exists i :: 0 <= i < n && e in BatchEntries(v.name, v.batches[i])
  {
    if n == 0 then []
    else
      assert v.batches[..n][..n - 1] == v.batches[..n - 1];
      ViewEntries(v, n - 1) + BatchEntries(v.name, v.batches[n - 1])
  }

  /** The number of membership links over all the questions: their `total_responses` added up. */
  function TotalLinks(views: seq<QuestionView>): nat
  {
    if views == [] then 0 else TotalLinks(views[..|views| - 1]) + CountResponses(views[|views| - 1].batches)
  }

  /** The rows of all the assignment's questions. */
  function Entries(views: seq<QuestionView>): (es: seq<Entry>)
    ensures |es| == TotalLinks(views)
    ensures forall e :: e in es <==> exists i :: 0 <= i < |views| && e in ViewEntries(views[i], |views[i].batches|)
  {
    if views == [] then []
    else
      var n := |views| - 1;
      assert views[n].batches[..|views[n].batches|] == views[n].batches;
      var es := Entries(views[..n]) + ViewEntries(views[n], |views[n].batches|);
      assert forall i :: 0 <= i < n ==> views[..n][i] == views[i];
      es
  }

  /** A row comes from exactly one link: a member of a batch of a question, with the batch's grade and comments. */
  lemma EntriesAreLinks(views: seq<QuestionView>, e: Entry)
    ensures e in Entries(views) <==>
            exists i, j, r :: 0 <= i < |views| && 0 <= j < |views[i].batches| && r in views[i].batches[j].members
                              && e == Entry(r.studentId, views[i].name, views[i].batches[j].grade, views[i].batches[j].comments)
  {
    if e in Entries(views) {
      var i :| 0 <= i < |views| && e in ViewEntries(views[i], |views[i].batches|);
      var j :| 0 <= j < |views[i].batches| && e in BatchEntries(views[i].name, views[i].batches[j]);
      var r :| r in views[i].batches[j].members
               && e == Entry(r.studentId, views[i].name, views[i].batches[j].grade, views[i].batches[j].comments);
    }
    if exists i, j, r :: 0 <= i < |views| && 0 <= j < |views[i].batches| && r in views[i].batches[j].members
                         && e == Entry(r.studentId, views[i].name, views[i].batches[j].grade, views[i].batches[j].comments) {
      var i, j, r :| 0 <= i < |views| && 0 <= j < |views[i].batches| && r in views[i].batches[j].members
                     && e == Entry(r.studentId, views[i].name, views[i].batches[j].grade, views[i].batches[j].comments);
      assert e in BatchEntries(views[i].name, views[i].batches[j]);
      assert e in ViewEntries(views[i], |views[i].batches|);
    }
  }

  /** Two rows for the same (student, question) pair. */
  predicate Duplicated(es: seq<Entry>)
  {
    exists i, j :: 0 <= i < j < |es| && es[i].studentId == es[j].studentId && es[i].question == es[j].question
  }

  /** The pivot index: every student with a row, ascending, once each. */
  function Students(es: seq<Entry>): (r: seq<int>)
    ensures Ascending(r, IntLess)
    ensures forall s :: s in r <==> exists e :: e in es && e.studentId == s
  {
    IntOrder();
    var ids := seq(|es|, i requires 0 <= i < |es| => es[i].studentId);
    assert forall s :: s in ids <==> exists e :: e in es && e.studentId == s by {
      forall s | exists e :: e in es && e.studentId == s ensures s in ids {
        var e :| e in es && e.studentId == s;
        var i :| 0 <= i < |es| && es[i] == e;
        assert ids[i] == s;
      }
    }
    Sorted(ids, IntLess)
  }

  /** The pivot columns: every question with a row, in string order, once each. */
  function Columns(es: seq<Entry>): (r: seq<string>)
    ensures Ascending(r, StringLess)
    ensures forall q :: q in r <==> exists e :: e in es && e.question == q
  {
    StringOrder();
    var names := seq(|es|, i requires 0 <= i < |es| => es[i].question);
    assert forall q :: q in names <==> exists e :: e in es && e.question == q by {
      forall q | exists e :: e in es && e.question == q ensures q in names {
        var e :| e in es && e.question == q;
        var i :| 0 <= i < |es| && es[i] == e;
        assert names[i] == q;
      }
    }
    Sorted(names, StringLess)
  }

  /** The first row for the pair, if any. */
  function Lookup(es: seq<Entry>, s: int, q: string): (r: Option<Entry>)
    ensures r.None? <==> forall e :: e in es ==> !(e.studentId == s && e.question == q)
    ensures r.Some? ==> r.value in es && r.value.studentId == s && r.value.question == q
  {
    if es == [] then None
    else
      var front := es[..|es| - 1];
      var last := es[|es| - 1];
      assert forall e :: e in es <==> e in front || e == last;
      match Lookup(front, s, q)
      case Some(e) => Some(e)
      case None => if last.studentId == s && last.question == q then Some(last) else None
  }

  /** The grade cell of the pair; `fillna(0)` where there is no row. */
  function GradeCell(es: seq<Entry>, s: int, q: string): (g: int)
    ensures (forall e :: e in es ==> !(e.studentId == s && e.question == q)) ==> g == 0
    ensures (exists e :: e in es && e.studentId == s && e.question == q) ==>
              exists e :: e in es && e.studentId == s && e.question == q && g == e.grade
  {
    match Lookup(es, s, q)
    case None => 0
    case Some(e) => e.grade
  }

  /** The comment cell of the pair; the placeholder where there is no row. */
  function CommentCell(es: seq<Entry>, s: int, q: string): (c: string)
    ensures (forall e :: e in es ==> !(e.studentId == s && e.question == q)) ==> c == Placeholder
    ensures (exists e :: e in es && e.studentId == s && e.question == q) ==>
              exists e :: e in es && e.studentId == s && e.question == q && c == e.comments
  {
    match Lookup(es, s, q)
    case None => Placeholder
    case Some(e) => e.comments
  }

  /** Without duplicates, a pair's cells are exactly its one row's grade and comments. */
  lemma CellsOfPresentPair(es: seq<Entry>, e: Entry)
    requires !Duplicated(es)
    requires e in es
    ensures GradeCell(es, e.studentId, e.question) == e.grade
    ensures CommentCell(es, e.studentId, e.question) == e.comments
  {
    var f := Lookup(es, e.studentId, e.question).value;
    var i :| 0 <= i < |es| && es[i] == e;
    var j :| 0 <= j < |es| && es[j] == f;
    assert i == j;
  }

  /** One student's grade cells, in column order. */
  function GradeCells(es: seq<Entry>, s: int, columns: seq<string>): (gs: seq<int>)
    ensures |gs| == |columns|
    ensures forall j :: 0 <= j < |columns| ==> gs[j] == GradeCell(es, s, columns[j])
  {
    seq(|columns|, j requires 0 <= j < |columns| => GradeCell(es, s, columns[j]))
  }

  function Sum(xs: seq<int>): int
  {
    if xs == [] then 0 else Sum(xs[..|xs| - 1]) + xs[|xs| - 1]
  }

  lemma {:induction false} SumAppend(xs: seq<int>, ys: seq<int>)
    ensures Sum(xs + ys) == Sum(xs) + Sum(ys)
  {
    if ys == [] {
      assert xs + ys == xs;
    } else {
      assert (xs + ys)[..|xs + ys| - 1] == xs + ys[..|ys| - 1];
      SumAppend(xs, ys[..|ys| - 1]);
    }
  }

  /** Changing one cell changes the sum by the difference. */
  lemma {:induction false} SumUpdate(xs: seq<int>, j: nat, v: int)
    requires j < |xs|
    ensures Sum(xs[j := v]) == Sum(xs) - xs[j] + v
  {
    var n := |xs| - 1;
    if j < n {
      assert xs[j := v][..n] == xs[..n][j := v];
      SumUpdate(xs[..n], j, v);
    } else {
      assert xs[j := v][..n] == xs[..n];
    }
  }

  /** The grades of a student's rows, added up row by row. */
  function StudentTotal(es: seq<Entry>, s: int): int
  {
    if es == [] then 0
    else
      var last := es[|es| - 1];
      StudentTotal(es[..|es| - 1], s) + (if last.studentId == s then last.grade else 0)
  }

  /** Appending a row that belongs to another student leaves this student's cells alone. */
  lemma OtherStudentCells(es: seq<Entry>, e: Entry, s: int, columns: seq<string>)
    requires e.studentId != s
    ensures GradeCells(es + [e], s, columns) == GradeCells(es, s, columns)
  {
    forall j | 0 <= j < |columns| ensures GradeCell(es + [e], s, columns[j]) == GradeCell(es, s, columns[j]) {
      assert (es + [e])[..|es|] == es;
    }
  }

  /** Appending this student's row for a new question fills that question's cell with its grade. */
  lemma SameStudentCells(es: seq<Entry>, e: Entry, columns: seq<string>, k: nat)
    requires k < |columns| && columns[k] == e.question
    requires Ascending(columns, StringLess)
    requires forall f :: f in es ==> !(f.studentId == e.studentId && f.question == e.question)
    ensures GradeCells(es + [e], e.studentId, columns) == GradeCells(es, e.studentId, columns)[k := e.grade]
  {
    StringOrder();
    forall j | 0 <= j < |columns|
      ensures GradeCell(es + [e], e.studentId, columns[j]) == GradeCells(es, e.studentId, columns)[k := e.grade][j]
    {
      assert (es + [e])[..|es|] == es;
      if j != k {
        assert StringLess(columns[j], columns[k]) || StringLess(columns[k], columns[j]);
      }
    }
  }

  /**
   * `Total` is the sum of the student's rows: with no duplicate pair and every question of
   * the student among the distinct columns, the row sum of the filled cells is exactly
   * what the student's rows add up to.
   */
  lemma {:induction false} TotalMatchesEntries(es: seq<Entry>, s: int, columns: seq<string>)
    requires !Duplicated(es)
    requires Ascending(columns, StringLess)
    requires forall e :: e in es && e.studentId == s ==> e.question in columns
    ensures Sum(GradeCells(es, s, columns)) == StudentTotal(es, s)
  {
    if es == [] {
      var gs := GradeCells(es, s, columns);
      assert gs == seq(|columns|, j => 0);
      ZeroSum(|columns|);
    } else {
      var front := es[..|es| - 1];
      var e := es[|es| - 1];
      assert es == front + [e];
      TotalMatchesEntries(front, s, columns);
      if e.studentId == s {
        var k :| 0 <= k < |columns| && columns[k] == e.question;
        forall f | f in front ensures !(f.studentId == e.studentId && f.question == e.question) {
          var i :| 0 <= i < |front| && front[i] == f;
          assert es[i] == f;
        }
        SameStudentCells(front, e, columns, k);
        SumUpdate(GradeCells(front, s, columns), k, e.grade);
        assert GradeCells(front, s, columns)[k] == 0;
      } else {
        OtherStudentCells(front, e, s, columns);
      }
    }
  }

  lemma {:induction false} ZeroSum(n: nat)
    ensures Sum(seq(n, j => 0)) == 0
  {
    if n > 0 {
      assert seq(n, j => 0)[..n - 1] == seq(n - 1, j => 0);
      ZeroSum(n - 1);
    }
  }

  /**
   * One student's line of the grade table once `grades['Total']` is assigned: the filled
   * grade in every question column, except that a question column named `Total` is
   * replaced by the row sum, which was taken before the assignment.
   */
  function TableLine(es: seq<Entry>, s: int, columns: seq<string>): (line: seq<int>)
    ensures |line| == |columns|
  {
    var gs := GradeCells(es, s, columns);
    seq(|columns|, j requires 0 <= j < |columns| => if columns[j] == TotalColumn then Sum(gs) else gs[j])
  }

  /** Some listed student has no row for some column: `pivot` then fills in NaN and the table becomes float. */
  predicate HasGap(es: seq<Entry>, students: seq<int>, columns: seq<string>)
  {
    exists s, q :: s in students && q in columns && Lookup(es, s, q).None?
  }

  /** Some question of the assignment has this name. */
  predicate Named(views: seq<QuestionView>, name: string)
  {
    exists i :: 0 <= i < |views| && views[i].name == name
  }

  /** `Question.query.filter_by(...).filter_by(name=...).first().max_grade`. */
  function MaxGradeOf(views: seq<QuestionView>, name: string): (m: int)
    requires Named(views, name)
    ensures exists i :: 0 <= i < |views| && views[i].name == name && views[i].maxGrade == m
                        && forall k :: 0 <= k < i ==> views[k].name != name
  {
    if views[0].name == name then views[0].maxGrade
    else
      assert Named(views[1..], name) by {
        var i :| 0 <= i < |views| && views[i].name == name;
        assert views[1..][i - 1] == views[i];
      }
      var m := MaxGradeOf(views[1..], name);
      var i :| 0 <= i < |views[1..]| && views[1..][i].name == name && views[1..][i].maxGrade == m
               && forall k :: 0 <= k < i ==> views[1..][k].name != name;
      assert views[i + 1] == views[1..][i];
      m
  }

  /** Decimal digits of a natural number. */
  function Digits(n: nat): string
  {
    if n < 10 then [DigitChar(n)] else Digits(n / 10) + [DigitChar(n % 10)]
  }

  function DigitChar(d: nat): char
    requires d < 10
  {
    ['0', '1', '2', '3', '4', '5', '6', '7', '8', '9'][d]
  }

  /** `str` of an integer. */
  function IntText(n: int): string
  {
    if n < 0 then "-" + Digits(-n) else Digits(n)
  }

  /** `str` of a grade cell: an integer, or a float with its `.0` when the table is float. */
  function GradeText(g: int, floats: bool): string
  {
    if floats then IntText(g) + ".0" else IntText(g)
  }

  /** One question's section of the feedback: `'\n{0}\nGrade: {1}/{2}\nComments: {3}\n'`. */
  function Section(question: string, grade: int, floats: bool, maxGrade: int, comment: string): string
  {
    "\n" + question + "\nGrade: " + GradeText(grade, floats) + "/" + IntText(maxGrade) + ".0" + "\nComments: " + comment + "\n"
  }

  /** The texts joined end to end. */
  function Concat(texts: seq<string>): string
  {
    if texts == [] then "" else Concat(texts[..|texts| - 1]) + texts[|texts| - 1]
  }

  lemma {:induction false} ConcatAppend(left: seq<string>, right: seq<string>)
    ensures Concat(left + right) == Concat(left) + Concat(right)
  {
    if right == [] {
      assert left + right == left;
    } else {
      var both := left + right;
      assert both[..|both| - 1] == left + right[..|right| - 1];
      ConcatAppend(left, right[..|right| - 1]);
    }
  }

  lemma ConcatStep(texts: seq<string>, j: nat)
    requires j < |texts|
    ensures Concat(texts[..j + 1]) == Concat(texts[..j]) + texts[j]
  {
    assert texts[..j + 1][..j] == texts[..j];
  }

  /** One section per column, in column order, each reading its grade from the student's table line. */
  function Sections(views: seq<QuestionView>, es: seq<Entry>, s: int, columns: seq<string>, line: seq<int>, floats: bool): (texts: seq<string>)
    requires forall q :: q in columns ==> Named(views, q)
    requires |line| == |columns|
    ensures |texts| == |columns|
  {
    seq(|columns|, j requires 0 <= j < |columns| =>
      Section(columns[j], line[j], floats, MaxGradeOf(views, columns[j]), CommentCell(es, s, columns[j])))
  }

  /** A student's feedback: the sections of the columns, in column order. */
  function Feedback(views: seq<QuestionView>, es: seq<Entry>, s: int, columns: seq<string>, floats: bool): string
    requires forall q :: q in columns ==> Named(views, q)
  {
    Concat(Sections(views, es, s, columns, TableLine(es, s, columns), floats))
  }

  /** Sections over two runs of columns give the one run's text followed by the other's. */
  lemma FeedbackAppend(views: seq<QuestionView>, es: seq<Entry>, s: int, left: seq<string>, right: seq<string>,
                       leftLine: seq<int>, rightLine: seq<int>, floats: bool)
    requires forall q :: q in left ==> Named(views, q)
    requires forall q :: q in right ==> Named(views, q)
    requires |leftLine| == |left| && |rightLine| == |right|
    ensures forall q :: q in left + right ==> Named(views, q)
    ensures Concat(Sections(views, es, s, left + right, leftLine + rightLine, floats))
            == Concat(Sections(views, es, s, left, leftLine, floats)) + Concat(Sections(views, es, s, right, rightLine, floats))
  {
    var all := Sections(views, es, s, left + right, leftLine + rightLine, floats);
    var l, r := Sections(views, es, s, left, leftLine, floats), Sections(views, es, s, right, rightLine, floats);
    forall k | 0 <= k < |all| ensures all[k] == (l + r)[k] {
      if k < |left| {
        assert (left + right)[k] == left[k] && (leftLine + rightLine)[k] == leftLine[k];
      } else {
        assert (left + right)[k] == right[k - |left|] && (leftLine + rightLine)[k] == rightLine[k - |left|];
      }
    }
    assert all == l + r;
    ConcatAppend(l, r);
  }

  /** Every column's question is one of the assignment's questions. */
  lemma ColumnsAreNamed(views: seq<QuestionView>)
    ensures forall q :: q in Columns(Entries(views)) ==> Named(views, q)
  {
    forall q | q in Columns(Entries(views)) ensures Named(views, q) {
      var e :| e in Entries(views) && e.question == q;
      var i :| 0 <= i < |views| && e in ViewEntries(views[i], |views[i].batches|);
      var j :| 0 <= j < |views[i].batches| && e in BatchEntries(views[i].name, views[i].batches[j]);
    }
  }

  /** The line and feedback of one student. */
  function Row(views: seq<QuestionView>, es: seq<Entry>, s: int, columns: seq<string>, floats: bool): StudentRow
    requires forall q :: q in columns ==> Named(views, q)
  {
    StudentRow(s, TableLine(es, s, columns), Sum(GradeCells(es, s, columns)), Feedback(views, es, s, columns, floats))
  }

  /** The rows of the listed students, in the listed order. */
  function Rows(views: seq<QuestionView>, es: seq<Entry>, students: seq<int>, columns: seq<string>, floats: bool): (rows: seq<StudentRow>)
    requires forall q :: q in columns ==> Named(views, q)
    ensures |rows| == |students|
    ensures forall i :: 0 <= i < |students| ==> rows[i] == Row(views, es, students[i], columns, floats)
  {
    if students == [] then []
    else Rows(views, es, students[..|students| - 1], columns, floats) + [Row(views, es, students[|students| - 1], columns, floats)]
  }

  /** What `save_grades` writes: the grade table and the feedback texts, or the pivot's error. */
  function Export(views: seq<QuestionView>): (r: Result<Report, ExportError>)
    ensures r.Err? <==> Duplicated(Entries(views))
  {
    var es := Entries(views);
    if Duplicated(es) then Err(DuplicateEntries)
    else
      var columns := Columns(es);
      var students := Students(es);
      var floats := HasGap(es, students, columns);
      ColumnsAreNamed(views);
      Ok(Report(columns, floats, Rows(views, es, students, columns, floats)))
  }

  /** The header of the grade CSV: `Total` is appended unless a question column already has that name. */
  function Header(columns: seq<string>): seq<string>
  {
    if TotalColumn in columns then columns else columns + [TotalColumn]
  }

  /** One student's line of the grade CSV, cell for cell under `Header`. */
  function Line(columns: seq<string>, row: StudentRow): seq<int>
  {
    if TotalColumn in columns then row.grades else row.grades + [row.total]
  }

  /**
   * The exported rows are the students' rows, in pivot-index order, over the pivot columns,
   * and the table is float exactly when some pair is missing.
   */
  lemma ExportRows(views: seq<QuestionView>)
    requires !Duplicated(Entries(views))
    ensures var es := Entries(views);
            var report := Export(views).value;
            && report.columns == Columns(es)
            && report.floats == HasGap(es, Students(es), Columns(es))
            && |report.rows| == |Students(es)|
            && forall i :: 0 <= i < |report.rows| ==>
                 report.rows[i].studentId == Students(es)[i]
                 && report.rows[i].grades == TableLine(es, Students(es)[i], Columns(es))
                 && report.rows[i].total == Sum(GradeCells(es, Students(es)[i], Columns(es)))
  {
  }

  /**
   * Every exported `Total` is what the student's rows add up to, and every line has one
   * cell per column.
   */
  lemma ExportTotals(views: seq<QuestionView>)
    requires !Duplicated(Entries(views))
    ensures var es := Entries(views);
            var report := Export(views).value;
            forall i :: 0 <= i < |report.rows| ==>
              |report.rows[i].grades| == |report.columns|
              && report.rows[i].total == StudentTotal(es, report.rows[i].studentId)
  {
    var es := Entries(views);
    var report := Export(views).value;
    ExportRows(views);
    forall i | 0 <= i < |report.rows|
      ensures report.rows[i].total == StudentTotal(es, report.rows[i].studentId)
    {
      TotalMatchesEntries(es, Students(es)[i], Columns(es));
    }
  }

  /**
   * One CSV line under the header: the `Total` cell, whether appended or a question column
   * of that name, holds what the student's rows add up to; every other cell holds the
   * student's filled grade for that column.
   */
  lemma LineCells(es: seq<Entry>, s: int, columns: seq<string>, row: StudentRow)
    requires !Duplicated(es)
    requires Ascending(columns, StringLess)
    requires forall e :: e in es && e.studentId == s ==> e.question in columns
    requires row.grades == TableLine(es, s, columns) && row.total == Sum(GradeCells(es, s, columns))
    ensures |Line(columns, row)| == |Header(columns)|
    ensures forall k :: 0 <= k < |Header(columns)| ==>
              Line(columns, row)[k] == if Header(columns)[k] == TotalColumn then StudentTotal(es, s) else GradeCell(es, s, Header(columns)[k])
  {
    TotalMatchesEntries(es, s, columns);
    var header, line := Header(columns), Line(columns, row);
    forall k | 0 <= k < |header|
      ensures line[k] == if header[k] == TotalColumn then StudentTotal(es, s) else GradeCell(es, s, header[k])
    {
      if k < |columns| {
        assert header[k] == columns[k] && line[k] == row.grades[k];
      } else {
        assert TotalColumn !in columns && header[k] == TotalColumn && line[k] == row.total;
      }
    }
  }

  /** The grade CSV `save_grades` writes: one line per student, each with the cells `LineCells` states. */
  lemma CsvCells(views: seq<QuestionView>)
    requires !Duplicated(Entries(views))
    ensures var es := Entries(views);
            var report := Export(views).value;
            var header := Header(report.columns);
            forall i :: 0 <= i < |report.rows| ==>
              var line := Line(report.columns, report.rows[i]);
              && |line| == |header|
              && forall k :: 0 <= k < |header| ==>
                   line[k] == if header[k] == TotalColumn then StudentTotal(es, report.rows[i].studentId)
                              else GradeCell(es, report.rows[i].studentId, header[k])
  {
    var es := Entries(views);
    var report := Export(views).value;
    ExportRows(views);
    forall i | 0 <= i < |report.rows|
      ensures var line := Line(report.columns, report.rows[i]);
              && |line| == |Header(report.columns)|
              && forall k :: 0 <= k < |Header(report.columns)| ==>
                   line[k] == if Header(report.columns)[k] == TotalColumn then StudentTotal(es, report.rows[i].studentId)
                              else GradeCell(es, report.rows[i].studentId, Header(report.columns)[k])
    {
      LineCells(es, Students(es)[i], Columns(es), report.rows[i]);
    }
  }

  /**
   * The feedback section of a question named `Total` reads the overwritten cell: it prints
   * what the student's rows add up to, not the question's own grade.
   */
  lemma TotalSection(views: seq<QuestionView>, es: seq<Entry>, s: int, columns: seq<string>, k: nat, floats: bool)
    requires forall q :: q in columns ==> Named(views, q)
    requires !Duplicated(es)
    requires Ascending(columns, StringLess)
    requires forall e :: e in es && e.studentId == s ==> e.question in columns
    requires k < |columns| && columns[k] == TotalColumn
    ensures Sections(views, es, s, columns, TableLine(es, s, columns), floats)[k]
            == Section(TotalColumn, StudentTotal(es, s), floats, MaxGradeOf(views, TotalColumn), CommentCell(es, s, TotalColumn))
  {
    TotalMatchesEntries(es, s, columns);
  }

  /** The views of the assignment's questions, in the assignment's order. */
  function ViewsOf(questions: seq<Question>): (views: seq<QuestionView>)
    reads questions
    ensures |views| == |questions|
    ensures forall i :: 0 <= i < |questions| ==>
              views[i] == QuestionView(questions[i].name, questions[i].maxGrade, questions[i].batches)
  {
    seq(|questions|, i reads questions requires 0 <= i < |questions| =>
      QuestionView(questions[i].name, questions[i].maxGrade, questions[i].batches))
  }

  /** The questions' maximum grades, in the assignment's order. */
  function MaxGrades(questions: seq<Question>): (gs: seq<int>)
    ensures |gs| == |questions| && forall i :: 0 <= i < |questions| ==> gs[i] == questions[i].maxGrade
  {
    seq(|questions|, i requires 0 <= i < |questions| => questions[i].maxGrade)
  }

  /** With no negative value, the sum is at least every value and at least 0. */
  lemma {:induction false} SumBound(xs: seq<int>)
    requires forall i :: 0 <= i < |xs| ==> xs[i] >= 0
    ensures Sum(xs) >= 0
    ensures forall i :: 0 <= i < |xs| ==> xs[i] <= Sum(xs)
  {
    if xs != [] {
      SumBound(xs[..|xs| - 1]);
    }
  }

  /** Total points add up over a split of the questions. */
  lemma PointsAppend(left: seq<Question>, right: seq<Question>)
    ensures Sum(MaxGrades(left + right)) == Sum(MaxGrades(left)) + Sum(MaxGrades(right))
  {
    assert MaxGrades(left + right) == MaxGrades(left) + MaxGrades(right);
    SumAppend(MaxGrades(left), MaxGrades(right));
  }

  /** The inner loop of `save_grades`: one student's sections appended column by column, grades read from the table line. */
  method WriteFeedback(views: seq<QuestionView>, es: seq<Entry>, student: int, columns: seq<string>,
                       line: seq<int>, floats: bool) returns (feedback: string)
    requires forall q :: q in columns ==> Named(views, q)
    requires |line| == |columns|
    ensures feedback == Concat(Sections(views, es, student, columns, line, floats))
  {
    ghost var texts := Sections(views, es, student, columns, line, floats);
    feedback := "";
    var j := 0;
    while j < |columns|
      invariant 0 <= j <= |columns|
      invariant feedback == Concat(texts[..j])
    {
      ConcatStep(texts, j);
      var question := columns[j];
      var section := Section(question, line[j], floats, MaxGradeOf(views, question), CommentCell(es, student, question));
      assert section == texts[j];
      feedback := feedback + section;
      j := j + 1;
    }
    assert texts[..j] == texts;
  }

  /** The outer loop of `save_grades`: one row and one feedback text per student. */
  method WriteRows(views: seq<QuestionView>, es: seq<Entry>, students: seq<int>, columns: seq<string>, floats: bool)
    returns (rows: seq<StudentRow>)
    requires forall q :: q in columns ==> Named(views, q)
    ensures rows == Rows(views, es, students, columns, floats)
  {
    rows := [];
    var i := 0;
    while i < |students|
      invariant 0 <= i <= |students|
      invariant rows == Rows(views, es, students[..i], columns, floats)
    {
      assert students[..i + 1][..i] == students[..i];
      var student := students[i];
      var grades := GradeCells(es, student, columns);
      var line := TableLine(es, student, columns);
      var feedback := WriteFeedback(views, es, student, columns, line, floats);
      rows := rows + [StudentRow(student, line, Sum(grades), feedback)];
      i := i + 1;
    }
    assert students[..i] == students;
  }

  class Assignment {
    const id: int
    const name: string
    const questions: seq<Question>

    constructor (id: int, name: string, questions: seq<Question>)
      ensures this.id == id && this.name == name && this.questions == questions
    {
      this.id := id;
      this.name := name;
      this.questions := questions;
    }

    /** `Assignment.total_points`: the sum of the questions' maximum grades. */
    function TotalPoints(): (n: int)
      ensures (forall q :: q in questions ==> q.maxGrade >= 0) ==>
                n >= 0 && forall q :: q in questions ==> q.maxGrade <= n
    {
      var gs := MaxGrades(questions);
      assert (forall q :: q in questions ==> q.maxGrade >= 0) ==>
               Sum(gs) >= 0 && forall q :: q in questions ==> q.maxGrade <= Sum(gs) by {
        if forall q :: q in questions ==> q.maxGrade >= 0 {
          SumBound(gs);
          forall q | q in questions ensures q.maxGrade <= Sum(gs) {
            var i :| 0 <= i < |questions| && questions[i] == q;
          }
        }
      }
      Sum(gs)
    }

    /** `Assignment.save_grades`: the pivot, then the loop writing each student's feedback. */
    method SaveGrades() returns (result: Result<Report, ExportError>)
      ensures result == Export(ViewsOf(questions))
    {
      var views := ViewsOf(questions);
      var es := Entries(views);
      if Duplicated(es) {
        return Err(DuplicateEntries);
      }
      var columns := Columns(es);
      var students := Students(es);
      var floats := HasGap(es, students, columns);
      ColumnsAreNamed(views);
      var rows := WriteRows(views, es, students, columns, floats);
      result := Ok(Report(columns, floats, rows));
    }
  }
}
