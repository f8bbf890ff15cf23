# mbgrader batching engine, in Dafny

mbgrader grades student submissions by batching equal answers together. For each
question, the instructor then assigns one grade and one comment per batch instead of per
student. This project models the core of that system and proves properties of the model:

- `Batch.compare` decides whether two responses are equivalent. It short-circuits on the
  datatype, decodes the files the way `Response.get_data` does, and runs the question's preprocessing
  transform under a single `try`. It then compares text and symbolic values exactly, and
  numeric values by shape and `np.allclose`.
- `Question.create_batches` scans the existing batches for every fetched response, joins
  the response to the last batch that matches, or founds a new batch whose representative
  is the response. It then records the membership link. `Question.delete_batches`, and the
  route that deletes and then creates, complete the rebuild.
- `Assignment.load_submissions` turns student folders into Submission and Response rows. It
  splits each file name at its one dot and resolves the extension in the Datatype table
  (`numeric`/`csv`, `text`/`txt`, `symbolic`/`sym`).
- `Assignment.save_grades` pivots the (student, question, grade, comments) rows into a grade
  table. Missing pairs get 0 and a placeholder comment, and the row sums are assigned to a
  `Total` column. It also writes one feedback text per student, with one section per question. `Assignment.total_points` adds up the
  maximum grades.

The project is organised as follows:

- `wrappers.dfy` holds `Option` and `Result`.
- `registry.dfy` holds the Datatype table and the file-name split.
- `responses.dfy` holds Response rows and `get_data`.
- `batches.dfy` holds Batch rows and `compare`.
- `engine.dfy` holds the batching engine: specification functions `Scan`, `Place` and `Build`,
  their invariants, and `class Question`, whose methods update its `batches` field in place.
- `loading.dfy` holds `class Store`, the Student, Submission and Response tables, and
  `load_submissions`.
- `ordering.dfy` holds the sort order of the pivot's index and columns.
- `export.dfy` holds the pivot, the feedback and `class Assignment`.
- `scenarios.dfy` holds worked runs on small inputs.

The engine functions take the comparison as a value of type `Comparison`. `Comparer(q)` is
`compare` under question `q`'s settings. The folder loop of `load_submissions` takes its
file parser the same way, as a `FileParser`, and `Parser` builds it from the Datatype table.
`Batch.total_responses` and `Batch.get_data` are `BatchSize` and `BatchData`. What they
promise is stated by `CountResponses`, `PlaceGrowsOneBatch` and `BuildKeepsRepresentatives`.

The model keeps these behaviours of the code, which are easy to misread:

- **Tie-break.** The inner loop of `create_batches` (app/__init__.py:219-223) keeps
  scanning after a match (`continue`, not `break`), so a response joins the LAST matching
  batch (`ScanFindsLastMatch`, `Scenarios.LastMatchWins`).
- **Tolerance.** `np.allclose` (app/__init__.py:281) tests `abs(a - b) <= atol + 1e-5 * abs(b)`,
  where `b` is the response's element. Closeness is therefore wider than the tolerance
  and not symmetric (`RelativeSlack`, `CloseIsAsymmetric`).
- **Transform failure.** One `try` covers both transform calls (app/__init__.py:271-276).
  If the call on the batch side raises, the response keeps its transformed value and
  only the batch side stays raw (`PreprocessFailOpen`).
- **Decode failures.** A missing file, a malformed numeric file, a batch without members,
  and `.shape` of a non-array are not caught (`Fault`). They end `create_batches`, and
  every link committed before them stays (`BuildFailure`, `BuildStopsAtFault`).
- **Fetch order.** The query has no `ORDER BY` (app/__init__.py:216), so the model fetches
  in table order. `load_submissions` hands out ascending ids (`LoadKeepsFresh`), and
  fetching keeps that order (`FetchKeepsOrder`).
- **Duplicate submissions.** The pending Submission row is flushed by the first extension
  lookup (app/__init__.py:133), or by the commit of a folder without files. A taken
  (assignment, student) key therefore raises before any file error, unless the first
  file's name does not split (`FlushesFirst`, `FolderOutcome`).
- **A question named `Total`.** Line 167 assigns the row sums to the column `Total`. When a
  question has that name, its column is replaced by the sums (which include its own
  grades), no column is appended, and its feedback section (line 177) reports the sum
  (`LineCells`, `TotalSection`, `Scenarios.TotalQuestionOverwritten`).
- **Float grades.** `pivot` fills a missing (student, question) pair with NaN, which makes
  the whole grade table float. Every grade in the feedback then prints with `.0`
  (`HasGap`, `GradeText`).

## Model

| member | source | states |
|---|---|---|
| Registry.LookupExtension | app/__init__.py:133 | `filter_by(extension=ext).first()`: none exactly when no row has the extension, otherwise the first row that has it |
| Registry.SeededExtensions | init_db.py:6-8 | the seeded table resolves csv, txt and sym to numeric, text and symbolic, and no other extension |
| Registry.SplitFileName | app/__init__.py:132 | a successful split gives two dot-free parts that rejoin with a dot into the name |
| Registry.SplitJoin | app/__init__.py:132 | a name built from a dot-free variable and a dot-free extension splits back into them |
| Registry.SplitRefuses | app/__init__.py:132 | the unpacking fails exactly when the name has no dot or has two or more |
| Responses.Unwrap | app/__init__.py:333-335 | a 1x1 matrix becomes a 0-dimensional value; otherwise the shape is rows x cols, with the cells unchanged and the size matching the element count |
| Responses.GetData | app/__init__.py:329-340 | a missing file raises; non-numeric kinds read the text; numeric kinds parse, raise on malformed content, and unwrap |
| Batches.KindMismatch | app/__init__.py:266-267 | different datatype ids give "not equal" before any file is read |
| Batches.Compare | app/__init__.py:265-283 | a datatype mismatch is "not equal"; with one datatype, a failing read of the response, else of the batch, raises that fault; a match needs a known datatype name; any other fault is a numeric value without a shape |
| Batches.Preprocess | app/__init__.py:270-276 | each side is either raw or the transform's successful result, and the batch side is transformed only when the response side was |
| Batches.Equivalent | app/__init__.py:277-283 | text and symbolic values match exactly when equal; numeric arrays match exactly when the shapes are equal and the values pass `AllClose`; only a numeric comparison of non-arrays raises; other names never match |
| Batches.CompareAfterTransform | app/__init__.py:268-283 | under any transform, once both files decode, the comparison is equality of the preprocessed text values, or equal shapes and `np.allclose` of the preprocessed arrays, raising when one is not an array |
| Batches.CompareSeesRepresentative | app/__init__.py:265-292 | only the datatype and the first member of a batch decide a comparison |
| Batches.ComparerKeepsRepresentative | app/__init__.py:291-292 | adding a member to a batch changes no later comparison with it |
| Batches.TextExactMatch | app/__init__.py:278-279 | without a transform, text and symbolic responses match exactly when their contents are equal |
| Batches.NumericMatch | app/__init__.py:280-281 | without a transform, numeric responses match exactly when the shapes are equal and every element pair is close |
| Batches.UnknownKindNeverMatches | app/__init__.py:282-283 | any other datatype name never matches, whatever the transform does |
| Batches.PreprocessFailOpen | app/__init__.py:270-276 | `Preprocess`, exactly: no transform, the response call raises, the batch call raises, both succeed |
| Batches.WithinToleranceIsClose | app/__init__.py:281 | `Close` and `AllClose`: every element pair within the absolute tolerance is close |
| Batches.RelativeSlack | app/__init__.py:281 | `Close` accepts a difference larger than the tolerance through the relative term of `np.allclose` |
| Batches.CloseIsAsymmetric | app/__init__.py:281 | `Close` depends on which side is the response |
| Batches.TextRepresentativeMatchesItself | app/__init__.py:265-279 | a text or symbolic representative matches itself under any transform |
| Batches.NumericRepresentativeMatchesItself | app/__init__.py:265-281 | without a transform and with a tolerance of at least 0, a numeric representative matches itself |
| Engine.Fetch | app/__init__.py:216 | the fetched responses are exactly the table's rows for the assignment and the variable |
| Engine.FetchKeepsOrder | app/__init__.py:216 | fetching keeps ascending ids ascending |
| Engine.Scan | app/__init__.py:218-223 | the inner loop's answer: the first raised fault; otherwise none exactly when nothing matched, or else a matching batch with no match after it |
| Engine.ScanFindsLastMatch | app/__init__.py:219-223 | when every comparison returns, the scan picks the last batch that matches |
| Engine.ScanStopsAtFault | app/__init__.py:220 | a raised comparison ends the scan with that fault |
| Engine.PlaceOutcome | app/__init__.py:217-230 | `Place`, one outer iteration: it raises exactly when a comparison raises; otherwise it founds a new batch exactly when nothing matched, or else joins a matching batch with no match after it |
| Engine.PlaceFound | app/__init__.py:224-230 | the placement that the inner loop's answer leads to: `NewBatch` appended, or the found batch extended by the response |
| Engine.BuildStep | app/__init__.py:217-230 | `Build`, the outer loop: one more response placed without a fault extends the run |
| Engine.BuildFault | app/__init__.py:217-230 | a raising placement ends the run with the batches committed so far |
| Engine.BuildStopsAtFault | app/__init__.py:217-230 | after a fault, later responses change nothing |
| Engine.BuildFailure | app/__init__.py:217-230 | a run that stops has batched exactly the responses before the one whose comparison raised |
| Engine.CountResponses | app/__init__.py:236-237 | the sum of the batch sizes equals the number of links, counted through the batch members |
| Engine.BatchWithinQuestion | app/__init__.py:236-237 | no batch has more links than its question |
| Engine.PlaceGrowsOneBatch | app/__init__.py:285-286 | `total_responses` under one placement: a new batch has one link, or exactly one batch gains one; the other batches are unchanged and the question gains one |
| Engine.PlaceKeepsRepresentatives | app/__init__.py:224-230 | one placement keeps every batch's first member, and every batch has members |
| Engine.BuildKeepsRepresentatives | app/__init__.py:291-292 | a run keeps every earlier batch's first member, so `get_data` of each batch keeps returning the same data, and every batch has members |
| Engine.FlattenJoin | app/__init__.py:228-230 | recording a link adds exactly that response to the members |
| Engine.MemberCount | app/__init__.py:236-237 | a response occurs among all members at least as often as in any one batch |
| Engine.UniqueBatch | app/__init__.py:228-230 | a response that occurs once among the members belongs to exactly one batch |
| Engine.CoherentFound | app/__init__.py:224-227 | a new batch for a response unequal to every batch keeps the batch invariant |
| Engine.CoherentJoined | app/__init__.py:219-230 | joining a batch whose representative matched keeps the batch invariant |
| Engine.PlaceKeepsCoherent | app/__init__.py:217-230 | one placement keeps the batch invariant, and keeps batches ungraded with no comments |
| Engine.BuildInvariant | app/__init__.py:208-231 | a run keeps the batch invariant: every member matched its representative, and every representative was unequal to all earlier batches |
| Engine.PlaceLinksOnce | app/__init__.py:224-230 | one placement adds the placed response to the members, once |
| Engine.BuildLinksAll | app/__init__.py:217-230 | a completed run adds exactly the fetched responses to the members, as a multiset |
| Engine.RebuildPartitions | app/__init__.py:203-231 | after a completed rebuild, each fetched response is in exactly one batch, every member was fetched, and the link count equals the number of responses |
| Engine.OccursOnce | app/__init__.py:216 | with ascending ids, each fetched response occurs once |
| Engine.TextRepresentativesDiffer | app/__init__.py:219-279 | without a transform, no two text representatives of one datatype have the same contents |
| Engine.Question.TotalResponses | app/__init__.py:236-237 | the question's link count is the number of batch members |
| Engine.Question.DeleteBatches | app/__init__.py:203-206 | no batch, and hence no link, is left |
| Engine.Question.FindBatch | app/__init__.py:218-223 | the loop returns the scan's answer |
| Engine.Question.Join | app/__init__.py:224-230 | the new batches are the placement of the response |
| Engine.Question.CreateBatches | app/__init__.py:208-231 | the new batches and the fault are those of the run over the fetched responses, from the batches held before |
| Engine.Question.Rebuild | app/__init__.py:89-90 | delete then create gives the run from no batches, and that run is coherent and ungraded |
| Loading.ParseFile | app/__init__.py:132-134 | a file loads exactly when its name splits and its extension is in the table; the row carries the file's variable, kind, ids and content |
| Loading.ParsedNameIsListedName | app/__init__.py:326-327 | `get_fullfile` rebuilds the listed file name from the response's variable and extension, in the student's folder |
| Loading.FolderResponses | app/__init__.py:131-135 | a folder that loads gives one row per file |
| Loading.FolderRowsParse | app/__init__.py:131-135 | each row is what its file parses into, with consecutive ids |
| Loading.FolderFails | app/__init__.py:131-135 | a folder fails exactly when one of its files fails to parse |
| Loading.FolderRows | app/__init__.py:130-135 | the rows of a folder carry consecutive ids from the next id, the folder's student, the assignment, and the files' contents in order |
| Loading.FolderStep | app/__init__.py:131-135 | one more file either ends the folder with its error or extends the rows |
| Loading.FolderStopsAtError | app/__init__.py:132-133 | after the first failing file, later files change nothing |
| Loading.AppendKeepsFresh | app/__init__.py:134-136 | appending rows numbered from the next id keeps ids ascending and below the next id |
| Loading.LoadFolderAppends | app/__init__.py:123-136 | a committed folder keeps the earlier rows and appends one row per file for this student and assignment |
| Loading.LoadKeepsFresh | app/__init__.py:121-136 | a load, whether it completes or stops, only appends rows and keeps response ids ascending |
| Loading.LoadedResponsesBatchOnce | app/__init__.py:121-136 | loaded responses are each batched exactly once by a completed rebuild |
| Loading.FolderOutcome | app/__init__.py:128-136 | `LoadFolder`: a taken Submission key raises when the first lookup or the commit flushes it; a first file name that does not split raises first; otherwise the first file error, or the committed rows |
| Loading.LoadStep | app/__init__.py:123-136 | `Load`, the loop over folders: one more committed folder extends the load |
| Loading.LoadFault | app/__init__.py:123-136 | a failing folder ends the load with the folders before it committed |
| Loading.LoadStopsAtError | app/__init__.py:123-136 | after a failing folder, later folders change nothing |
| Loading.Store.ReadFolder | app/__init__.py:130-135 | the inner loop returns the folder's rows or its first file error |
| Loading.Store.LoadSubmissions | app/__init__.py:121-136 | the new tables and the error are those of the load over the folders, from the tables held before |
| Ordering.Insert | app/__init__.py:166 | inserting keeps a sequence ascending and adds exactly the one value |
| Ordering.Sorted | app/__init__.py:166 | the pivot listing is ascending and holds exactly the distinct values |
| Ordering.AscendingUnique | app/__init__.py:166 | two ascending sequences with the same values are equal, so the listing is unique |
| Ordering.IntOrder | app/__init__.py:166 | student ids are ordered by a strict total order |
| Ordering.StringLessIrreflexive | app/__init__.py:166 | no question name sorts before itself |
| Ordering.StringLessTransitive | app/__init__.py:166 | the name order is transitive |
| Ordering.StringLessTotal | app/__init__.py:166 | any two different names are ordered |
| Ordering.StringOrder | app/__init__.py:166 | the code-point order of names is a strict total order |
| Export.BatchEntries | app/__init__.py:157-164 | a batch gives exactly one row per member, each carrying that member's student and the batch's grade and comments |
| Export.ViewEntries | app/__init__.py:157-164 | a question's rows are those of its batches, as many as its links |
| Export.Entries | app/__init__.py:157-164 | the assignment's rows are those of its questions, as many as their links together |
| Export.EntriesAreLinks | app/__init__.py:157-164 | a row exists exactly when some member of a batch of a question gives it |
| Export.Students | app/__init__.py:166 | the pivot index holds every student with a row, ascending, once each |
| Export.Columns | app/__init__.py:166 | the pivot columns hold every question with a row, in string order, once each |
| Export.Lookup | app/__init__.py:166-170 | the pair's row if there is one |
| Export.GradeCell | app/__init__.py:166 | `fillna(0)`: 0 without a row, otherwise that row's grade |
| Export.CommentCell | app/__init__.py:170 | the placeholder without a row, otherwise that row's comments |
| Export.CellsOfPresentPair | app/__init__.py:166-170 | with no duplicate pair, a present pair's cells are its one row's grade and comments |
| Export.SumAppend | app/__init__.py:167 | `Sum`, the row sum, adds up over a split of the cells |
| Export.SumUpdate | app/__init__.py:167 | changing one cell changes the sum by the difference |
| Export.OtherStudentCells | app/__init__.py:166 | another student's row leaves this student's cells alone |
| Export.SameStudentCells | app/__init__.py:166 | this student's row for a new question fills that cell with its grade |
| Export.TotalMatchesEntries | app/__init__.py:166-167 | the row sum of the filled cells equals `StudentTotal`, the sum of the grades of the student's rows |
| Export.MaxGradeOf | app/__init__.py:178 | the maximum grade of the first question with that name |
| Export.ConcatAppend | app/__init__.py:174-179 | joining texts adds up over a split |
| Export.Sections | app/__init__.py:175-179 | one feedback section per column |
| Export.FeedbackAppend | app/__init__.py:174-179 | `Section` texts over two runs of columns join into one run's text followed by the other's |
| Export.ColumnsAreNamed | app/__init__.py:175-178 | every column names a question of the assignment, so its maximum grade lookup succeeds |
| Export.Rows | app/__init__.py:171-179 | one line per listed student, in the listed order |
| Export.Export | app/__init__.py:166-170 | the pivot raises exactly when a (student, question) pair occurs twice (`Duplicated`) |
| Export.ExportRows | app/__init__.py:166-171 | `Row` for each student: the lines follow the pivot index over the pivot columns, each with its table line and row sum, and the table is float exactly when some pair is missing |
| Export.ExportTotals | app/__init__.py:166-167 | every exported `Total` is what the student's rows add up to, with one grade per column |
| Export.LineCells | app/__init__.py:167-168 | one grade CSV line under its header: the `Total` cell, appended or replacing a question column of that name, holds the student's total; every other cell the filled grade |
| Export.CsvCells | app/__init__.py:166-168 | every line of the grade CSV has the cells `LineCells` states |
| Export.TotalSection | app/__init__.py:174-179 | the feedback section of a question named `Total` prints the student's total, not the question's own grade |
| Export.SumBound | app/__init__.py:140 | with no negative value, the sum is at least 0 and at least every value |
| Export.PointsAppend | app/__init__.py:138-140 | total points add up over a split of the questions |
| Export.WriteFeedback | app/__init__.py:174-179 | the inner loop's text is the sections of the columns, each reading its grade from the student's table line, which holds the row sum under a question named `Total` |
| Export.WriteRows | app/__init__.py:171-181 | the outer loop gives the students' lines, each with its table line, row sum and feedback |
| Export.Assignment.TotalPoints | app/__init__.py:138-140 | the sum of the questions' maximum grades (`MaxGrades`): with non-negative maximum grades, at least 0 and at least every question's maximum grade |
| Export.Assignment.SaveGrades | app/__init__.py:148-181 | the result is the export of the assignment's questions, read through `ViewsOf`, with a question named `Total` overwritten by the row sum |
| Scenarios.TwoRepresentatives | app/__init__.py:219-227 | 0 and 0.0015 under tolerance 0.001 found two batches |
| Scenarios.JoinsLaterBatch | app/__init__.py:219-230 | 0.0008 matches both representatives and joins the later batch |
| Scenarios.LastMatchWins | app/__init__.py:217-230 | the run over 0, 0.0015, 0.0008 ends with two batches, the second holding the last two |
| Scenarios.ToleranceAndShape | app/__init__.py:217-230 | [1.0, 2.0] and [1.0005, 2.0] batch together; the scalar 5.0 founds its own batch |
| Scenarios.CaseSensitiveText | app/__init__.py:278-279 | "foo" and "Foo" found two batches |
| Scenarios.FailingTransformDoesNotAbort | app/__init__.py:270-279 | a transform that raises on "abc" does not stop the run; "01" and "1" normalise to one batch |
| Scenarios.TotalQuestionOverwritten | app/__init__.py:166-179 | with 3 points for Q1 and 2 for a question Total, the table line is 3, 5 under the header Q1, Total, and the feedback reports 5 for Total |
| Scenarios.TotalSectionText | app/__init__.py:178 | the section format gives the text "Grade: 5/10.0" for that case |
| Scenarios.GradedCells | app/__init__.py:166-167 | the filled cells of that case are 3 and 2, and they add up to 5 |
| Scenarios.GradedMaxGrade | app/__init__.py:178 | the maximum grade lookup of that case finds 10 for Total |

## Left out

- Flask routes, JSON rendering, `to_dict`, and the ORM session: the model keeps the tables
  as fields and the operations as methods on them. Only the route that deletes and then
  creates batches (app/__init__.py:89-90) is modelled, as `Question.Rebuild`.
- The file system: `glob`, `open`, `np.loadtxt`, and writing CSV and feedback files. A
  response carries its file as the text and the parsed matrix those calls would return,
  and the folders reach `LoadSubmissions` as values. The removal of old feedback files,
  the creation of the folders, and writing and deleting `app/preprocessing.py` are left out.
- Floating point: numeric values are exact reals, so NaN, infinities and rounding are not
  modelled. The tolerance is a real number.
- The dynamic import of the transform: a transform is a function value, and a call that
  raises is `None`. A transform that returns a non-array value for a numeric question
  raises `NoShape`. numpy's elementwise `==` on transformed non-string values is not
  modelled; text values compare as strings.
- Batch and link ids, and the BatchResponse table: a batch's links are its `members`, in
  link order, and the representative is the first member.
- Export.Section: numbers are printed through `IntText`, with `.0` for floats. Python prints
  a float of 1e16 or more in exponent form; such grades and maximum grades are not
  modelled.
- Export.Entries: rows are produced question by question and batch by batch. The order of
  `read_sql` rows is not modelled, and it matters only through `Lookup`, which is used
  only when there is no duplicate pair.
- Loading.LoadSubmissions: `int()` of the folder name is done by the caller, and the
  Student row's insertion is modelled as adding the id to a set.
- Loading.ParseFile: a response keeps the content its file had when the folder was listed.
  Both the listing (app/__init__.py:130) and `get_fullfile` (app/__init__.py:327) use
  the folder `str(student_id)`. So a folder named `07` is listed and read as folder `7`, and
  the caller passes the files of that folder. Changes to the files after loading are not modelled.
- Engine.Question.CreateBatches: the final `os.remove` of `app/preprocessing.py`
  (app/__init__.py:231) is not modelled. It runs unconditionally, so when the question has
  no preprocessing and no earlier run left the file, it raises `FileNotFoundError` after
  every link has been committed.
- Batches.Preprocess: the `print('Preprocessing failed ... ')` in the `except` branch
  (app/__init__.py:275) is console logging and is not modelled; only its fail-open effect is.
- Null grades and comments: a batch's grade is an integer and its comments a string.
- `Assignment.total_submissions`, `total_questions` and `Question.total_batches` are
  counters outside the batching core and are not modelled. Of `Response.get_fullfile`, only
  the rebuilt file name is modelled (`ParsedNameIsListedName`); `Batch.get_fullfile` is not
  modelled.
- Concurrency: two rebuilds of the same question at once are not modelled.
