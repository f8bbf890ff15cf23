/**
 * `Assignment.load_submissions`: one Submission per student folder and one Response per
 * file in it, committed student by student. Discovering the folders and files is left to
 * the caller, which passes them in the order they were found.
 */
module Loading {
  import opened Wrappers
  import opened Registry
  import opened Responses
  import opened Batches
  import opened Engine

  /** The per (assignment, student) record; the pair is its primary key. */
  datatype Submission = Submission(assignmentId: int, studentId: int, grade: int, feedback: string)

  datatype SubmittedFile = SubmittedFile(name: string, content: File)

  /** One student's folder: the student id its name gives and the files in it. */
  datatype StudentFolder = StudentFolder(studentId: int, files: seq<SubmittedFile>)

  /** The exceptions that abort the load. */
  datatype LoadError =
    | BadFileName(name: string)           // the name does not unpack into variable and extension
    | UnknownExtension(extension: string) // no Datatype row has the extension
    | DuplicateSubmission(studentId: int) // the Submission primary key is taken

  /** The rows a load touches, and the id the next Response row receives. */
  datatype Tables = Tables(students: set<int>, submissions: seq<Submission>, responses: seq<Response>, nextId: int)

  /** The Response row made for one file, or the reason the file cannot be loaded. */
  function ParseFile(registry: seq<Datatype>, assignmentId: int, studentId: int, id: int, f: SubmittedFile): (r: Result<Response, LoadError>)
    ensures r.Ok? ==> SplitFileName(f.name) == Some((r.value.varName, r.value.kind.extension))
                      && LookupExtension(registry, r.value.kind.extension) == Some(r.value.kind)
                      && r.value == Response(id, r.value.varName, studentId, r.value.kind, assignmentId, f.content)
    ensures r.Err? <==> SplitFileName(f.name).None? || LookupExtension(registry, SplitFileName(f.name).value.1).None?
  {
    match SplitFileName(f.name)
    case None => Err(BadFileName(f.name))
    case Some((varName, ext)) =>
      match LookupExtension(registry, ext)
      case None => Err(UnknownExtension(ext))
      case Some(kind) => Ok(Response(id, varName, studentId, kind, assignmentId, f.content))
  }

  /** Parsing the files of one student's folder, as a value the folder loop is run with: the id to give, then the file. */
  type FileParser = (int, SubmittedFile) -> Result<Response, LoadError>

  /** `ParseFile` for one assignment and one student. */
  function Parser(registry: seq<Datatype>, assignmentId: int, studentId: int): (parse: FileParser)
    ensures forall id, f :: parse(id, f) == ParseFile(registry, assignmentId, studentId, id, f)
  {
    (id: int, f: SubmittedFile) => ParseFile(registry, assignmentId, studentId, id, f)
  }

  /** The responses of one folder, numbered from `firstId` in file order, or the first file's error. */
  function FolderResponses(parse: FileParser, firstId: int, files: seq<SubmittedFile>): (r: Result<seq<Response>, LoadError>)
    ensures r.Ok? ==> |r.value| == |files|
  {
    if files == [] then Ok([])
    else
      var n := |files|;
      match FolderResponses(parse, firstId, files[..n - 1])
      case Err(e) => Err(e)
      case Ok(prev) =>
        match parse(firstId + n - 1, files[n - 1])
        case Err(e) => Err(e)
        case Ok(r) => Ok(prev + [r])
  }

  /** A folder read without error holds, at each position, the row its file parses into with its own id. */
  lemma {:induction false} FolderRowsParse(parse: FileParser, firstId: int, files: seq<SubmittedFile>)
    requires FolderResponses(parse, firstId, files).Ok?
    ensures var rs := FolderResponses(parse, firstId, files).value;
            forall k :: 0 <= k < |files| ==> parse(firstId + k, files[k]) == Ok(rs[k])
  {
    if files != [] {
      var n := |files|;
      var front := files[..n - 1];
      FolderRowsParse(parse, firstId, front);
      var rs := FolderResponses(parse, firstId, files).value;
      var prev := FolderResponses(parse, firstId, front).value;
      forall k | 0 <= k < n - 1 ensures parse(firstId + k, files[k]) == Ok(rs[k]) {
        assert files[k] == front[k] && rs[k] == prev[k];
      }
    }
  }

  /** A folder fails to load exactly when one of its files does not parse. */
  lemma {:induction false} FolderFails(parse: FileParser, firstId: int, files: seq<SubmittedFile>)
    ensures FolderResponses(parse, firstId, files).Err?
        <==> exists k :: 0 <= k < |files| && parse(firstId + k, files[k]).Err?
  {
    if files != [] {
      var n := |files|;
      var front := files[..n - 1];
      FolderFails(parse, firstId, front);
      if FolderResponses(parse, firstId, front).Err? {
        var k :| 0 <= k < |front| && parse(firstId + k, front[k]).Err?;
        assert files[k] == front[k];
      } else {
        forall k | 0 <= k < n - 1 ensures parse(firstId + k, files[k]).Ok? {
          assert files[k] == front[k];
        }
      }
    }
  }

  predicate HasSubmission(submissions: seq<Submission>, assignmentId: int, studentId: int)
  {
    exists s :: s in submissions && s.assignmentId == assignmentId && s.studentId == studentId
  }

  /**
   * Whether the session flushes the pending Submission before any file can fail: the first
   * flush is the autoflush of the first extension lookup, which is reached when the first
   * file's name splits, or the commit of a folder without files.
   */
  predicate FlushesFirst(files: seq<SubmittedFile>)
  {
    files == [] || SplitFileName(files[0].name).Some?
  }

  /**
   * One iteration of the loop over student folders, up to and including its commit. A taken
   * Submission key raises at the first flush, so it wins over every file error except the
   * first file's name failing to split.
   */
  function LoadFolder(registry: seq<Datatype>, assignmentId: int, t: Tables, folder: StudentFolder): Result<Tables, LoadError>
  {
    var taken := HasSubmission(t.submissions, assignmentId, folder.studentId);
    if taken && FlushesFirst(folder.files) then Err(DuplicateSubmission(folder.studentId))
    else
      var rs :- FolderResponses(Parser(registry, assignmentId, folder.studentId), t.nextId, folder.files);
      if taken then Err(DuplicateSubmission(folder.studentId))
      else Ok(Tables(t.students + {folder.studentId},
                     t.submissions + [Submission(assignmentId, folder.studentId, 0, "")],
                     t.responses + rs, t.nextId + |rs|))
  }

  /** The outcome of a load: the committed rows and the error that stopped it, if any. */
  datatype Loaded = Loaded(tables: Tables, failure: Option<LoadError>)

  /** The loop over the folders: every folder before a failing one stays committed. */
  function Load(registry: seq<Datatype>, assignmentId: int, t: Tables, folders: seq<StudentFolder>): Loaded
  {
    if folders == [] then Loaded(t, None)
    else
      var prev := Load(registry, assignmentId, t, folders[..|folders| - 1]);
      if prev.failure.Some? then prev
      else
        match LoadFolder(registry, assignmentId, prev.tables, folders[|folders| - 1])
        case Err(e) => Loaded(prev.tables, Some(e))
        case Ok(t') => Loaded(t', None)
  }

  /** Response ids ascend and stay below the next id to be handed out. */
  ghost predicate Fresh(t: Tables)
  {
    IdsAscending(t.responses) && forall r :: r in t.responses ==> r.id < t.nextId
  }

  /** The rows of a folder read without error: consecutive ids from `firstId`, this student's, in file order. */
  lemma FolderRows(registry: seq<Datatype>, assignmentId: int, studentId: int, firstId: int, files: seq<SubmittedFile>)
    requires FolderResponses(Parser(registry, assignmentId, studentId), firstId, files).Ok?
    ensures var rs := FolderResponses(Parser(registry, assignmentId, studentId), firstId, files).value;
            && |rs| == |files|
            && forall k :: 0 <= k < |rs| ==>
                 rs[k].id == firstId + k && rs[k].studentId == studentId && rs[k].assignmentId == assignmentId
                 && rs[k].file == files[k].content
  {
    var parse := Parser(registry, assignmentId, studentId);
    var rs := FolderResponses(parse, firstId, files).value;
    FolderRowsParse(parse, firstId, files);
    forall k | 0 <= k < |rs|
      ensures rs[k].id == firstId + k && rs[k].studentId == studentId && rs[k].assignmentId == assignmentId
              && rs[k].file == files[k].content
    {
      assert ParseFile(registry, assignmentId, studentId, firstId + k, files[k]) == Ok(rs[k]);
    }
  }

  /** Appending rows numbered consecutively from the next id keeps the ids fresh. */
  lemma AppendKeepsFresh(rows: seq<Response>, nextId: int, rs: seq<Response>)
    requires IdsAscending(rows) && forall r :: r in rows ==> r.id < nextId
    requires forall k :: 0 <= k < |rs| ==> rs[k].id == nextId + k
    ensures IdsAscending(rows + rs) && forall r :: r in rows + rs ==> r.id < nextId + |rs|
  {
    var all := rows + rs;
    forall i, j | 0 <= i < j < |all| ensures all[i].id < all[j].id {
      if i < |rows| {
        assert all[i] in rows;
      }
    }
    forall r | r in all ensures r.id < nextId + |rs| {
      var i :| 0 <= i < |all| && all[i] == r;
      if i < |rows| { assert rows[i] in rows; }
    }
  }

  /** A committed folder appends responses with the next ids, in file order, for this student and assignment. */
  lemma LoadFolderAppends(registry: seq<Datatype>, assignmentId: int, t: Tables, folder: StudentFolder)
    requires Fresh(t)
    requires LoadFolder(registry, assignmentId, t, folder).Ok?
    ensures var t' := LoadFolder(registry, assignmentId, t, folder).value;
            && Fresh(t')
            && t'.responses[..|t.responses|] == t.responses
            && |t'.responses| == |t.responses| + |folder.files|
            && t'.nextId == t.nextId + |folder.files|
            && forall k :: |t.responses| <= k < |t'.responses| ==>
                 t'.responses[k].studentId == folder.studentId && t'.responses[k].assignmentId == assignmentId
                 && t'.responses[k].file == folder.files[k - |t.responses|].content
  {
    var rs := FolderResponses(Parser(registry, assignmentId, folder.studentId), t.nextId, folder.files).value;
    FolderRows(registry, assignmentId, folder.studentId, t.nextId, folder.files);
    AppendKeepsFresh(t.responses, t.nextId, rs);
    var all := t.responses + rs;
    assert all[..|t.responses|] == t.responses;
    forall k | |t.responses| <= k < |all| ensures all[k] == rs[k - |t.responses|] {
    }
  }

  /** A load, whether it completes or stops, keeps response ids fresh and only appends rows. */
  lemma {:induction false} LoadKeepsFresh(registry: seq<Datatype>, assignmentId: int, t: Tables, folders: seq<StudentFolder>)
    requires Fresh(t)
    ensures Fresh(Load(registry, assignmentId, t, folders).tables)
    ensures |t.responses| <= |Load(registry, assignmentId, t, folders).tables.responses|
    ensures Load(registry, assignmentId, t, folders).tables.responses[..|t.responses|] == t.responses
  {
    if folders != [] {
      var prev := Load(registry, assignmentId, t, folders[..|folders| - 1]);
      LoadKeepsFresh(registry, assignmentId, t, folders[..|folders| - 1]);
      if prev.failure.None? && LoadFolder(registry, assignmentId, prev.tables, folders[|folders| - 1]).Ok? {
        LoadFolderAppends(registry, assignmentId, prev.tables, folders[|folders| - 1]);
        var t' := LoadFolder(registry, assignmentId, prev.tables, folders[|folders| - 1]).value;
        assert t'.responses[..|t.responses|] == t'.responses[..|prev.tables.responses|][..|t.responses|];
      }
    }
  }

  /**
   * Responses loaded this way are batched once each: a completed rebuild of any question
   * links every response it fetches from the table to exactly one batch.
   */
  lemma LoadedResponsesBatchOnce(qid: int, cmp: Comparison, t: Tables, assignmentId: int, varName: string)
    requires Fresh(t)
    requires Build(qid, cmp, [], Fetch(t.responses, assignmentId, varName)).failure.None?
    ensures var rs := Fetch(t.responses, assignmentId, varName);
            var bs := Build(qid, cmp, [], rs).batches;
            && (forall r :: r in rs ==> exists i :: 0 <= i < |bs| && r in bs[i].members
                                                   && forall j :: 0 <= j < |bs| && j != i ==> r !in bs[j].members)
            && CountResponses(bs) == |rs|
  {
    FetchKeepsOrder(t.responses, assignmentId, varName);
    RebuildPartitions(qid, cmp, Fetch(t.responses, assignmentId, varName));
  }

  /** The Student, Submission and Response tables. */
  class Store {
    const registry: seq<Datatype>
    var students: set<int>
    var submissions: seq<Submission>
    var responses: seq<Response>
    var nextId: int

    constructor (registry: seq<Datatype>)
      ensures this.registry == registry
      ensures students == {} && submissions == [] && responses == [] && nextId == 1
    {
      this.registry := registry;
      students, submissions, responses, nextId := {}, [], [], 1;
    }

    function Snapshot(): Tables
      reads this
    {
      Tables(students, submissions, responses, nextId)
    }

    /** The inner loop of `load_submissions`: one pending Response per file of a folder, parsed with `parse`. */
    method ReadFolder(parse: FileParser, files: seq<SubmittedFile>) returns (pending: Result<seq<Response>, LoadError>)
      ensures pending == FolderResponses(parse, nextId, files)
    {
      var rows: seq<Response> := [];
      var k := 0;
      while k < |files|
        invariant 0 <= k <= |files|
        invariant FolderResponses(parse, nextId, files[..k]) == Ok(rows)
      {
        var parsed := parse(nextId + k, files[k]);
        FolderStep(parse, nextId, files, k, rows, parsed);
        if parsed.Err? {
          return Err(parsed.error);
        }
        rows := rows + [parsed.value];
        k := k + 1;
      }
      assert files[..k] == files;
      pending := Ok(rows);
    }

    /** `Assignment.load_submissions` for the folders found under the assignment's directory. */
    method LoadSubmissions(assignmentId: int, folders: seq<StudentFolder>) returns (failure: Option<LoadError>)
      modifies this
      ensures Load(registry, assignmentId, old(Snapshot()), folders) == Loaded(Snapshot(), failure)
    {
      var n := 0;
      while n < |folders|
        invariant 0 <= n <= |folders|
        invariant Load(registry, assignmentId, old(Snapshot()), folders[..n]) == Loaded(Snapshot(), None)
      {
        var folder := folders[n];
        ghost var before := Snapshot();
        var taken := HasSubmission(submissions, assignmentId, folder.studentId);
        if taken && FlushesFirst(folder.files) {
          failure := Some(DuplicateSubmission(folder.studentId));
          LoadFault(registry, assignmentId, old(Snapshot()), folders, n, before);
          return;
        }
        var pending := ReadFolder(Parser(registry, assignmentId, folder.studentId), folder.files);
        FolderOutcome(registry, assignmentId, before, folder, pending);
        if pending.Err? {
          failure := Some(pending.error);
          LoadFault(registry, assignmentId, old(Snapshot()), folders, n, before);
          return;
        }
        students := students + {folder.studentId};
        submissions := submissions + [Submission(assignmentId, folder.studentId, 0, "")];
        responses := responses + pending.value;
        nextId := nextId + |pending.value|;
        LoadStep(registry, assignmentId, old(Snapshot()), folders, n, before);
        n := n + 1;
      }
      assert folders[..n] == folders;
      failure := None;
    }
  }

  /**
   * How one folder ends: a taken Submission key raises once the first lookup flushes it;
   * when the first file's name does not split, that error comes first; otherwise the first
   * file error, or the committed rows.
   */
  lemma FolderOutcome(registry: seq<Datatype>, assignmentId: int, t: Tables, folder: StudentFolder,
                      pending: Result<seq<Response>, LoadError>)
    requires pending == FolderResponses(Parser(registry, assignmentId, folder.studentId), t.nextId, folder.files)
    ensures HasSubmission(t.submissions, assignmentId, folder.studentId) && FlushesFirst(folder.files) ==>
              LoadFolder(registry, assignmentId, t, folder) == Err(DuplicateSubmission(folder.studentId))
    ensures !FlushesFirst(folder.files) ==> pending == Err(BadFileName(folder.files[0].name))
    ensures !(HasSubmission(t.submissions, assignmentId, folder.studentId) && FlushesFirst(folder.files)) && pending.Err? ==>
              LoadFolder(registry, assignmentId, t, folder) == Err(pending.error)
    ensures pending.Ok? ==> FlushesFirst(folder.files)
    ensures pending.Ok? && !HasSubmission(t.submissions, assignmentId, folder.studentId) ==>
              LoadFolder(registry, assignmentId, t, folder)
              == Ok(Tables(t.students + {folder.studentId},
                           t.submissions + [Submission(assignmentId, folder.studentId, 0, "")],
                           t.responses + pending.value, t.nextId + |pending.value|))
  {
    if !FlushesFirst(folder.files) {
      var files := folder.files;
      var parse := Parser(registry, assignmentId, folder.studentId);
      assert files[..1][..0] == [] && files[..1][0] == files[0];
      assert FolderResponses(parse, t.nextId, files[..1]) == Err(BadFileName(files[0].name));
      FolderStopsAtError(parse, t.nextId, files, 1);
    }
  }

  /**
   * `get_fullfile` finds the file a loaded response came from: `var_name + '.' + extension`
   * is the listed name again, so compare reads the file the folder listing found.
   */
  lemma ParsedNameIsListedName(registry: seq<Datatype>, assignmentId: int, studentId: int, id: int, f: SubmittedFile)
    requires ParseFile(registry, assignmentId, studentId, id, f).Ok?
    ensures var r := ParseFile(registry, assignmentId, studentId, id, f).value;
            r.varName + "." + r.kind.extension == f.name && r.studentId == studentId && r.file == f.content
  {
  }

  lemma LoadStep(registry: seq<Datatype>, assignmentId: int, t: Tables, folders: seq<StudentFolder>, n: nat, before: Tables)
    requires n < |folders|
    requires Load(registry, assignmentId, t, folders[..n]) == Loaded(before, None)
    requires LoadFolder(registry, assignmentId, before, folders[n]).Ok?
    ensures Load(registry, assignmentId, t, folders[..n + 1]) == Loaded(LoadFolder(registry, assignmentId, before, folders[n]).value, None)
  {
    assert folders[..n + 1][..n] == folders[..n];
  }

  lemma LoadFault(registry: seq<Datatype>, assignmentId: int, t: Tables, folders: seq<StudentFolder>, n: nat, before: Tables)
    requires n < |folders|
    requires Load(registry, assignmentId, t, folders[..n]) == Loaded(before, None)
    requires LoadFolder(registry, assignmentId, before, folders[n]).Err?
    ensures Load(registry, assignmentId, t, folders) == Loaded(before, Some(LoadFolder(registry, assignmentId, before, folders[n]).error))
  {
    assert folders[..n + 1][..n] == folders[..n];
    LoadStopsAtError(registry, assignmentId, t, folders, n + 1);
  }

  /** Reading one more file of a folder: an error ends the folder, a row extends it. */
  lemma FolderStep(parse: FileParser, firstId: int, files: seq<SubmittedFile>, k: nat,
                   rows: seq<Response>, parsed: Result<Response, LoadError>)
    requires k < |files|
    requires FolderResponses(parse, firstId, files[..k]) == Ok(rows)
    requires parsed == parse(firstId + k, files[k])
    ensures parsed.Err? ==> FolderResponses(parse, firstId, files) == Err(parsed.error)
    ensures parsed.Ok? ==> FolderResponses(parse, firstId, files[..k + 1]) == Ok(rows + [parsed.value])
  {
    assert files[..k + 1][..k] == files[..k];
    if parsed.Err? {
      FolderStopsAtError(parse, firstId, files, k + 1);
    }
  }

  lemma {:induction false} FolderStopsAtError(parse: FileParser, firstId: int, files: seq<SubmittedFile>, k: nat)
    requires k <= |files|
    requires FolderResponses(parse, firstId, files[..k]).Err?
    ensures FolderResponses(parse, firstId, files) == FolderResponses(parse, firstId, files[..k])
  {
    if k < |files| {
      assert files[..|files| - 1][..k] == files[..k];
      FolderStopsAtError(parse, firstId, files[..|files| - 1], k);
    } else {
      assert files[..k] == files;
    }
  }

  lemma {:induction false} LoadStopsAtError(registry: seq<Datatype>, assignmentId: int, t: Tables, folders: seq<StudentFolder>, k: nat)
    requires k <= |folders|
    requires Load(registry, assignmentId, t, folders[..k]).failure.Some?
    ensures Load(registry, assignmentId, t, folders) == Load(registry, assignmentId, t, folders[..k])
  {
    if k < |folders| {
      assert folders[..|folders| - 1][..k] == folders[..k];
      LoadStopsAtError(registry, assignmentId, t, folders[..|folders| - 1], k);
    } else {
      assert folders[..k] == folders;
    }
  }
}
