/**
 * The Datatype table: the logical value types a response file can hold, and how a
 * submitted file name is split into the variable it answers and its extension.
 */
module Registry {
  import opened Wrappers

  /** One row of the Datatype table. */
  datatype Datatype = Datatype(id: int, name: string, extension: string)

  /** The rows seeded when the database is created, with the ids their insertion order gives them. */
  const Seeded: seq<Datatype> :=
    [Datatype(1, "numeric", "csv"), Datatype(2, "text", "txt"), Datatype(3, "symbolic", "sym")]

  /** `Datatype.query.filter_by(extension=ext).first()`: the first row with that extension. */
  function LookupExtension(registry: seq<Datatype>, ext: string): (r: Option<Datatype>)
    ensures r.None? <==> forall i :: 0 <= i < |registry| ==> registry[i].extension != ext
    ensures r.Some? ==> exists i :: 0 <= i < |registry| && registry[i] == r.value
                                   && r.value.extension == ext
                                   && forall j :: 0 <= j < i ==> registry[j].extension != ext
  {
    if |registry| == 0 then None
    else if registry[0].extension == ext then Some(registry[0])
    else
      var r := LookupExtension(registry[1..], ext);
      assert r.Some? ==> exists i :: 0 <= i < |registry[1..]| && registry[1..][i] == r.value
                                   && forall j :: 0 <= j < i ==> registry[1..][j].extension != ext;
      r
  }

  /** The seeded registry resolves exactly the three known extensions. */
  lemma SeededExtensions(ext: string)
    ensures LookupExtension(Seeded, "csv") == Some(Datatype(1, "numeric", "csv"))
    ensures LookupExtension(Seeded, "txt") == Some(Datatype(2, "text", "txt"))
    ensures LookupExtension(Seeded, "sym") == Some(Datatype(3, "symbolic", "sym"))
    ensures ext !in {"csv", "txt", "sym"} <==> LookupExtension(Seeded, ext).None?
  {
  }

  /** The index of the first `c` in `s`, or `|s|` when there is none. */
  function IndexOf(s: string, c: char): (k: nat)
    ensures k <= |s|
    ensures k < |s| ==> s[k] == c
    ensures forall j :: 0 <= j < k ==> s[j] != c
  {
    if |s| == 0 then 0
    else if s[0] == c then 0
    else 1 + IndexOf(s[1..], c)
  }

  /**
   * `var_name, extension = response_file.split('.')`: the unpacking succeeds only when
   * the name holds exactly one dot.
   */
  function SplitFileName(fileName: string): (r: Option<(string, string)>)
    ensures r.Some? ==> fileName == r.value.0 + "." + r.value.1
                        && '.' !in r.value.0 && '.' !in r.value.1
  {
    var k := IndexOf(fileName, '.');
    if k == |fileName| then None
    else if '.' in fileName[k + 1..] then None
    else
      assert fileName == fileName[..k] + "." + fileName[k + 1..];
      Some((fileName[..k], fileName[k + 1..]))
  }

  /** Splitting a name built from a dot-free variable and extension gives them back. */
  lemma SplitJoin(varName: string, ext: string)
    requires '.' !in varName && '.' !in ext
    ensures SplitFileName(varName + "." + ext) == Some((varName, ext))
  {
    var f := varName + "." + ext;
    assert f[..|varName|] == varName;
    assert f[|varName| + 1..] == ext;
    assert forall j :: 0 <= j < |varName| ==> f[j] == varName[j];
    IndexOfFirst(f, '.', |varName|);
  }

  lemma IndexOfFirst(s: string, c: char, k: nat)
    requires k < |s| && s[k] == c && forall j :: 0 <= j < k ==> s[j] != c
    ensures IndexOf(s, c) == k
  {
  }

  /** A name is refused exactly when it has no dot or more than one. */
  lemma {:induction false} SplitRefuses(fileName: string)
    ensures SplitFileName(fileName).None? <==>
            ('.' !in fileName || exists i, j :: 0 <= i < j < |fileName| && fileName[i] == '.' && fileName[j] == '.')
  {
    var k := IndexOf(fileName, '.');
    if k < |fileName| && '.' in fileName[k + 1..] {
      var j :| 0 <= j < |fileName[k + 1..]| && fileName[k + 1..][j] == '.';
      assert fileName[k + 1 + j] == '.';
    }
    if exists i, j :: 0 <= i < j < |fileName| && fileName[i] == '.' && fileName[j] == '.' {
      var i, j :| 0 <= i < j < |fileName| && fileName[i] == '.' && fileName[j] == '.';
      assert fileName[k + 1..][j - k - 1] == '.';
    }
  }
}
