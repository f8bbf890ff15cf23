/**
 * Responses and what `Response.get_data` decodes from their files. Reading a file is
 * abstracted: a file is described by the text `open().read()` returns and by the matrix
 * `np.loadtxt(..., delimiter=',', ndmin=2)` parses from it (absent when it does not parse).
 */
module Responses {
  import opened Wrappers
  import opened Registry

  /** A parsed comma-separated matrix, `rows` by `cols`, its cells in row-major order. */
  datatype Table = Table(rows: nat, cols: nat, cells: seq<real>)

  /** A response file as the two readers see it; `Missing` when there is no such file. */
  datatype File = Missing | File(text: string, table: Option<Table>)

  /** A decoded value: a string, or an array given by its shape and its elements in order. */
  datatype Data = Text(s: string) | Array(shape: seq<nat>, flat: seq<real>)

  /** The exceptions that leave `get_data` and `Batch.compare` unhandled. */
  datatype Fault =
    | FileNotFound       // open() or np.loadtxt on a file that is not there
    | MalformedNumeric   // np.loadtxt could not parse the file
    | EmptyBatch         // batch_responses[0] on a batch without members
    | NoShape            // `.shape` of a value that is not an array

  /** One submitted value for one (assignment, variable, student), with its Datatype row joined as `kind`. */
  datatype Response = Response(id: int, varName: string, studentId: int, kind: Datatype,
                               assignmentId: int, file: File)

  predicate WellFormed(t: Table) { |t.cells| == t.rows * t.cols }

  /** The number of elements an array of this shape holds. */
  function Size(shape: seq<nat>): nat
  {
    if shape == [] then 1 else shape[0] * Size(shape[1..])
  }

  /** The "one element is a scalar" rule: a 1-by-1 result becomes a 0-dimensional value. */
  function Unwrap(t: Table): (d: Data)
    ensures d.Array? && d.flat == t.cells
    ensures d.shape == [] <==> |t.cells| == 1
    ensures |t.cells| != 1 ==> d.shape == [t.rows, t.cols]
    ensures WellFormed(t) ==> Size(d.shape) == |d.flat|
  {
    if |t.cells| == 1 then Array([], t.cells)
    else
      assert [t.rows, t.cols][1..] == [t.cols] && [t.cols][1..] == [];
      assert Size([t.cols]) == t.cols * Size([]) == t.cols;
      assert Size([t.rows, t.cols]) == t.rows * t.cols;
      Array([t.rows, t.cols], t.cells)
  }

  /** `Response.get_data`: numeric files are parsed and unwrapped, every other kind is read as text. */
  function GetData(r: Response): (d: Result<Data, Fault>)
    ensures r.file.Missing? ==> d == Err(FileNotFound)
    ensures r.file.File? && r.kind.name != "numeric" ==> d == Ok(Text(r.file.text))
    ensures r.file.File? && r.kind.name == "numeric" ==>
              (d.Ok? <==> r.file.table.Some?)
              && (d.Err? ==> d.error == MalformedNumeric)
              && (d.Ok? ==> d.value == Unwrap(r.file.table.value))
  {
    match r.file
    case Missing => Err(FileNotFound)
    case File(text, table) =>
      if r.kind.name == "numeric" then
        match table
        case None => Err(MalformedNumeric)
        case Some(t) => Ok(Unwrap(t))
      else Ok(Text(text))
  }
}
