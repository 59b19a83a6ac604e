/** The list of past semesters the student edits in detailed mode.

    Each row holds the raw text of an SGPA field and a credits field.  The three editing
    operations of the history card are pure functions from the old list to the new one.
 */
module History {

  /** The two fields of a semester row. */
  datatype Field = Sgpa | Credits

  /** One past semester as typed: SGPA text and credits text. */
  datatype SemesterRow = SemesterRow(sgpa: string, credits: string)

  /** The row the form creates for a new semester: both fields blank. */
  const EmptyRow: SemesterRow := SemesterRow("", "")

  function GetField(row: SemesterRow, field: Field): string
  {
    match field
    case Sgpa => row.sgpa
    case Credits => row.credits
  }

  function OtherField(field: Field): (other: Field)
    ensures other != field
  {
    match field
    case Sgpa => Credits
    case Credits => Sgpa
  }

  /** Object spread `{ ...row, [field]: value }`: replace one field, keep the other. */
  function SetField(row: SemesterRow, field: Field, value: string): (r: SemesterRow)
    ensures GetField(r, field) == value
    ensures GetField(r, OtherField(field)) == GetField(row, OtherField(field))
  {
    match field
    case Sgpa => row.(sgpa := value)
    case Credits => row.(credits := value)
  }

  /** "+ Add Semester": one blank row at the end, every earlier row untouched. */
  function AddSemester(rows: seq<SemesterRow>): (r: seq<SemesterRow>)
    ensures |r| == |rows| + 1
    ensures r[..|rows|] == rows
    ensures r[|rows|] == EmptyRow
  {
    rows + [EmptyRow]
  }

  /** `filter((_, i) => i !== index)`: the rows whose position differs from `index`,
      walking the list front to back. */
  function DropPosition(rows: seq<SemesterRow>, index: int): (r: seq<SemesterRow>)
    ensures 0 <= index < |rows| ==> r == rows[..index] + rows[index + 1..]
    ensures !(0 <= index < |rows|) ==> r == rows
    decreases |rows|
  {
    if |rows| == 0 then []
    else
      var rest := DropPosition(rows[1..], index - 1);
      if index == 0 then rest else [rows[0]] + rest
  }

  /** The remove button of a row: drop that row, but never leave the list empty; when the
      filtered list is empty a single blank row takes its place. */
  function RemoveSemester(rows: seq<SemesterRow>, index: int): (r: seq<SemesterRow>)
    ensures |r| >= 1
    ensures 0 <= index < |rows| && |rows| > 1 ==> r == rows[..index] + rows[index + 1..]
    ensures 0 <= index < |rows| && |rows| > 1 ==> |r| == |rows| - 1
    ensures |rows| == 1 && index == 0 ==> r == [EmptyRow]
    ensures |rows| > 0 && !(0 <= index < |rows|) ==> r == rows
    ensures |rows| == 0 ==> r == [EmptyRow]
  {
    var updated := DropPosition(rows, index);
    if |updated| > 0 then updated else [EmptyRow]
  }

  /** Typing into a field of row `index`: that one field of that one row changes. */
  function UpdateSemester(rows: seq<SemesterRow>, index: nat, field: Field, value: string): (r: seq<SemesterRow>)
    requires index < |rows|
    ensures |r| == |rows|
    ensures GetField(r[index], field) == value
    ensures GetField(r[index], OtherField(field)) == GetField(rows[index], OtherField(field))
    ensures forall j :: 0 <= j < |rows| && j != index ==> r[j] == rows[j]
  {
    rows[index := SetField(rows[index], field, value)]
  }

  /** Typing the same field twice keeps only the last value. */
  lemma UpdateOverwrites(rows: seq<SemesterRow>, index: nat, field: Field, v1: string, v2: string)
    requires index < |rows|
    ensures UpdateSemester(UpdateSemester(rows, index, field, v1), index, field, v2)
         == UpdateSemester(rows, index, field, v2)
  {
  }

  /** Writing back the value a field already holds changes nothing. */
  lemma UpdateWithSameValueIsIdentity(rows: seq<SemesterRow>, index: nat, field: Field)
    requires index < |rows|
    ensures UpdateSemester(rows, index, field, GetField(rows[index], field)) == rows
  {
    var r := UpdateSemester(rows, index, field, GetField(rows[index], field));
    assert r[index] == rows[index] by {
      assert GetField(r[index], field) == GetField(rows[index], field);
      assert GetField(r[index], OtherField(field)) == GetField(rows[index], OtherField(field));
      match field
      case Sgpa =>
      case Credits =>
    }
  }

  /** Adding a semester and then removing it restores a list of at least one row. */
  lemma RemoveUndoesAdd(rows: seq<SemesterRow>)
    requires |rows| >= 1
    ensures RemoveSemester(AddSemester(rows), |rows|) == rows
  {
    var added := AddSemester(rows);
    assert added[..|rows|] == rows;
  }
}
