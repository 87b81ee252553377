/**
  Work items as they come out of the CSV reader, the four issue tiers, and
  the intake filter that numbers the rows and drops the ones without a type.
*/
module WorkItems {
  import opened Wrappers
  import opened Text

  /** One parsed CSV row: column header to cell text. A column the row
      does not have is absent from the map. */
  datatype RawRow = RawRow(fields: map<string, string>)

  /** A kept row, tagged with its 1-based position among all rows read. */
  datatype WorkItem = WorkItem(id: nat, fields: map<string, string>)

  /** The issue tiers, in the order they are imported. */
  datatype Tier = Epic | Story | Task | SubTask {

    /** The issue-type name sent to the tracker. */
    function Name(): (r: string) {
      match this
      case Epic => "Epic"
      case Story => "Story"
      case Task => "Task"
      case SubTask => "Sub-task"
    }

    /** Position in the import order. */
    function Rank(): (r: nat) {
      match this
      case Epic => 0
      case Story => 1
      case Task => 2
      case SubTask => 3
    }
  }

  const TypeColumn: string := "Work Item Type"

  /** A dictionary lookup with a default for an absent column. */
  function Get(fields: map<string, string>, column: string, default: string): (r: string) {
    if column in fields then fields[column] else default
  }

  /** A row is kept when its type cell exists and is not blank, that is when
      stripping it leaves something (see `Text.StripIsInfix`). */
  predicate HasType(row: RawRow) {
    TypeColumn in row.fields && !AllSpace(row.fields[TypeColumn])
  }

  /** Classifies a type cell: stripped and lower-cased, it must read
      `epic`, `story`, `task`, `sub-task` or `subtask`. */
  function Classify(cell: string): (r: Option<Tier>) {
    var t := Lower(Strip(cell));
    if t == "epic" then Some(Epic)
    else if t == "story" then Some(Story)
    else if t == "task" then Some(Task)
    else if t == "sub-task" || t == "subtask" then Some(SubTask)
    else None
  }

  /** A recognised type cell is never blank, so a row whose type is
      recognised always passes the intake filter. */
  lemma ClassifiedNotBlank(cell: string)
    ensures Classify(cell).Some? ==> !AllSpace(cell)
  {
    StripIsInfix(cell);
  }

  function KindOf(item: WorkItem): (r: Option<Tier>) {
    Classify(Get(item.fields, TypeColumn, ""))
  }

  /** The tier name given to the tracker classifies back to the same tier,
      whatever case and surrounding whitespace a cell uses. */
  lemma ClassifyName(t: Tier)
    ensures Classify(t.Name()) == Some(t)
    ensures Classify(" " + t.Name() + "\t") == Some(t)
  {
    NameTrimmed(t);
    StripPadded(t.Name());
    NameClassifies(t);
    ClassifyStripped(" " + t.Name() + "\t");
  }

  /** Only the stripped cell matters to the classification. */
  lemma ClassifyStripped(cell: string)
    ensures Classify(cell) == Classify(Strip(cell))
  {
    StripIdempotent(cell);
  }

  lemma NameTrimmed(t: Tier)
    ensures t.Name() != [] && NoSpaceAtEnds(t.Name())
  {
  }

  lemma NameClassifies(t: Tier)
    ensures Classify(t.Name()) == Some(t)
  {
    NameTrimmed(t);
    StripKeeps(t.Name());
    match t
    case Epic => assert Lower("Epic") == "epic";
    case Story => assert Lower("Story") == "story";
    case Task => assert Lower("Task") == "task";
    case SubTask => assert Lower("Sub-task") == "sub-task";
  }

  /** The sub-task tier is also accepted without its hyphen, in any case. */
  lemma ClassifyUnhyphenated()
    ensures Classify("SubTask") == Some(SubTask)
  {
    StripKeeps("SubTask");
    assert Lower("SubTask") == "subtask";
  }

  /** A type with a space in place of the hyphen is not recognised. */
  lemma ClassifyRejectsSpaced()
    ensures Classify("Sub task") == None
  {
    StripKeeps("Sub task");
    LowerSpec("Sub task");
    assert Lower("Sub task")[3] == ' ';
  }

  predicate IdsIncreasing(items: seq<WorkItem>) {
    forall i, j :: 0 <= i < j < |items| ==> items[i].id < items[j].id
  }

  function Ids(items: seq<WorkItem>): (r: set<nat>) {
    set k | 0 <= k < |items| :: items[k].id
  }

  /** The rows kept by the reader: each row is numbered by its 1-based
      position first, and then dropped when its type cell is missing or blank. */
  function Intake(rows: seq<RawRow>): (items: seq<WorkItem>)
    ensures |items| <= |rows|
    ensures IdsIncreasing(items)
    ensures forall k :: 0 <= k < |items| ==> 1 <= items[k].id <= |rows|
  {
    if rows == [] then []
    else
      var n := |rows|;
      var kept := Intake(rows[..n - 1]);
      if HasType(rows[n - 1]) then kept + [WorkItem(n, rows[n - 1].fields)] else kept
  }

  /** Each kept item carries the cells of the row at its position, and that
      row has a type. */
  lemma {:induction false} IntakeCarriesRow(rows: seq<RawRow>)
    ensures forall k :: 0 <= k < |Intake(rows)| ==>
              && Intake(rows)[k].fields == rows[Intake(rows)[k].id - 1].fields
              && HasType(rows[Intake(rows)[k].id - 1])
  {
    if rows != [] {
      var n := |rows|;
      var prefix := rows[..n - 1];
      IntakeCarriesRow(prefix);
      var kept := Intake(prefix);
      var items := Intake(rows);
      forall k | 0 <= k < |items|
        ensures items[k].fields == rows[items[k].id - 1].fields && HasType(rows[items[k].id - 1])
      {
        if k < |kept| {
          assert items[k] == kept[k];
          assert rows[kept[k].id - 1] == prefix[kept[k].id - 1];
        }
      }
    }
  }

  /** A row's position is among the kept ids exactly when the row has a type. */
  lemma {:induction false} IntakeKeepsTyped(rows: seq<RawRow>)
    ensures forall p :: 0 <= p < |rows| ==> (HasType(rows[p]) <==> p + 1 in Ids(Intake(rows)))
  {
    if rows != [] {
      var n := |rows|;
      var prefix := rows[..n - 1];
      IntakeKeepsTyped(prefix);
      var kept := Intake(prefix);
      var items := Intake(rows);
      if HasType(rows[n - 1]) {
        IdsSnoc(kept, WorkItem(n, rows[n - 1].fields));
      }
      forall p | 0 <= p < n
        ensures HasType(rows[p]) <==> p + 1 in Ids(items)
      {
        if p < n - 1 {
          assert rows[p] == prefix[p];
        }
      }
    }
  }

  /** Appending an item adds its id. */
  lemma IdsSnoc(items: seq<WorkItem>, x: WorkItem)
    ensures Ids(items + [x]) == Ids(items) + {x.id}
  {
    var s := items + [x];
    forall y ensures y in Ids(s) <==> y in Ids(items) + {x.id} {
      if y in Ids(s) {
        var k :| 0 <= k < |s| && s[k].id == y;
        if k < |items| { assert items[k] == s[k]; }
      }
      if y in Ids(items) {
        var k :| 0 <= k < |items| && items[k].id == y;
        assert s[k] == items[k];
      }
      if y == x.id { assert s[|items|] == x; }
    }
  }
}
