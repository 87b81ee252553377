/**
  Small concrete runs worked out end to end: an epic, story and sub-task
  chain; a story with no epic; a sub-task with no story or task; and an
  epic whose creation fails.
*/
module Scenarios {
  import opened Wrappers
  import opened Text
  import opened WorkItems
  import opened Hierarchy
  import opened IssueFields
  import opened Importing
  import opened ImportRun

  const Project: string := "P"

  /** A row with a type and a title and nothing else. */
  function Row(kind: string, title: string): (r: RawRow) {
    RawRow(map[TypeColumn := kind, "Title" := title])
  }

  /** A tracker that answers every row not in `failing` with the key `P-<row id>`
      (for ids up to 9) and fails the rows in `failing`. */
  function Tracker(failing: set<nat>): (r: Request -> Option<Key>) {
    (r: Request) => if r.rowId in failing then None else Some(KeyFor(r.rowId))
  }

  function KeyFor(id: nat): (r: Key) {
    "P-" + [(48 + id % 10) as char]
  }

  // ---------------------------------------------------------------------
  // Rows that all have a recognised type

  /** The row's type cell names tier `t` (for instance `t.Name()`, see
      `WorkItems.ClassifyName`). */
  predicate OfKind(row: RawRow, t: Tier) {
    TypeColumn in row.fields && Classify(row.fields[TypeColumn]) == Some(t)
  }

  /** A row whose type cell is a tier's name, bare or padded with
      whitespace, is of that tier. */
  lemma RowOfKind(t: Tier, title: string)
    ensures OfKind(Row(t.Name(), title), t)
    ensures OfKind(Row(" " + t.Name() + "\t", title), t)
  {
    ClassifyName(t);
  }

  lemma OfKindItem(row: RawRow, t: Tier, id: nat)
    requires OfKind(row, t)
    ensures HasType(row)
    ensures KindOf(WorkItem(id, row.fields)) == Some(t)
  {
    ClassifiedNotBlank(row.fields[TypeColumn]);
  }

  /** With every row typed, the kept items are all the rows, numbered from 1. */
  lemma {:induction false} IntakeAllTyped(rows: seq<RawRow>)
    requires forall k :: 0 <= k < |rows| ==> HasType(rows[k])
    ensures |Intake(rows)| == |rows|
    ensures forall k :: 0 <= k < |rows| ==> Intake(rows)[k] == WorkItem(k + 1, rows[k].fields)
  {
    if rows != [] {
      var n := |rows| - 1;
      IntakeAllTyped(rows[..n]);
      forall k | 0 <= k < n ensures Intake(rows)[k] == WorkItem(k + 1, rows[k].fields) {
        assert rows[..n][k] == rows[k];
      }
    }
  }

  // ---------------------------------------------------------------------
  // Epic, story, sub-task

  lemma ChainItems(e: RawRow, s: RawRow, t: RawRow)
    requires OfKind(e, Epic) && OfKind(s, Story) && OfKind(t, SubTask)
    ensures Intake([e, s, t]) == [WorkItem(1, e.fields), WorkItem(2, s.fields), WorkItem(3, t.fields)]
    ensures KindOf(Intake([e, s, t])[0]) == Some(Epic)
    ensures KindOf(Intake([e, s, t])[1]) == Some(Story)
    ensures KindOf(Intake([e, s, t])[2]) == Some(SubTask)
  {
    OfKindItem(e, Epic, 1);
    OfKindItem(s, Story, 2);
    OfKindItem(t, SubTask, 3);
    IntakeAllTyped([e, s, t]);
  }

  lemma ChainOrganized(e: RawRow, s: RawRow, t: RawRow)
    requires OfKind(e, Epic) && OfKind(s, Story) && OfKind(t, SubTask)
    ensures var x, y, z := WorkItem(1, e.fields), WorkItem(2, s.fields), WorkItem(3, t.fields);
            && Organize(Intake([e, s, t])).groups == Groups([x], [y], [], [z])
            && Organize(Intake([e, s, t])).links == map[2 := 1, 3 := 2]
  {
    var items := Intake([e, s, t]);
    ChainItems(e, s, t);
    assert items[..2][..1] == items[..1];
    assert items[..3][..2] == items[..2];
    assert items[..1][..0] == [];
    assert Organize(items[..1]) == Scan(Some(1), None, Groups([items[0]], [], [], []), map[]);
    assert Organize(items[..2]) == Scan(Some(1), Some(2), Groups([items[0]], [items[1]], [], []), map[2 := 1]);
    assert items[..3] == items;
  }

  /** A tier with one row is that row's attempt. */
  lemma OneRowTier(tier: Tier, x: WorkItem, links: map<nat, nat>, created: map<nat, Key>,
                   create: Request -> Option<Key>)
    ensures TierEvents(Project, tier, [x], links, created, create)
            == [Attempt(Project, tier, x, links, created, create)]
  {
    assert [x][..0] == [];
  }

  /** Against the test tracker, a row that is not skipped is created under
      `P-<id>` unless it is one of the failing rows. */
  lemma TrackerAttempt(tier: Tier, x: WorkItem, links: map<nat, nat>, created: map<nat, Key>,
                       failing: set<nat>)
    requires tier != SubTask || Present(ParentKey(links, created, x.id))
    ensures var a := Attempt(Project, tier, x, links, created, Tracker(failing));
            && !a.Skipped?
            && a.request.issueType == tier
            && a.request.parent == ParentField(tier, if tier == Epic then None else ParentKey(links, created, x.id))
            && (x.id in failing ==> a.Failed?)
            && (x.id !in failing ==> a.Created? && a.key == KeyFor(x.id))
  {
    AttemptFacts(Project, tier, x, links, created, Tracker(failing));
  }

  lemma KeyExamples()
    ensures KeyFor(1) == "P-1" && KeyFor(2) == "P-2" && KeyFor(3) == "P-3"
  {
  }

  const ChainLinks: map<nat, nat> := map[2 := 1, 3 := 2]

  /** The one row of a tier with one row is created as the tracker says. */
  lemma CreatedAlone(tier: Tier, x: WorkItem, links: map<nat, nat>, created: map<nat, Key>)
    requires tier != SubTask || Present(ParentKey(links, created, x.id))
    ensures var t := TierEvents(Project, tier, [x], links, created, Tracker({}));
            && |t| == 1 && t[0].Created? && t[0].request.issueType == tier && t[0].key == KeyFor(x.id)
            && t[0].request.parent == ParentField(tier, if tier == Epic then None else ParentKey(links, created, x.id))
            && Replay(created, t) == created[x.id := KeyFor(x.id)]
  {
    OneRowTier(tier, x, links, created, Tracker({}));
    TrackerAttempt(tier, x, links, created, {});
    var t := TierEvents(Project, tier, [x], links, created, Tracker({}));
    assert t[..0] == [];
  }

  /** A map with one or two created keys, for the chain. */
  const C1: map<nat, Key> := map[1 := KeyFor(1)]
  const C2: map<nat, Key> := map[1 := KeyFor(1), 2 := KeyFor(2)]

  /** The import of the chain's groups: one tier after the other, each
      against the keys the earlier ones created. */
  lemma ChainImport(x: WorkItem, y: WorkItem, z: WorkItem)
    requires x.id == 1 && y.id == 2 && z.id == 3
    ensures ImportAll(Project, Groups([x], [y], [], [z]), ChainLinks, map[], Tracker({}))
            == TierEvents(Project, Epic, [x], ChainLinks, map[], Tracker({}))
             + TierEvents(Project, Story, [y], ChainLinks, C1, Tracker({}))
             + TierEvents(Project, SubTask, [z], ChainLinks, C2, Tracker({}))
  {
    var create := Tracker({});
    CreatedAlone(Epic, x, ChainLinks, map[]);
    assert ParentKey(ChainLinks, C1, 2) == Some(KeyFor(1));
    CreatedAlone(Story, y, ChainLinks, C1);
    assert C1[2 := KeyFor(2)] == C2;
    var tasks := TierEvents(Project, Task, [], ChainLinks, C2, create);
    assert tasks == [];
    assert Replay(C2, tasks) == C2;
    var epics := TierEvents(Project, Epic, [x], ChainLinks, map[], create);
    var stories := TierEvents(Project, Story, [y], ChainLinks, C1, create);
    assert epics + stories + tasks == epics + stories;
  }

  lemma ChainRun(e: RawRow, s: RawRow, t: RawRow)
    requires OfKind(e, Epic) && OfKind(s, Story) && OfKind(t, SubTask)
    ensures Run(Project, [e, s, t], Tracker({}))
            == ImportAll(Project, Groups([WorkItem(1, e.fields)], [WorkItem(2, s.fields)], [], [WorkItem(3, t.fields)]),
                         ChainLinks, map[], Tracker({}))
  {
    ChainOrganized(e, s, t);
  }

  /** The epic is created first with no parent, the story second
      under the epic's key, and the sub-task third under the story's key. */
  lemma ChainScenario(e: RawRow, s: RawRow, t: RawRow)
    requires OfKind(e, Epic) && OfKind(s, Story) && OfKind(t, SubTask)
    ensures var trace := Run(Project, [e, s, t], Tracker({}));
            && |trace| == 3
            && trace[0].Created? && trace[0].request.issueType == Epic
            && trace[0].request.parent == None && trace[0].key == "P-1"
            && trace[1].Created? && trace[1].request.issueType == Story
            && trace[1].request.parent == Some("P-1") && trace[1].key == "P-2"
            && trace[2].Created? && trace[2].request.issueType == SubTask
            && trace[2].request.parent == Some("P-2") && trace[2].key == "P-3"
  {
    var x, y, z := WorkItem(1, e.fields), WorkItem(2, s.fields), WorkItem(3, t.fields);
    ChainRun(e, s, t);
    ChainImport(x, y, z);
    ChainEvents(x, y, z);
    KeyExamples();
  }

  lemma ChainEvents(x: WorkItem, y: WorkItem, z: WorkItem)
    requires x.id == 1 && y.id == 2 && z.id == 3
    ensures var trace := TierEvents(Project, Epic, [x], ChainLinks, map[], Tracker({}))
                       + TierEvents(Project, Story, [y], ChainLinks, C1, Tracker({}))
                       + TierEvents(Project, SubTask, [z], ChainLinks, C2, Tracker({}));
            && |trace| == 3
            && trace[0].Created? && trace[0].request.issueType == Epic
            && trace[0].request.parent == None && trace[0].key == KeyFor(1)
            && trace[1].Created? && trace[1].request.issueType == Story
            && trace[1].request.parent == Some(KeyFor(1)) && trace[1].key == KeyFor(2)
            && trace[2].Created? && trace[2].request.issueType == SubTask
            && trace[2].request.parent == Some(KeyFor(2)) && trace[2].key == KeyFor(3)
  {
    CreatedAlone(Epic, x, ChainLinks, map[]);
    assert ParentKey(ChainLinks, C1, 2) == Some(KeyFor(1));
    CreatedAlone(Story, y, ChainLinks, C1);
    assert ParentKey(ChainLinks, C2, 3) == Some(KeyFor(2));
    CreatedAlone(SubTask, z, ChainLinks, C2);
  }

  // ---------------------------------------------------------------------
  // One row alone

  lemma LoneIntake(r: RawRow, t: Tier)
    requires OfKind(r, t)
    ensures Intake([r]) == [WorkItem(1, r.fields)]
    ensures KindOf(WorkItem(1, r.fields)) == Some(t)
  {
    OfKindItem(r, t, 1);
    IntakeAllTyped([r]);
  }

  lemma LoneOrganized(r: RawRow, t: Tier)
    requires OfKind(r, t)
    ensures Intake([r]) == [WorkItem(1, r.fields)]
    ensures Organize(Intake([r])).links == map[]
    ensures Organize(Intake([r])).groups == NoGroups.Add(t, WorkItem(1, r.fields))
  {
    LoneIntake(r, t);
    var x := WorkItem(1, r.fields);
    assert [x][..0] == [];
    assert Organize([x]) == Step(Start, x);
  }

  /** A story with no epic before it is created without a parent key. */
  lemma LoneStoryScenario(s: RawRow)
    requires OfKind(s, Story)
    ensures var trace := Run(Project, [s], Tracker({}));
            && |trace| == 1 && trace[0].Created? && trace[0].request.issueType == Story
            && trace[0].request.parent == None && trace[0].key == "P-1"
  {
    var y := WorkItem(1, s.fields);
    LoneOrganized(s, Story);
    var create := Tracker({});
    assert TierEvents(Project, Epic, [], map[], map[], create) == [];
    assert Replay(map[], []) == map[];
    CreatedAlone(Story, y, map[], map[]);
    var stories := TierEvents(Project, Story, [y], map[], map[], create);
    var c := Replay(map[], stories);
    assert TierEvents(Project, Task, [], map[], c, create) == [];
    assert Replay(c, []) == c;
    assert TierEvents(Project, SubTask, [], map[], c, create) == [];
    assert Run(Project, [s], create) == [] + stories + [] + [];
    KeyExamples();
  }

  /** A sub-task with no story or task before it is skipped: the tracker is
      never asked to create it and nothing is recorded. */
  lemma LoneSubTaskScenario(t: RawRow, failing: set<nat>)
    requires OfKind(t, SubTask)
    ensures Run(Project, [t], Tracker(failing)) == [Skipped(1)]
    ensures Replay(map[], Run(Project, [t], Tracker(failing))) == map[]
  {
    var z := WorkItem(1, t.fields);
    LoneOrganized(t, SubTask);
    var create := Tracker(failing);
    assert TierEvents(Project, Epic, [], map[], map[], create) == [];
    assert TierEvents(Project, Story, [], map[], map[], create) == [];
    assert TierEvents(Project, Task, [], map[], map[], create) == [];
    assert Replay(map[], []) == map[];
    OneRowTier(SubTask, z, map[], map[], create);
    assert Run(Project, [t], create) == [] + [] + [] + [Attempt(Project, SubTask, z, map[], map[], create)];
    assert Replay(map[], [Skipped(1)]) == map[];
  }

  // ---------------------------------------------------------------------
  // A failing epic

  lemma FailedAlone(tier: Tier, x: WorkItem, links: map<nat, nat>, created: map<nat, Key>)
    requires tier != SubTask
    requires x.id == 1
    ensures var t := TierEvents(Project, tier, [x], links, created, Tracker({1}));
            && |t| == 1 && t[0].Failed? && t[0].request.issueType == tier
            && Replay(created, t) == created
  {
    OneRowTier(tier, x, links, created, Tracker({1}));
    TrackerAttempt(tier, x, links, created, {1});
    var t := TierEvents(Project, tier, [x], links, created, Tracker({1}));
    assert t[..0] == [];
  }

  lemma EpicStoryRun(e: RawRow, s: RawRow)
    requires OfKind(e, Epic) && OfKind(s, Story)
    ensures var x, y := WorkItem(1, e.fields), WorkItem(2, s.fields);
            Run(Project, [e, s], Tracker({1}))
            == TierEvents(Project, Epic, [x], map[2 := 1], map[], Tracker({1}))
             + [Attempt(Project, Story, y, map[2 := 1], map[], Tracker({1}))]
  {
    var x, y := WorkItem(1, e.fields), WorkItem(2, s.fields);
    OfKindItem(e, Epic, 1);
    OfKindItem(s, Story, 2);
    IntakeAllTyped([e, s]);
    var items := Intake([e, s]);
    assert items == [x, y];
    assert items[..1][..0] == [];
    assert items[..2][..1] == items[..1];
    assert Organize(items[..1]) == Scan(Some(1), None, Groups([x], [], [], []), map[]);
    assert items[..2] == items;
    assert Organize(items) == Scan(Some(1), Some(2), Groups([x], [y], [], []), map[2 := 1]);
    var create := Tracker({1});
    FailedAlone(Epic, x, map[2 := 1], map[]);
    var epics := TierEvents(Project, Epic, [x], map[2 := 1], map[], create);
    var stories := TierEvents(Project, Story, [y], map[2 := 1], map[], create);
    var c := Replay(map[], stories);
    assert Replay(map[], epics + stories) == c by { ReplayAppend(map[], epics, stories); }
    assert TierEvents(Project, Task, [], map[2 := 1], c, create) == [];
    assert Replay(c, []) == c;
    assert TierEvents(Project, SubTask, [], map[2 := 1], c, create) == [];
    OneRowTier(Story, y, map[2 := 1], map[], create);
  }

  /** A story whose epic has no key is created without a parent. */
  lemma OrphanedStory(y: WorkItem)
    requires y.id == 2
    ensures var a := Attempt(Project, Story, y, map[2 := 1], map[], Tracker({1}));
            a.Created? && a.request.issueType == Story && a.request.parent == None && a.key == KeyFor(2)
  {
    TrackerAttempt(Story, y, map[2 := 1], map[], {1});
    assert ParentKey(map[2 := 1], map[], 2) == None;
  }

  /** When the epic fails, the story linked to it is still sent, and is
      created without a parent key. */
  lemma FailedEpicScenario(e: RawRow, s: RawRow)
    requires OfKind(e, Epic) && OfKind(s, Story)
    ensures var trace := Run(Project, [e, s], Tracker({1}));
            && |trace| == 2
            && trace[0].Failed? && trace[0].request.issueType == Epic
            && trace[1].Created? && trace[1].request.issueType == Story
            && trace[1].request.parent == None && trace[1].key == "P-2"
  {
    EpicStoryRun(e, s);
    FailedEpicEvents(WorkItem(1, e.fields), WorkItem(2, s.fields));
    KeyExamples();
  }

  lemma FailedEpicEvents(x: WorkItem, y: WorkItem)
    requires x.id == 1 && y.id == 2
    ensures var trace := TierEvents(Project, Epic, [x], map[2 := 1], map[], Tracker({1}))
                       + [Attempt(Project, Story, y, map[2 := 1], map[], Tracker({1}))];
            && |trace| == 2
            && trace[0].Failed? && trace[0].request.issueType == Epic
            && trace[1].Created? && trace[1].request.issueType == Story
            && trace[1].request.parent == None && trace[1].key == KeyFor(2)
  {
    FailedAlone(Epic, x, map[2 := 1], map[]);
    OrphanedStory(y);
  }
}
