/**
  The hierarchy organizer as a specification: one forward pass over the kept
  work items that sorts them into the four tier groups and infers each
  item's parent from two pieces of rolling state, the current epic and the
  current story-or-task. Alongside the pass stand independent reference
  definitions (a filter per tier, a backward search for the governing epic
  and parent) and the lemmas that relate the two.
*/
module Hierarchy {
  import opened Wrappers
  import opened WorkItems

  /** The work items of each tier, in input order. */
  datatype Groups = Groups(epics: seq<WorkItem>, stories: seq<WorkItem>,
                           tasks: seq<WorkItem>, subtasks: seq<WorkItem>)
  {
    function Of(t: Tier): (r: seq<WorkItem>) {
      match t
      case Epic => epics
      case Story => stories
      case Task => tasks
      case SubTask => subtasks
    }

    function Add(t: Tier, item: WorkItem): (r: Groups) {
      match t
      case Epic => this.(epics := epics + [item])
      case Story => this.(stories := stories + [item])
      case Task => this.(tasks := tasks + [item])
      case SubTask => this.(subtasks := subtasks + [item])
    }
  }

  const NoGroups: Groups := Groups([], [], [], [])

  /** The state of the pass: the id of the current epic, the id of the
      current story or task, the groups so far and the child-to-parent links. */
  datatype Scan = Scan(currentEpic: Option<nat>, currentParent: Option<nat>,
                       groups: Groups, links: map<nat, nat>)

  const Start: Scan := Scan(None, None, NoGroups, map[])

  /** What one work item does to the state of the pass. */
  function Step(st: Scan, item: WorkItem): (r: Scan) {
    match KindOf(item)
    case Some(Epic) =>
      st.(currentEpic := Some(item.id), currentParent := None,
          groups := st.groups.Add(Epic, item))
    case Some(Story) =>
      st.(currentParent := Some(item.id), groups := st.groups.Add(Story, item),
          links := LinkTo(st.links, item.id, st.currentEpic))
    case Some(Task) =>
      st.(currentParent := Some(item.id), groups := st.groups.Add(Task, item),
          links := LinkTo(st.links, item.id, st.currentEpic))
    case Some(SubTask) =>
      st.(groups := st.groups.Add(SubTask, item),
          links := LinkTo(st.links, item.id, st.currentParent))
    case None => st
  }

  /** Records `child -> parent` when there is a parent. */
  function LinkTo(links: map<nat, nat>, child: nat, parent: Option<nat>): (r: map<nat, nat>) {
    if parent.Some? then links[child := parent.value] else links
  }

  /** The pass over all of `items`, from left to right. */
  function Organize(items: seq<WorkItem>): (r: Scan) {
    if items == [] then Start
    else Step(Organize(items[..|items| - 1]), items[|items| - 1])
  }

  // ---------------------------------------------------------------------
  // Reference definitions

  /** The items of kind `k` (a tier, or `None` for an unrecognised type), in order. */
  function Filter(items: seq<WorkItem>, k: Option<Tier>): (r: seq<WorkItem>) {
    if items == [] then []
    else
      var last := items[|items| - 1];
      Filter(items[..|items| - 1], k) + (if KindOf(last) == k then [last] else [])
  }

  /** The id of the last epic in `items`. */
  function LastEpic(items: seq<WorkItem>): (r: Option<nat>) {
    if items == [] then None
    else
      var last := items[|items| - 1];
      if KindOf(last) == Some(Epic) then Some(last.id) else LastEpic(items[..|items| - 1])
  }

  /** The id of the last story or task in `items` that no later epic closes. */
  function OpenParent(items: seq<WorkItem>): (r: Option<nat>) {
    if items == [] then None
    else
      var last := items[|items| - 1];
      match KindOf(last)
      case Some(Epic) => None
      case Some(Story) => Some(last.id)
      case Some(Task) => Some(last.id)
      case _ => OpenParent(items[..|items| - 1])
  }

  /** The parent the item at position `j` should get: stories and tasks take
      the last epic before them, sub-tasks the open story or task before them,
      epics and unrecognised items nothing. */
  function ExpectedParent(items: seq<WorkItem>, j: nat): (r: Option<nat>)
    requires j < |items|
  {
    match KindOf(items[j])
    case Some(Story) => LastEpic(items[..j])
    case Some(Task) => LastEpic(items[..j])
    case Some(SubTask) => OpenParent(items[..j])
    case _ => None
  }

  /** `child` is linked to `parent` when there is one, and not linked otherwise. */
  predicate LinkedAs(links: map<nat, nat>, child: nat, parent: Option<nat>) {
    match parent
    case None => child !in links
    case Some(p) => child in links && links[child] == p
  }

  // ---------------------------------------------------------------------
  // Groups

  /** Each group of the pass is the filter of its tier. */
  lemma {:induction false} OrganizeGroups(items: seq<WorkItem>)
    ensures forall t: Tier :: Organize(items).groups.Of(t) == Filter(items, Some(t))
  {
    if items != [] {
      var prefix := items[..|items| - 1];
      var last := items[|items| - 1];
      OrganizeGroups(prefix);
      forall t: Tier ensures Organize(items).groups.Of(t) == Filter(items, Some(t)) {
        StepGroups(Organize(prefix), last, t);
      }
    }
  }

  /** One step appends the item to the group of its kind and to no other. */
  lemma StepGroups(st: Scan, item: WorkItem, t: Tier)
    ensures Step(st, item).groups.Of(t)
            == st.groups.Of(t) + (if KindOf(item) == Some(t) then [item] else [])
  {
    match KindOf(item)
    case Some(k) => assert Step(st, item).groups == st.groups.Add(k, item);
    case None =>
  }

  /** An item is in the group of kind `k` exactly when it is one of the
      items and has that kind; since every item has one kind, it goes to
      exactly one group or, unrecognised, to none. */
  lemma {:induction false} FilterMembers(items: seq<WorkItem>, k: Option<Tier>)
    ensures forall x :: x in Filter(items, k) <==> x in items && KindOf(x) == k
  {
    if items != [] {
      var prefix := items[..|items| - 1];
      FilterMembers(prefix, k);
      assert items == prefix + [items[|items| - 1]];
    }
  }

  /** A group keeps the input order. */
  lemma {:induction false} FilterKeepsOrder(items: seq<WorkItem>, k: Option<Tier>)
    requires IdsIncreasing(items)
    ensures IdsIncreasing(Filter(items, k))
  {
    if items != [] {
      var prefix := items[..|items| - 1];
      FilterKeepsOrder(prefix, k);
      FilterMembers(prefix, k);
      var f := Filter(prefix, k);
      var last := items[|items| - 1];
      if KindOf(last) == k {
        forall x | x in f ensures x.id < last.id {
          var i :| 0 <= i < |prefix| && prefix[i] == x;
          assert items[i] == x;
        }
        IncreasingSnoc(f, last);
      } else {
        assert Filter(items, k) == f;
      }
    }
  }

  /** Appending an item with a larger id than all others keeps ids increasing. */
  lemma IncreasingSnoc(f: seq<WorkItem>, last: WorkItem)
    requires IdsIncreasing(f)
    requires forall x :: x in f ==> x.id < last.id
    ensures IdsIncreasing(f + [last])
  {
    var g := f + [last];
    forall i, j | 0 <= i < j < |g| ensures g[i].id < g[j].id {
      assert g[i] in f;
    }
  }

  /** The four groups and the unrecognised items together account for every item. */
  lemma {:induction false} FilterCounts(items: seq<WorkItem>)
    ensures |Filter(items, Some(Epic))| + |Filter(items, Some(Story))|
          + |Filter(items, Some(Task))| + |Filter(items, Some(SubTask))|
          + |Filter(items, None)| == |items|
  {
    if items != [] {
      FilterCounts(items[..|items| - 1]);
    }
  }

  // ---------------------------------------------------------------------
  // Rolling state and links

  /** The rolling state after the pass is the last epic and the open parent. */
  lemma {:induction false} OrganizeState(items: seq<WorkItem>)
    ensures Organize(items).currentEpic == LastEpic(items)
    ensures Organize(items).currentParent == OpenParent(items)
  {
    if items != [] {
      OrganizeState(items[..|items| - 1]);
    }
  }

  /** With distinct increasing ids, the pass links exactly the items that
      have an expected parent, each to that parent, and nothing else. */
  lemma {:induction false} OrganizeLinks(items: seq<WorkItem>)
    requires IdsIncreasing(items)
    ensures Organize(items).links.Keys <= Ids(items)
    ensures forall j :: 0 <= j < |items| ==>
              LinkedAs(Organize(items).links, items[j].id, ExpectedParent(items, j))
  {
    if items != [] {
      var n := |items| - 1;
      var prefix := items[..n];
      var last := items[n];
      assert IdsIncreasing(prefix);
      OrganizeLinks(prefix);
      assert items == prefix + [last];
      IdsSnoc(prefix, last);
      LastStepLinks(items);
      forall j | 0 <= j < n
        ensures LinkedAs(Organize(items).links, items[j].id, ExpectedParent(items, j))
      {
        EarlierLinkKept(items, j);
      }
    }
  }

  /** The last step leaves the link of an earlier item as the prefix had it. */
  lemma EarlierLinkKept(items: seq<WorkItem>, j: nat)
    requires IdsIncreasing(items)
    requires j < |items| - 1
    requires LinkedAs(Organize(items[..|items| - 1]).links, items[j].id,
                      ExpectedParent(items[..|items| - 1], j))
    ensures LinkedAs(Organize(items).links, items[j].id, ExpectedParent(items, j))
  {
    var n := |items| - 1;
    LastStepLinks(items);
    ExpectedParentOfPrefix(items, n, j);
    LinkToKeeps(Organize(items[..n]).links, items[n].id, ExpectedParent(items, n),
                items[j].id, ExpectedParent(items, j));
  }

  /** The expected parent of an item depends only on the items up to it. */
  lemma ExpectedParentOfPrefix(items: seq<WorkItem>, m: nat, j: nat)
    requires j < m <= |items|
    ensures ExpectedParent(items[..m], j) == ExpectedParent(items, j)
  {
    assert items[..m][j] == items[j];
    assert items[..m][..j] == items[..j];
  }

  /** Linking one child leaves the link of any other child as it was. */
  lemma LinkToKeeps(links: map<nat, nat>, child: nat, parent: Option<nat>,
                    other: nat, expected: Option<nat>)
    requires other != child
    requires LinkedAs(links, other, expected)
    ensures LinkedAs(LinkTo(links, child, parent), other, expected)
  {
  }

  /** The last step of the pass links the last item to its expected parent. */
  lemma LastStepLinks(items: seq<WorkItem>)
    requires items != []
    ensures var n := |items| - 1;
            Organize(items).links
            == LinkTo(Organize(items[..n]).links, items[n].id, ExpectedParent(items, n))
  {
    var n := |items| - 1;
    OrganizeState(items[..n]);
    var st := Organize(items[..n]);
    match KindOf(items[n])
    case Some(Epic) =>
    case Some(Story) => assert Organize(items).links == LinkTo(st.links, items[n].id, st.currentEpic);
    case Some(Task) => assert Organize(items).links == LinkTo(st.links, items[n].id, st.currentEpic);
    case Some(SubTask) => assert Organize(items).links == LinkTo(st.links, items[n].id, st.currentParent);
    case None =>
  }

  /** The last epic is an epic of `items`. */
  lemma {:induction false} LastEpicIsEpic(items: seq<WorkItem>)
    ensures LastEpic(items).Some? ==>
              exists i :: 0 <= i < |items| && items[i].id == LastEpic(items).value
                       && KindOf(items[i]) == Some(Epic)
  {
    if items != [] && KindOf(items[|items| - 1]) != Some(Epic) {
      var prefix := items[..|items| - 1];
      LastEpicIsEpic(prefix);
      if LastEpic(prefix).Some? {
        var i :| 0 <= i < |prefix| && prefix[i].id == LastEpic(prefix).value
                 && KindOf(prefix[i]) == Some(Epic);
        assert items[i] == prefix[i];
      }
    }
  }

  /** The open parent is a story or task of `items`. */
  lemma {:induction false} OpenParentIsStoryOrTask(items: seq<WorkItem>)
    ensures OpenParent(items).Some? ==>
              exists i :: 0 <= i < |items| && items[i].id == OpenParent(items).value
                       && KindOf(items[i]) in {Some(Story), Some(Task)}
  {
    if items != [] && KindOf(items[|items| - 1]) !in {Some(Epic), Some(Story), Some(Task)} {
      var prefix := items[..|items| - 1];
      OpenParentIsStoryOrTask(prefix);
      if OpenParent(prefix).Some? {
        var i :| 0 <= i < |prefix| && prefix[i].id == OpenParent(prefix).value
                 && KindOf(prefix[i]) in {Some(Story), Some(Task)};
        assert items[i] == prefix[i];
      }
    }
  }

  /** The kinds a link may join: a story or task to an epic, a sub-task to
      a story or task. */
  predicate ParentKindFits(child: Option<Tier>, parent: Option<Tier>) {
    || (child in {Some(Story), Some(Task)} && parent == Some(Epic))
    || (child == Some(SubTask) && parent in {Some(Story), Some(Task)})
  }

  /** The expected parent is an item strictly earlier in the input, of a
      kind that fits. */
  lemma ExpectedParentEarlier(items: seq<WorkItem>, j: nat)
    requires j < |items|
    ensures ExpectedParent(items, j).Some? ==>
              exists i :: 0 <= i < j && items[i].id == ExpectedParent(items, j).value
                       && ParentKindFits(KindOf(items[j]), KindOf(items[i]))
  {
    var before := items[..j];
    LastEpicIsEpic(before);
    OpenParentIsStoryOrTask(before);
    if ExpectedParent(items, j).Some? {
      var i :| 0 <= i < j && before[i].id == ExpectedParent(items, j).value
               && ParentKindFits(KindOf(items[j]), KindOf(before[i]));
      assert items[i] == before[i];
    }
  }

  /** Every link points to an item strictly earlier in the input, of a kind
      that fits; with increasing ids, every link points to a smaller id. */
  lemma LinksPointBackwards(items: seq<WorkItem>)
    requires IdsIncreasing(items)
    ensures forall j :: 0 <= j < |items| && items[j].id in Organize(items).links ==>
              exists i :: 0 <= i < j && items[i].id == Organize(items).links[items[j].id]
                       && ParentKindFits(KindOf(items[j]), KindOf(items[i]))
    ensures forall c :: c in Organize(items).links ==> Organize(items).links[c] < c
  {
    var links := Organize(items).links;
    OrganizeLinks(items);
    forall j | 0 <= j < |items| && items[j].id in links
      ensures exists i :: 0 <= i < j && items[i].id == links[items[j].id]
                       && ParentKindFits(KindOf(items[j]), KindOf(items[i]))
    {
      ExpectedParentEarlier(items, j);
      assert LinkedAs(links, items[j].id, ExpectedParent(items, j));
    }
    forall c | c in links ensures links[c] < c {
      var j :| 0 <= j < |items| && items[j].id == c;
      ExpectedParentEarlier(items, j);
      assert LinkedAs(links, items[j].id, ExpectedParent(items, j));
      var i :| 0 <= i < j && items[i].id == links[c];
    }
  }

  // ---------------------------------------------------------------------
  // Items left unlinked

  /** The link the pass gives the item at position `j`. */
  lemma OrganizeLinkAt(items: seq<WorkItem>, j: nat)
    requires IdsIncreasing(items) && j < |items|
    ensures LinkedAs(Organize(items).links, items[j].id, ExpectedParent(items, j))
  {
    OrganizeLinks(items);
  }

  /** Without an epic there is no last epic. */
  lemma {:induction false} NoEpicNoLastEpic(items: seq<WorkItem>)
    requires forall i :: 0 <= i < |items| ==> KindOf(items[i]) != Some(Epic)
    ensures LastEpic(items) == None
  {
    if items != [] {
      var prefix := items[..|items| - 1];
      forall i | 0 <= i < |prefix| ensures KindOf(prefix[i]) != Some(Epic) {
        assert prefix[i] == items[i];
      }
      NoEpicNoLastEpic(prefix);
    }
  }

  /** Without a story or task there is no open parent. */
  lemma {:induction false} NoStoryNoOpenParent(items: seq<WorkItem>)
    requires forall i :: 0 <= i < |items| ==> KindOf(items[i]) != Some(Story) && KindOf(items[i]) != Some(Task)
    ensures OpenParent(items) == None
  {
    if items != [] {
      var prefix := items[..|items| - 1];
      forall i | 0 <= i < |prefix| ensures KindOf(prefix[i]) != Some(Story) && KindOf(prefix[i]) != Some(Task) {
        assert prefix[i] == items[i];
      }
      NoStoryNoOpenParent(prefix);
    }
  }

  /** A story or task with no epic before it gets no link. */
  lemma NoEpicYetUnlinked(items: seq<WorkItem>, j: nat)
    requires IdsIncreasing(items) && j < |items|
    requires KindOf(items[j]) == Some(Story) || KindOf(items[j]) == Some(Task)
    requires forall i :: 0 <= i < j ==> KindOf(items[i]) != Some(Epic)
    ensures items[j].id !in Organize(items).links
  {
    NoEpicBefore(items, j);
    UnlinkedWithoutParent(items, j);
  }

  /** A sub-task with no story or task before it gets no link. */
  lemma NoParentYetUnlinked(items: seq<WorkItem>, j: nat)
    requires IdsIncreasing(items) && j < |items|
    requires KindOf(items[j]) == Some(SubTask)
    requires forall i :: 0 <= i < j ==> KindOf(items[i]) != Some(Story) && KindOf(items[i]) != Some(Task)
    ensures items[j].id !in Organize(items).links
  {
    NoStoryBefore(items, j);
    UnlinkedWithoutParent(items, j);
  }

  /** An epic closes the open story or task: a sub-task right after an epic
      gets no link. */
  lemma AfterEpicUnlinked(items: seq<WorkItem>, j: nat)
    requires IdsIncreasing(items) && 0 < j < |items|
    requires KindOf(items[j - 1]) == Some(Epic) && KindOf(items[j]) == Some(SubTask)
    ensures items[j].id !in Organize(items).links
  {
    EpicClosesParent(items, j);
    UnlinkedWithoutParent(items, j);
  }

  lemma NoEpicBefore(items: seq<WorkItem>, j: nat)
    requires j <= |items|
    requires forall i :: 0 <= i < j ==> KindOf(items[i]) != Some(Epic)
    ensures LastEpic(items[..j]) == None
  {
    var before := items[..j];
    forall i | 0 <= i < |before| ensures KindOf(before[i]) != Some(Epic) {
      assert before[i] == items[i];
    }
    NoEpicNoLastEpic(before);
  }

  lemma NoStoryBefore(items: seq<WorkItem>, j: nat)
    requires j <= |items|
    requires forall i :: 0 <= i < j ==> KindOf(items[i]) != Some(Story) && KindOf(items[i]) != Some(Task)
    ensures OpenParent(items[..j]) == None
  {
    var before := items[..j];
    forall i | 0 <= i < |before| ensures KindOf(before[i]) != Some(Story) && KindOf(before[i]) != Some(Task) {
      assert before[i] == items[i];
    }
    NoStoryNoOpenParent(before);
  }

  lemma EpicClosesParent(items: seq<WorkItem>, j: nat)
    requires 0 < j <= |items| && KindOf(items[j - 1]) == Some(Epic)
    ensures OpenParent(items[..j]) == None
  {
    assert items[..j][j - 1] == items[j - 1];
  }

  /** An item whose expected parent is missing gets no link. */
  lemma UnlinkedWithoutParent(items: seq<WorkItem>, j: nat)
    requires IdsIncreasing(items) && j < |items|
    requires ExpectedParent(items, j) == None
    ensures items[j].id !in Organize(items).links
  {
    OrganizeLinkAt(items, j);
  }
}
