/**
  The whole run: the rows read are filtered, organized into tiers and links,
  and imported tier by tier from no created issues. The lemmas here join the
  organizer's guarantees to the importer's: every recognised row is
  attempted exactly once, tiers never go backwards, a linked parent is
  always attempted before its child, and the child carries the parent's key
  exactly when that attempt created an issue.
*/
module ImportRun {
  import opened Wrappers
  import opened WorkItems
  import opened Hierarchy
  import opened IssueFields
  import opened Importing

  /** The events of a whole run over the rows read. */
  function Run(project: string, rows: seq<RawRow>, create: Request -> Option<Key>): (r: seq<Event>) {
    var org := Organize(Intake(rows));
    ImportAll(project, org.groups, org.links, map[], create)
  }

  /** The jobs of the run over the rows read. */
  function RunJobs(rows: seq<RawRow>): (r: seq<Job>) {
    Schedule(Organize(Intake(rows)).groups)
  }

  function RunLinks(rows: seq<RawRow>): (r: map<nat, nat>) {
    Organize(Intake(rows)).links
  }

  // ---------------------------------------------------------------------
  // The schedule

  predicate FromGroups(groups: Groups, jobs: seq<Job>) {
    forall j :: 0 <= j < |jobs| ==> jobs[j].item in groups.Of(jobs[j].tier)
  }

  predicate NoRepeats(jobs: seq<Job>) {
    forall i, j :: 0 <= i < j < |jobs| ==> jobs[i] != jobs[j]
  }

  predicate GroupsIncreasing(groups: Groups) {
    && IdsIncreasing(groups.epics) && IdsIncreasing(groups.stories)
    && IdsIncreasing(groups.tasks) && IdsIncreasing(groups.subtasks)
  }

  predicate RanksBelow(jobs: seq<Job>, r: nat) {
    forall i :: 0 <= i < |jobs| ==> jobs[i].tier.Rank() < r
  }

  /** Jobs of lower tiers followed by jobs of one higher tier repeat nothing
      that neither part repeats. */
  lemma NoRepeatsAppend(a: seq<Job>, t: Tier, group: seq<WorkItem>)
    requires NoRepeats(a) && IdsIncreasing(group)
    requires RanksBelow(a, t.Rank())
    ensures NoRepeats(a + Jobs(t, group))
    ensures RanksBelow(a + Jobs(t, group), t.Rank() + 1)
  {
    var b := Jobs(t, group);
    var ab := a + b;
    forall i, j | 0 <= i < j < |ab| ensures ab[i] != ab[j] {
      if j < |a| {
        assert ab[i] == a[i] && ab[j] == a[j];
      } else if i >= |a| {
        assert ab[i] == b[i - |a|] && ab[j] == b[j - |a|];
      } else {
        assert ab[i] == a[i] && ab[j] == b[j - |a|];
      }
    }
    forall i | 0 <= i < |ab| ensures ab[i].tier.Rank() < t.Rank() + 1 {
      if i < |a| { assert ab[i] == a[i]; } else { assert ab[i] == b[i - |a|]; }
    }
  }

  lemma FromGroupsAppend(groups: Groups, a: seq<Job>, t: Tier)
    requires FromGroups(groups, a)
    ensures FromGroups(groups, a + Jobs(t, groups.Of(t)))
  {
    var b := Jobs(t, groups.Of(t));
    var ab := a + b;
    forall j | 0 <= j < |ab| ensures ab[j].item in groups.Of(ab[j].tier) {
      if j < |a| { assert ab[j] == a[j]; } else { assert ab[j] == b[j - |a|]; }
    }
  }

  /** Every job of the schedule takes an item from the group of its tier. */
  lemma ScheduleFromGroups(groups: Groups)
    ensures FromGroups(groups, Schedule(groups))
  {
    FromGroupsAppend(groups, [], Epic);
    assert [] + Jobs(Epic, groups.epics) == Jobs(Epic, groups.epics);
    FromGroupsAppend(groups, Jobs(Epic, groups.epics), Story);
    FromGroupsAppend(groups, Jobs(Epic, groups.epics) + Jobs(Story, groups.stories), Task);
    FromGroupsAppend(groups, Jobs(Epic, groups.epics) + Jobs(Story, groups.stories)
                             + Jobs(Task, groups.tasks), SubTask);
  }

  /** No job is scheduled twice. */
  lemma ScheduleNoRepeats(groups: Groups)
    requires GroupsIncreasing(groups)
    ensures NoRepeats(Schedule(groups))
  {
    var j1 := Jobs(Epic, groups.epics);
    var j2 := Jobs(Story, groups.stories);
    var j3 := Jobs(Task, groups.tasks);
    NoRepeatsAppend([], Epic, groups.epics);
    assert [] + j1 == j1;
    NoRepeatsAppend(j1, Story, groups.stories);
    NoRepeatsAppend(j1 + j2, Task, groups.tasks);
    NoRepeatsAppend(j1 + j2 + j3, SubTask, groups.subtasks);
  }

  /** Every item of a group is scheduled in its tier. */
  lemma ScheduleCovers(groups: Groups, t: Tier, x: WorkItem)
    requires x in groups.Of(t)
    ensures exists i :: 0 <= i < |Schedule(groups)| && Schedule(groups)[i] == Job(t, x)
  {
    var s := Schedule(groups);
    var j1 := Jobs(Epic, groups.epics);
    var j2 := Jobs(Story, groups.stories);
    var j3 := Jobs(Task, groups.tasks);
    var k :| 0 <= k < |groups.Of(t)| && groups.Of(t)[k] == x;
    var offset := match t
      case Epic => 0
      case Story => |j1|
      case Task => |j1| + |j2|
      case SubTask => |j1| + |j2| + |j3|;
    assert s[offset + k] == Job(t, x);
  }

  // ---------------------------------------------------------------------
  // Jobs of a run

  lemma SameIdSameItem(items: seq<WorkItem>, x: WorkItem, y: WorkItem)
    requires IdsIncreasing(items)
    requires x in items && y in items
    ensures x.id == y.id ==> x == y
  {
    var i :| 0 <= i < |items| && items[i] == x;
    var j :| 0 <= j < |items| && items[j] == y;
    assert i < j ==> x.id < y.id;
    assert j < i ==> y.id < x.id;
  }

  /** The groups of a run keep the input order. */
  lemma RunGroupsIncreasing(rows: seq<RawRow>)
    ensures GroupsIncreasing(Organize(Intake(rows)).groups)
  {
    var items := Intake(rows);
    OrganizeGroups(items);
    FilterKeepsOrder(items, Some(Epic));
    FilterKeepsOrder(items, Some(Story));
    FilterKeepsOrder(items, Some(Task));
    FilterKeepsOrder(items, Some(SubTask));
  }

  /** An item is in a run's group of tier `t` exactly when it is kept and has that kind. */
  lemma RunGroupsMembers(rows: seq<RawRow>)
    ensures forall t: Tier, x :: x in Organize(Intake(rows)).groups.Of(t) <==> x in Intake(rows) && KindOf(x) == Some(t)
  {
    var items := Intake(rows);
    OrganizeGroups(items);
    forall t: Tier ensures forall x :: x in Filter(items, Some(t)) <==> x in items && KindOf(x) == Some(t) {
      FilterMembers(items, Some(t));
    }
  }

  /** Every job of a run is a kept row whose type names the job's tier. */
  lemma RunJobsAreRows(rows: seq<RawRow>)
    ensures forall j :: 0 <= j < |RunJobs(rows)| ==>
              && RunJobs(rows)[j].item in Intake(rows)
              && KindOf(RunJobs(rows)[j].item) == Some(RunJobs(rows)[j].tier)
  {
    var jobs := RunJobs(rows);
    forall j | 0 <= j < |jobs| ensures jobs[j].item in Intake(rows) && KindOf(jobs[j].item) == Some(jobs[j].tier) {
      RunJobIsRow(rows, j);
    }
  }

  lemma RunJobIsRow(rows: seq<RawRow>, j: nat)
    requires j < |RunJobs(rows)|
    ensures RunJobs(rows)[j].item in Intake(rows)
    ensures KindOf(RunJobs(rows)[j].item) == Some(RunJobs(rows)[j].tier)
  {
    var jobs := RunJobs(rows);
    ScheduleFromGroups(Organize(Intake(rows)).groups);
    InRunGroup(rows, jobs[j].tier, jobs[j].item);
  }

  lemma InRunGroup(rows: seq<RawRow>, t: Tier, x: WorkItem)
    requires x in Organize(Intake(rows)).groups.Of(t)
    ensures x in Intake(rows) && KindOf(x) == Some(t)
  {
    OrganizeGroups(Intake(rows));
    FilterMembers(Intake(rows), Some(t));
  }

  /** No two jobs of a run are about the same row. */
  lemma RunJobsDistinct(rows: seq<RawRow>)
    ensures forall i, j :: 0 <= i < j < |RunJobs(rows)| ==> RunJobs(rows)[i].item.id != RunJobs(rows)[j].item.id
  {
    var items := Intake(rows);
    var jobs := RunJobs(rows);
    RunJobsAreRows(rows);
    RunGroupsIncreasing(rows);
    ScheduleNoRepeats(Organize(items).groups);
    forall i, j | 0 <= i < j < |jobs| ensures jobs[i].item.id != jobs[j].item.id {
      SameIdSameItem(items, jobs[i].item, jobs[j].item);
    }
  }

  /** Every kept row whose type is recognised is a job of the run. */
  lemma RunJobsCover(rows: seq<RawRow>, x: WorkItem)
    requires x in Intake(rows) && KindOf(x).Some?
    ensures exists i :: 0 <= i < |RunJobs(rows)| && RunJobs(rows)[i] == Job(KindOf(x).value, x)
  {
    var items := Intake(rows);
    var t := KindOf(x).value;
    OrganizeGroups(items);
    FilterMembers(items, Some(t));
    assert x in Organize(items).groups.Of(t);
    ScheduleCovers(Organize(items).groups, t, x);
    assert RunJobs(rows) == Schedule(Organize(items).groups);
  }

  // ---------------------------------------------------------------------
  // Order of a run

  /** The events of a run are the attempts of its jobs, and tiers never go
      backwards along them: every epic before every story, and so on. */
  lemma RunOrder(project: string, rows: seq<RawRow>, create: Request -> Option<Key>)
    ensures var trace := Run(project, rows, create);
            && Follows(project, RunLinks(rows), map[], create, trace, RunJobs(rows))
            && forall i, j :: 0 <= i < j < |trace| ==> TierOf(trace[i]).Rank() <= TierOf(trace[j]).Rank()
  {
    var org := Organize(Intake(rows));
    var trace := Run(project, rows, create);
    ImportAllAttempts(project, org.groups, org.links, map[], create);
    TraceGuarantees(project, org.links, map[], create, trace, RunJobs(rows));
    ScheduleOrder(org.groups);
  }

  /** A fitting parent is of a lower tier than its child. */
  lemma FitsRankBelow(child: Tier, parent: Tier)
    requires ParentKindFits(Some(child), Some(parent))
    ensures parent.Rank() < child.Rank()
  {
  }

  /** The linked parent of a row is an earlier kept row of a fitting kind. */
  lemma LinkedParentRow(rows: seq<RawRow>, child: WorkItem)
    requires child in Intake(rows) && child.id in RunLinks(rows)
    ensures exists parent :: parent in Intake(rows) && parent.id == RunLinks(rows)[child.id]
                           && ParentKindFits(KindOf(child), KindOf(parent))
  {
    var items := Intake(rows);
    var jj :| 0 <= jj < |items| && items[jj] == child;
    LinksPointBackwards(items);
    var ii :| 0 <= ii < jj && items[ii].id == RunLinks(rows)[child.id]
              && ParentKindFits(KindOf(items[jj]), KindOf(items[ii]));
  }

  /** A linked parent of a scheduled row is scheduled earlier, in a lower tier. */
  lemma ParentJobFirst(rows: seq<RawRow>, j: nat)
    requires j < |RunJobs(rows)|
    requires RunJobs(rows)[j].item.id in RunLinks(rows)
    ensures var jobs := RunJobs(rows);
            exists i :: 0 <= i < j && jobs[i].item.id == RunLinks(rows)[jobs[j].item.id]
                     && jobs[i].tier.Rank() < jobs[j].tier.Rank()
  {
    var jobs := RunJobs(rows);
    RunJobIsRow(rows, j);
    var child := jobs[j].item;
    LinkedParentRow(rows, child);
    var parent :| parent in Intake(rows) && parent.id == RunLinks(rows)[child.id]
                  && ParentKindFits(KindOf(child), KindOf(parent));
    var pt := KindOf(parent).value;
    FitsRankBelow(jobs[j].tier, pt);
    RunJobsCover(rows, parent);
    var i :| 0 <= i < |jobs| && jobs[i] == Job(pt, parent);
    ScheduleOrder(Organize(Intake(rows)).groups);
    RankOrder(jobs, i, j);
  }

  /** Along the schedule, a job of a lower tier comes first. */
  lemma RankOrder(jobs: seq<Job>, i: nat, j: nat)
    requires forall a, b :: 0 <= a < b < |jobs| ==> jobs[a].tier.Rank() <= jobs[b].tier.Rank()
    requires i < |jobs| && j < |jobs|
    requires jobs[i].tier.Rank() < jobs[j].tier.Rank()
    ensures i < j
  {
  }

  /** A linked parent of a scheduled row is attempted earlier, in a lower tier. */
  lemma ParentAttemptedFirst(project: string, rows: seq<RawRow>, create: Request -> Option<Key>, j: nat)
    requires j < |Run(project, rows, create)|
    requires RowOf(Run(project, rows, create)[j]) in RunLinks(rows)
    ensures var trace := Run(project, rows, create);
            var links := RunLinks(rows);
            exists i :: 0 <= i < j && RowOf(trace[i]) == links[RowOf(trace[j])]
                     && TierOf(trace[i]).Rank() < TierOf(trace[j]).Rank()
  {
    var jobs := RunJobs(rows);
    var trace := Run(project, rows, create);
    RunOrder(project, rows, create);
    TraceGuarantees(project, RunLinks(rows), map[], create, trace, jobs);
    ParentJobFirst(rows, j);
  }

  // ---------------------------------------------------------------------
  // Parent keys of a run

  /** When exactly one earlier event is about the parent row, the parent key
      the map offers is that event's key if it created an issue, and none
      otherwise. */
  lemma ParentKeyFromItsEvent(links: map<nat, nat>, trace: seq<Event>, row: nat, i: nat, j: nat)
    requires i < j <= |trace|
    requires row in links && RowOf(trace[i]) == links[row]
    requires forall k :: 0 <= k < j && k != i ==> RowOf(trace[k]) != links[row]
    ensures ParentKey(links, Replay(map[], trace[..j]), row)
            == if trace[i].Created? then Some(trace[i].key) else None
  {
    var before := trace[..j];
    var c := Replay(map[], before);
    ReplayRecords(map[], before);
    assert before[i] == trace[i];
    if links[row] in c {
      var k :| 0 <= k < |before| && before[k].Created? && before[k].request.rowId == links[row]
               && before[k].key == c[links[row]];
      assert RowOf(trace[k]) == links[row];
    }
  }

  /** The guarantee of the tiered import. A row linked to a parent has the
      parent attempted earlier, in a lower tier; when that attempt created an
      issue, the row is sent with the created key as its parent; when it did
      not, a sub-task is skipped and a story or task is sent without parent.
      A row without a link is sent without parent, or skipped if a sub-task. */
  lemma RunParents(project: string, rows: seq<RawRow>, create: Request -> Option<Key>, j: nat)
    requires j < |Run(project, rows, create)|
    ensures var trace := Run(project, rows, create);
            var links := RunLinks(rows);
            var row := RowOf(trace[j]);
            && (row !in links ==>
                  if TierOf(trace[j]) == SubTask then trace[j].Skipped?
                  else trace[j].request.parent == None)
            && (row in links ==>
                  exists i :: 0 <= i < j && RowOf(trace[i]) == links[row]
                      && TierOf(trace[i]).Rank() < TierOf(trace[j]).Rank()
                      && (trace[i].Created? ==>
                            !trace[j].Skipped? && trace[j].request.parent == Some(trace[i].key))
                      && (!trace[i].Created? ==>
                            if TierOf(trace[j]) == SubTask then trace[j].Skipped?
                            else trace[j].request.parent == None))
  {
    var links := RunLinks(rows);
    var trace := Run(project, rows, create);
    var row := RowOf(trace[j]);
    if row in links {
      ParentAttemptedFirst(project, rows, create, j);
      var i :| 0 <= i < j && RowOf(trace[i]) == links[row]
               && TierOf(trace[i]).Rank() < TierOf(trace[j]).Rank();
      LinkedParentOutcome(project, rows, create, i, j);
    } else {
      UnlinkedOutcome(project, rows, create, j);
    }
  }

  /** A row without a link is created without a parent, or skipped if it is a sub-task. */
  lemma UnlinkedOutcome(project: string, rows: seq<RawRow>, create: Request -> Option<Key>, j: nat)
    requires j < |Run(project, rows, create)|
    requires RowOf(Run(project, rows, create)[j]) !in RunLinks(rows)
    ensures var e := Run(project, rows, create)[j];
            if TierOf(e) == SubTask then e.Skipped? else e.request.parent == None
  {
    var links := RunLinks(rows);
    var jobs := RunJobs(rows);
    var trace := Run(project, rows, create);
    RunOrder(project, rows, create);
    TraceGuarantees(project, links, map[], create, trace, jobs);
    AttemptFacts(project, jobs[j].tier, jobs[j].item, links, Replay(map[], trace[..j]), create);
  }

  /** A row linked to the row of an earlier event `i` of a lower tier
      carries the key that event created, or, when it created none, has no
      parent or is skipped. */
  lemma LinkedParentOutcome(project: string, rows: seq<RawRow>, create: Request -> Option<Key>,
                            i: nat, j: nat)
    requires i < j < |Run(project, rows, create)|
    requires RowOf(Run(project, rows, create)[j]) in RunLinks(rows)
    requires RowOf(Run(project, rows, create)[i]) == RunLinks(rows)[RowOf(Run(project, rows, create)[j])]
    requires TierOf(Run(project, rows, create)[i]).Rank() < TierOf(Run(project, rows, create)[j]).Rank()
    ensures var trace := Run(project, rows, create);
            && (trace[i].Created? ==>
                  !trace[j].Skipped? && trace[j].request.parent == Some(trace[i].key))
            && (!trace[i].Created? ==>
                  if TierOf(trace[j]) == SubTask then trace[j].Skipped?
                  else trace[j].request.parent == None)
  {
    var links := RunLinks(rows);
    var jobs := RunJobs(rows);
    var trace := Run(project, rows, create);
    var row := RowOf(trace[j]);
    RunRowsDistinct(project, rows, create);
    ParentKeyFromItsEvent(links, trace, row, i, j);
    RunEventAt(project, rows, create, i);
    RunEventAt(project, rows, create, j);
    AttemptFacts(project, jobs[i].tier, jobs[i].item, links, Replay(map[], trace[..i]), create);
    AttemptFacts(project, jobs[j].tier, jobs[j].item, links, Replay(map[], trace[..j]), create);
  }

  /** Each event of a run is the attempt of its job against the keys the
      events before it recorded. */
  lemma RunEventAt(project: string, rows: seq<RawRow>, create: Request -> Option<Key>, j: nat)
    requires j < |Run(project, rows, create)|
    ensures var trace := Run(project, rows, create);
            var jobs := RunJobs(rows);
            && j < |jobs|
            && trace[j] == Attempt(project, jobs[j].tier, jobs[j].item, RunLinks(rows),
                                   Replay(map[], trace[..j]), create)
  {
    RunOrder(project, rows, create);
  }

  /** No row is attempted twice in a run. */
  lemma RunRowsDistinct(project: string, rows: seq<RawRow>, create: Request -> Option<Key>)
    ensures var trace := Run(project, rows, create);
            forall a, b :: 0 <= a < b < |trace| ==> RowOf(trace[a]) != RowOf(trace[b])
  {
    var trace := Run(project, rows, create);
    RunOrder(project, rows, create);
    TraceGuarantees(project, RunLinks(rows), map[], create, trace, RunJobs(rows));
    RunJobsDistinct(rows);
  }


}
