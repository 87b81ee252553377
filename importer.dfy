/**
  The importer object: it keeps the child-to-parent links found by the
  organizer and the keys of the issues created so far, and runs the reader,
  the organizer and the four tier loops over them. Each method is proved
  against the specification functions of the other modules.
*/
module Importer {
  import opened Wrappers
  import opened Text
  import opened WorkItems
  import opened Hierarchy
  import opened IssueFields
  import opened Importing
  import opened ImportRun

  class JiraImporter {
    const projectKey: string
    /** Row id to the key of the issue created for it. */
    var createdIssues: map<nat, Key>
    /** Child row id to parent row id. */
    var relationships: map<nat, nat>

    constructor (projectKey: string)
      ensures this.projectKey == projectKey
      ensures createdIssues == map[] && relationships == map[]
    {
      this.projectKey := projectKey;
      createdIssues := map[];
      relationships := map[];
    }

    /** Numbers the rows from 1 and keeps the ones whose type cell is present
        and not blank. */
    method ReadCsv(rows: seq<RawRow>) returns (items: seq<WorkItem>)
      ensures items == Intake(rows)
    {
      items := [];
      var idx := 0;
      while idx < |rows|
        invariant 0 <= idx <= |rows|
        invariant items == Intake(rows[..idx])
      {
        var row := rows[idx];
        assert rows[..idx + 1][..idx] == rows[..idx];
        if TypeColumn in row.fields {
          StripIsInfix(row.fields[TypeColumn]);
          if Strip(row.fields[TypeColumn]) != "" {
            items := items + [WorkItem(idx + 1, row.fields)];
          }
        }
        idx := idx + 1;
      }
      assert rows[..idx] == rows;
    }

    /** Sorts the items into the four tiers and records each story's and
        task's epic and each sub-task's story or task. */
    method OrganizeWorkItems(items: seq<WorkItem>) returns (organized: Groups)
      modifies this
      ensures organized == Organize(items).groups
      ensures relationships == old(relationships) + Organize(items).links
      ensures createdIssues == old(createdIssues)
    {
      organized := NoGroups;
      var currentEpic: Option<nat> := None;
      var currentParent: Option<nat> := None;
      var i := 0;
      while i < |items|
        invariant 0 <= i <= |items|
        invariant Organize(items[..i]) == Scan(currentEpic, currentParent, organized,
                                               Organize(items[..i]).links)
        invariant relationships == old(relationships) + Organize(items[..i]).links
        invariant createdIssues == old(createdIssues)
      {
        var item := items[i];
        assert items[..i + 1][..i] == items[..i];
        var workType := Lower(Strip(Get(item.fields, TypeColumn, "")));
        ghost var links := Organize(items[..i]).links;
        if workType == "epic" {
          currentEpic := Some(item.id);
          currentParent := None;
          organized := organized.Add(Epic, item);
        } else if workType == "story" {
          currentParent := Some(item.id);
          organized := organized.Add(Story, item);
          if currentEpic.Some? {
            relationships := relationships[item.id := currentEpic.value];
            MergeUpdate(old(relationships), links, item.id, currentEpic.value);
          }
        } else if workType == "task" {
          currentParent := Some(item.id);
          organized := organized.Add(Task, item);
          if currentEpic.Some? {
            relationships := relationships[item.id := currentEpic.value];
            MergeUpdate(old(relationships), links, item.id, currentEpic.value);
          }
        } else if workType == "sub-task" || workType == "subtask" {
          organized := organized.Add(SubTask, item);
          if currentParent.Some? {
            relationships := relationships[item.id := currentParent.value];
            MergeUpdate(old(relationships), links, item.id, currentParent.value);
          }
        }
        i := i + 1;
      }
      assert items[..i] == items;
    }

    /** Builds the creation request for one row and hands it to the
        tracker; the answer is the key of the new issue, if any. */
    method CreateJiraIssue(item: WorkItem, issueType: Tier, parentKey: Option<Key>,
                           create: Request -> Option<Key>)
      returns (request: Request, key: Option<Key>)
      ensures request == BuildRequest(projectKey, item, issueType, parentKey)
      ensures request.parent.Some? <==> issueType != Epic && Present(parentKey)
      ensures key == create(request)
    {
      request := BuildRequest(projectKey, item, issueType, parentKey);
      key := create(request);
    }

    /** One row of a tier loop: look up the parent's key through the recorded
        link, skip a sub-task that has none, otherwise create the issue and
        record its key when the tracker returns one. */
    method ImportRow(tier: Tier, item: WorkItem, create: Request -> Option<Key>)
      returns (e: Event)
      modifies this
      ensures e == Attempt(projectKey, tier, item, relationships, old(createdIssues), create)
      ensures createdIssues == if e.Created? then old(createdIssues)[item.id := e.key] else old(createdIssues)
      ensures relationships == old(relationships)
    {
      var parentKey: Option<Key> := None;
      if tier != Epic && item.id in relationships {
        var parentId := relationships[item.id];
        if parentId in createdIssues {
          parentKey := Some(createdIssues[parentId]);
        }
      }
      if tier == SubTask && !(parentKey.Some? && parentKey.value != "") {
        e := Skipped(item.id);
      } else {
        var request, key := CreateJiraIssue(item, tier, parentKey, create);
        if key.Some? && key.value != "" {
          createdIssues := createdIssues[item.id := key.value];
          e := Created(request, key.value);
        } else {
          e := Failed(request);
        }
      }
    }

    /** Imports one tier's group in order, each row against the keys
        recorded by the rows before it. */
    method ImportTier(tier: Tier, group: seq<WorkItem>, create: Request -> Option<Key>)
      returns (events: seq<Event>)
      modifies this
      ensures events == TierEvents(projectKey, tier, group, relationships, old(createdIssues), create)
      ensures createdIssues == Replay(old(createdIssues), events)
      ensures relationships == old(relationships)
    {
      events := [];
      var i := 0;
      while i < |group|
        invariant 0 <= i <= |group|
        invariant events == TierEvents(projectKey, tier, group[..i], relationships, old(createdIssues), create)
        invariant createdIssues == Replay(old(createdIssues), events)
        invariant relationships == old(relationships)
      {
        ghost var before := createdIssues;
        var e := ImportRow(tier, group[i], create);
        AttemptFacts(projectKey, tier, group[i], relationships, before, create);
        TierEventsSnoc(projectKey, tier, group, relationships, old(createdIssues), create, i);
        ReplaySnoc(old(createdIssues), events, e);
        events := events + [e];
        i := i + 1;
      }
      assert group[..i] == group;
    }

    /** The whole import: read, organize, then epics, stories, tasks and
        sub-tasks, each tier seeing the keys the earlier ones recorded. On a
        fresh importer this is the run of `ImportRun.Run`. */
    method ImportWorkItems(rows: seq<RawRow>, create: Request -> Option<Key>)
      returns (trace: seq<Event>)
      modifies this
      ensures relationships == old(relationships) + RunLinks(rows)
      ensures trace == ImportAll(projectKey, Organize(Intake(rows)).groups, relationships,
                                 old(createdIssues), create)
      ensures createdIssues == Replay(old(createdIssues), trace)
      ensures old(relationships) == map[] && old(createdIssues) == map[] ==>
                trace == Run(projectKey, rows, create)
    {
      var items := ReadCsv(rows);
      var organized := OrganizeWorkItems(items);
      ghost var c0 := createdIssues;
      var epics := ImportTier(Epic, organized.epics, create);
      ghost var c1 := createdIssues;
      var stories := ImportTier(Story, organized.stories, create);
      ghost var c2 := createdIssues;
      var tasks := ImportTier(Task, organized.tasks, create);
      ghost var c3 := createdIssues;
      var subtasks := ImportTier(SubTask, organized.subtasks, create);
      trace := epics + stories + tasks + subtasks;
      ReplayAppend(c0, epics, stories);
      ReplayAppend(c0, epics + stories, tasks);
      ReplayAppend(c0, epics + stories + tasks, subtasks);
      assert map[] + RunLinks(rows) == RunLinks(rows);
    }
  }

  lemma TierEventsSnoc(project: string, tier: Tier, group: seq<WorkItem>, links: map<nat, nat>,
                       created: map<nat, Key>, create: Request -> Option<Key>, i: nat)
    requires i < |group|
    ensures var before := TierEvents(project, tier, group[..i], links, created, create);
            TierEvents(project, tier, group[..i + 1], links, created, create)
            == before + [Attempt(project, tier, group[i], links, Replay(created, before), create)]
  {
    assert group[..i + 1][..i] == group[..i];
  }

  lemma ReplaySnoc(created: map<nat, Key>, trace: seq<Event>, e: Event)
    ensures Replay(created, trace + [e])
            == if e.Created? then Replay(created, trace)[e.request.rowId := e.key] else Replay(created, trace)
  {
    assert (trace + [e])[..|trace|] == trace;
  }

  /** Updating a merged map is updating its right-hand side. */
  lemma MergeUpdate(base: map<nat, nat>, links: map<nat, nat>, k: nat, v: nat)
    ensures (base + links)[k := v] == base + links[k := v]
  {
  }
}
