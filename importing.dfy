/**
  The sequenced import as a specification. The tracker's create call is an
  oracle `create` fixed up front; each row's attempt is recorded as an
  event (created with a key, failed, or skipped without calling create),
  and the map from row id to created key is a replay of those events.
*/
module Importing {
  import opened Wrappers
  import opened WorkItems
  import opened Hierarchy
  import opened IssueFields

  /** What happened to one row. */
  datatype Event =
    | Created(request: Request, key: Key)   // create was called and returned a key
    | Failed(request: Request)              // create was called and returned none
    | Skipped(rowId: nat)                   // a sub-task with no parent key: create not called

  function RowOf(e: Event): (r: nat) {
    if e.Skipped? then e.rowId else e.request.rowId
  }

  function TierOf(e: Event): (r: Tier) {
    if e.Skipped? then SubTask else e.request.issueType
  }

  /** The created-issue map after recording the events in order: a created
      row maps to its key, a failed or skipped row changes nothing. */
  function Replay(created: map<nat, Key>, trace: seq<Event>): (r: map<nat, Key>) {
    if trace == [] then created
    else
      var m := Replay(created, trace[..|trace| - 1]);
      var e := trace[|trace| - 1];
      if e.Created? then m[e.request.rowId := e.key] else m
  }

  /** The key of the row's linked parent, when that parent has been created. */
  function ParentKey(links: map<nat, nat>, created: map<nat, Key>, id: nat): (r: Option<Key>) {
    if id in links && links[id] in created then Some(created[links[id]]) else None
  }

  /** One row's attempt in the given tier, against the current created map. */
  function Attempt(project: string, tier: Tier, item: WorkItem, links: map<nat, nat>,
                   created: map<nat, Key>, create: Request -> Option<Key>): (r: Event)
  {
    var parentKey := if tier == Epic then None else ParentKey(links, created, item.id);
    if tier == SubTask && !Present(parentKey) then Skipped(item.id)
    else
      var request := BuildRequest(project, item, tier, parentKey);
      var result := create(request);
      if Present(result) then Created(request, result.value) else Failed(request)
  }

  /** An attempt names its row and tier; it skips exactly a sub-task whose
      parent has no key yet, and otherwise sends the request built with the
      parent's key (none for an epic) and records a creation exactly when
      the tracker returns a key. */
  lemma AttemptFacts(project: string, tier: Tier, item: WorkItem, links: map<nat, nat>,
                     created: map<nat, Key>, create: Request -> Option<Key>)
    ensures var e := Attempt(project, tier, item, links, created, create);
            && RowOf(e) == item.id && TierOf(e) == tier
            && (e.Skipped? <==> tier == SubTask && !Present(ParentKey(links, created, item.id)))
            && (!e.Skipped? ==> e.request == BuildRequest(project, item, tier,
                                  if tier == Epic then None else ParentKey(links, created, item.id)))
            && (e.Created? <==> !e.Skipped? && Present(create(e.request)))
            && (e.Created? ==> create(e.request) == Some(e.key))
  {
  }

  /** The events of one tier, each row attempted in group order against the
      map left by the rows before it. */
  function TierEvents(project: string, tier: Tier, group: seq<WorkItem>, links: map<nat, nat>,
                      created: map<nat, Key>, create: Request -> Option<Key>): (r: seq<Event>)
  {
    if group == [] then []
    else
      var before := TierEvents(project, tier, group[..|group| - 1], links, created, create);
      before + [Attempt(project, tier, group[|group| - 1], links, Replay(created, before), create)]
  }

  /** One scheduled attempt: a row and the tier it is imported in. */
  datatype Job = Job(tier: Tier, item: WorkItem)

  function Jobs(tier: Tier, group: seq<WorkItem>): (r: seq<Job>)
    ensures |r| == |group|
    ensures forall i :: 0 <= i < |r| ==> r[i] == Job(tier, group[i])
  {
    if group == [] then [] else [Job(tier, group[0])] + Jobs(tier, group[1..])
  }

  /** The import order: all epics, then stories, then tasks, then sub-tasks,
      each group in its own order. */
  function Schedule(groups: Groups): (r: seq<Job>) {
    Jobs(Epic, groups.epics) + Jobs(Story, groups.stories)
    + Jobs(Task, groups.tasks) + Jobs(SubTask, groups.subtasks)
  }

  /** The whole import: the four tiers in order, each starting from the map
      the previous one left. */
  function ImportAll(project: string, groups: Groups, links: map<nat, nat>,
                     created: map<nat, Key>, create: Request -> Option<Key>): (r: seq<Event>)
  {
    var epics := TierEvents(project, Epic, groups.epics, links, created, create);
    var c1 := Replay(created, epics);
    var stories := TierEvents(project, Story, groups.stories, links, c1, create);
    var c2 := Replay(c1, stories);
    var tasks := TierEvents(project, Task, groups.tasks, links, c2, create);
    var c3 := Replay(c2, tasks);
    var subtasks := TierEvents(project, SubTask, groups.subtasks, links, c3, create);
    epics + stories + tasks + subtasks
  }

  // ---------------------------------------------------------------------
  // The created map

  /** Replaying a concatenation replays the parts one after the other. */
  lemma {:induction false} ReplayAppend(created: map<nat, Key>, a: seq<Event>, b: seq<Event>)
    ensures Replay(created, a + b) == Replay(Replay(created, a), b)
  {
    if b == [] {
      assert a + b == a;
    } else {
      var b' := b[..|b| - 1];
      ReplayAppend(created, a, b');
      assert (a + b)[..|a + b| - 1] == a + b';
      assert (a + b)[|a + b| - 1] == b[|b| - 1];
    }
  }

  /** The created map only gains; every row it holds either was there
      before with its old key or has a created event carrying its key; and
      every created event's row is in it. */
  lemma {:induction false} ReplayRecords(created: map<nat, Key>, trace: seq<Event>)
    ensures created.Keys <= Replay(created, trace).Keys
    ensures forall id :: id in Replay(created, trace) ==>
              || (id in created && Replay(created, trace)[id] == created[id])
              || (exists i :: 0 <= i < |trace| && trace[i].Created? && trace[i].request.rowId == id
                                && trace[i].key == Replay(created, trace)[id])
    ensures forall i :: 0 <= i < |trace| && trace[i].Created? ==> trace[i].request.rowId in Replay(created, trace)
  {
    if trace != [] {
      var prefix := trace[..|trace| - 1];
      ReplayRecords(created, prefix);
      forall id | id in Replay(created, trace)
        ensures || (id in created && Replay(created, trace)[id] == created[id])
                || (exists i :: 0 <= i < |trace| && trace[i].Created? && trace[i].request.rowId == id
                                  && trace[i].key == Replay(created, trace)[id])
      {
        var e := trace[|trace| - 1];
        if !(e.Created? && e.request.rowId == id) {
          if exists i :: 0 <= i < |prefix| && prefix[i].Created? && prefix[i].request.rowId == id
                          && prefix[i].key == Replay(created, prefix)[id] {
            var i :| 0 <= i < |prefix| && prefix[i].Created? && prefix[i].request.rowId == id
                     && prefix[i].key == Replay(created, prefix)[id];
            assert trace[i] == prefix[i];
          }
        }
      }
      forall i | 0 <= i < |trace| && trace[i].Created?
        ensures trace[i].request.rowId in Replay(created, trace)
      {
        if i < |prefix| { assert trace[i] == prefix[i]; }
      }
    }
  }

  /** A row is in the map afterwards exactly when it was before or one of
      its events is a creation. */
  lemma {:induction false} ReplayKeys(created: map<nat, Key>, trace: seq<Event>)
    ensures forall id :: id in Replay(created, trace) <==>
              id in created || exists i :: 0 <= i < |trace| && trace[i].Created? && trace[i].request.rowId == id
  {
    ReplayRecords(created, trace);
  }

  // ---------------------------------------------------------------------
  // Order of the attempts

  /** Each event of a tier is the attempt of the row at the same position,
      made against the map the earlier events of the tier left. */
  lemma {:induction false} TierEventsAttempts(project: string, tier: Tier, group: seq<WorkItem>,
                                              links: map<nat, nat>, created: map<nat, Key>,
                                              create: Request -> Option<Key>)
    ensures var t := TierEvents(project, tier, group, links, created, create);
            && |t| == |group|
            && forall i :: 0 <= i < |t| ==>
                 t[i] == Attempt(project, tier, group[i], links, Replay(created, t[..i]), create)
  {
    if group != [] {
      var n := |group| - 1;
      var prefix := group[..n];
      TierEventsAttempts(project, tier, prefix, links, created, create);
      var before := TierEvents(project, tier, prefix, links, created, create);
      var last := Attempt(project, tier, group[n], links, Replay(created, before), create);
      SnocPrefixes(before, last);
    }
  }

  lemma SnocPrefixes(before: seq<Event>, last: Event)
    ensures var t := before + [last];
            && t[..|before|] == before
            && forall i :: 0 <= i < |before| ==> t[i] == before[i] && t[..i] == before[..i]
  {
    var t := before + [last];
    forall i | 0 <= i < |before|
      ensures t[..i] == before[..i]
    {
      assert t[..i] == t[..|before|][..i];
    }
  }

  /** Tiers never go backwards along the schedule. */
  lemma ScheduleOrder(groups: Groups)
    ensures forall i, j :: 0 <= i < j < |Schedule(groups)| ==>
              Schedule(groups)[i].tier.Rank() <= Schedule(groups)[j].tier.Rank()
    ensures forall i :: 0 <= i < |groups.epics| ==> Schedule(groups)[i] == Job(Epic, groups.epics[i])
  {
  }

  /** Every event of a trace is the attempt of the job at its position,
      made against the map that the events before it left. */
  predicate Follows(project: string, links: map<nat, nat>, created: map<nat, Key>,
                    create: Request -> Option<Key>, trace: seq<Event>, jobs: seq<Job>)
  {
    && |trace| == |jobs|
    && forall j :: 0 <= j < |trace| ==>
         trace[j] == Attempt(project, jobs[j].tier, jobs[j].item, links,
                             Replay(created, trace[..j]), create)
  }

  /** The whole import attempts every scheduled job once, in schedule order,
      each against the map that all earlier events left. */
  lemma ImportAllAttempts(project: string, groups: Groups, links: map<nat, nat>,
                          created: map<nat, Key>, create: Request -> Option<Key>)
    ensures Follows(project, links, created, create,
                    ImportAll(project, groups, links, created, create), Schedule(groups))
  {
    var epics := TierEvents(project, Epic, groups.epics, links, created, create);
    var c1 := Replay(created, epics);
    var stories := TierEvents(project, Story, groups.stories, links, c1, create);
    var c2 := Replay(c1, stories);
    var tasks := TierEvents(project, Task, groups.tasks, links, c2, create);
    var c3 := Replay(c2, tasks);
    var subtasks := TierEvents(project, SubTask, groups.subtasks, links, c3, create);
    TierEventsAttempts(project, Epic, groups.epics, links, created, create);
    TierEventsAttempts(project, Story, groups.stories, links, c1, create);
    TierEventsAttempts(project, Task, groups.tasks, links, c2, create);
    TierEventsAttempts(project, SubTask, groups.subtasks, links, c3, create);
    var j1 := Jobs(Epic, groups.epics);
    var j2 := Jobs(Story, groups.stories);
    var j3 := Jobs(Task, groups.tasks);
    var j4 := Jobs(SubTask, groups.subtasks);
    assert Follows(project, links, created, create, epics, j1);
    FollowsAppend(project, links, created, create, epics, j1, stories, j2);
    ReplayAppend(created, epics, stories);
    FollowsAppend(project, links, created, create, epics + stories, j1 + j2, tasks, j3);
    ReplayAppend(created, epics + stories, tasks);
    FollowsAppend(project, links, created, create, epics + stories + tasks, j1 + j2 + j3, subtasks, j4);
  }

  /** A trace that follows its jobs, extended by events that follow theirs
      from the map it leaves, follows the concatenated jobs. */
  lemma FollowsAppend(project: string, links: map<nat, nat>, created: map<nat, Key>,
                      create: Request -> Option<Key>, done: seq<Event>, doneJobs: seq<Job>,
                      t: seq<Event>, jobs: seq<Job>)
    requires Follows(project, links, created, create, done, doneJobs)
    requires Follows(project, links, Replay(created, done), create, t, jobs)
    ensures Follows(project, links, created, create, done + t, doneJobs + jobs)
  {
    var all := done + t;
    var allJobs := doneJobs + jobs;
    forall j | 0 <= j < |all|
      ensures all[j] == Attempt(project, allJobs[j].tier, allJobs[j].item, links,
                                Replay(created, all[..j]), create)
    {
      if j < |done| {
        assert all[..j] == done[..j];
        assert all[j] == done[j] && allJobs[j] == doneJobs[j];
      } else {
        var i := j - |done|;
        assert all[..j] == done + t[..i];
        ReplayAppend(created, done, t[..i]);
        assert all[j] == t[i] && allJobs[j] == jobs[i];
      }
    }
  }

  // ---------------------------------------------------------------------
  // What every attempt of a trace guarantees

  /** Along a trace that follows its jobs: each event is about its job's row
      and tier; an epic is never skipped and never gets a parent; a story or
      task is never skipped; a sub-task is skipped exactly when its parent
      has no key yet, and a sub-task that is sent always carries a parent key. */
  lemma {:induction false} TraceGuarantees(project: string, links: map<nat, nat>, created: map<nat, Key>,
                                           create: Request -> Option<Key>, trace: seq<Event>, jobs: seq<Job>)
    requires Follows(project, links, created, create, trace, jobs)
    ensures forall j :: 0 <= j < |trace| ==>
              && RowOf(trace[j]) == jobs[j].item.id
              && TierOf(trace[j]) == jobs[j].tier
              && (jobs[j].tier == Epic ==> !trace[j].Skipped? && trace[j].request.parent == None)
              && (jobs[j].tier in {Story, Task} ==> !trace[j].Skipped?)
              && (trace[j].Skipped? <==>
                    jobs[j].tier == SubTask
                    && !Present(ParentKey(links, Replay(created, trace[..j]), jobs[j].item.id)))
              && (jobs[j].tier == SubTask && !trace[j].Skipped? ==> Present(trace[j].request.parent))
  {
    forall j | 0 <= j < |trace|
      ensures && RowOf(trace[j]) == jobs[j].item.id
              && TierOf(trace[j]) == jobs[j].tier
              && (jobs[j].tier == Epic ==> !trace[j].Skipped? && trace[j].request.parent == None)
              && (jobs[j].tier in {Story, Task} ==> !trace[j].Skipped?)
              && (trace[j].Skipped? <==>
                    jobs[j].tier == SubTask
                    && !Present(ParentKey(links, Replay(created, trace[..j]), jobs[j].item.id)))
              && (jobs[j].tier == SubTask && !trace[j].Skipped? ==> Present(trace[j].request.parent))
    {
      AttemptFacts(project, jobs[j].tier, jobs[j].item, links, Replay(created, trace[..j]), create);
    }
  }

  /** A request of a trace that starts from no created issues carries a
      parent key only when an earlier event of the trace created the row's
      linked parent, and the key is the one that event received. */
  lemma {:induction false} ParentCreatedBefore(project: string, links: map<nat, nat>,
                                               create: Request -> Option<Key>,
                                               trace: seq<Event>, jobs: seq<Job>)
    requires Follows(project, links, map[], create, trace, jobs)
    ensures forall j :: 0 <= j < |trace| && !trace[j].Skipped? && trace[j].request.parent.Some? ==>
              && RowOf(trace[j]) in links
              && exists i :: 0 <= i < j && trace[i].Created?
                            && trace[i].request.rowId == links[RowOf(trace[j])]
                            && trace[i].key == trace[j].request.parent.value
  {
    forall j | 0 <= j < |trace| && !trace[j].Skipped? && trace[j].request.parent.Some?
      ensures && RowOf(trace[j]) in links
              && exists i :: 0 <= i < j && trace[i].Created?
                            && trace[i].request.rowId == links[RowOf(trace[j])]
                            && trace[i].key == trace[j].request.parent.value
    {
      var before := trace[..j];
      var c := Replay(map[], before);
      AttemptFacts(project, jobs[j].tier, jobs[j].item, links, c, create);
      ReplayRecords(map[], before);
      var id := jobs[j].item.id;
      var p := links[id];
      var i :| 0 <= i < |before| && before[i].Created? && before[i].request.rowId == p
               && before[i].key == c[p];
      assert trace[i] == before[i];
    }
  }
}
