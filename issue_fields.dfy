/**
  The per-row shaping of an issue-creation request: labels from the tags
  cell, the priority, and whether a parent key is attached.
*/
module IssueFields {
  import opened Wrappers
  import opened Text
  import opened WorkItems

  /** An issue key handed out by the tracker, such as "PROJ-12". */
  type Key = string

  /** A key counts as present when there is one and it is not empty. */
  predicate Present(key: Option<Key>) {
    key.Some? && key.value != ""
  }

  // ---------------------------------------------------------------------
  // Labels

  /** Strips each fragment, drops the empty ones and replaces the spaces
      left inside by underscores, keeping the order. */
  function CleanLabels(fragments: seq<string>): (r: seq<string>) {
    if fragments == [] then []
    else
      var t := Strip(fragments[0]);
      (if t == "" then [] else [Replace(t, ' ', '_')]) + CleanLabels(fragments[1..])
  }

  /** The labels of a tags cell: its `;`-separated fragments, cleaned. */
  function Labels(tags: string): (r: seq<string>) {
    if tags == "" then [] else CleanLabels(Split(tags, ';'))
  }

  /** What the tracker accepts as a label: not empty, no whitespace at
      either end, no space and no `;`. */
  predicate WellFormedLabel(l: string) {
    l != "" && NoSpaceAtEnds(l) && ' ' !in l && ';' !in l
  }

  /** A cleaned fragment is a well-formed label. */
  lemma CleanFragmentWellFormed(f: string)
    requires ';' !in f
    requires Strip(f) != ""
    ensures WellFormedLabel(Replace(Strip(f), ' ', '_'))
  {
    var t := Strip(f);
    StripIsInfix(f);
    var i, j :| 0 <= i <= j <= |f| && t == f[i..j];
    assert ';' !in t by {
      forall k | 0 <= k < |t| ensures t[k] != ';' {
        assert t[k] == f[i + k];
      }
    }
    var r := Replace(t, ' ', '_');
    ReplaceSpec(t, ' ', '_');
    assert forall k :: 0 <= k < |r| ==> r[k] != ' ' && r[k] != ';';
  }

  /** Every cleaned label is well formed, and there are no more labels than fragments. */
  lemma {:induction false} CleanLabelsWellFormed(fragments: seq<string>)
    requires forall k :: 0 <= k < |fragments| ==> ';' !in fragments[k]
    ensures |CleanLabels(fragments)| <= |fragments|
    ensures forall k :: 0 <= k < |CleanLabels(fragments)| ==> WellFormedLabel(CleanLabels(fragments)[k])
  {
    if fragments != [] {
      CleanLabelsWellFormed(fragments[1..]);
      if Strip(fragments[0]) != "" {
        CleanFragmentWellFormed(fragments[0]);
      }
    }
  }

  /** Every label taken from a tags cell is well formed. */
  lemma LabelsWellFormed(tags: string)
    ensures forall k :: 0 <= k < |Labels(tags)| ==> WellFormedLabel(Labels(tags)[k])
  {
    if tags != "" {
      CleanLabelsWellFormed(Split(tags, ';'));
    }
  }

  /** Well-formed labels are left as they are by cleaning. */
  lemma {:induction false} CleanLabelsKeeps(labels: seq<string>)
    requires forall k :: 0 <= k < |labels| ==> WellFormedLabel(labels[k])
    ensures CleanLabels(labels) == labels
  {
    if labels != [] {
      var l := labels[0];
      StripKeeps(l);
      ReplaceSpec(l, ' ', '_');
      assert Replace(l, ' ', '_') == l;
      CleanLabelsKeeps(labels[1..]);
      assert labels == [l] + labels[1..];
    }
  }

  /** Writing well-formed labels into a tags cell, separated by `;`, and
      reading them back gives the same labels. */
  lemma LabelsRoundTrip(labels: seq<string>)
    requires forall k :: 0 <= k < |labels| ==> WellFormedLabel(labels[k])
    ensures Labels(Join(labels, ';')) == labels
  {
    if labels != [] {
      SplitJoin(labels, ';');
      CleanLabelsKeeps(labels);
      assert Join(labels, ';') != "" by {
        if |labels| > 1 {
          assert Join(labels, ';') == labels[0] + [';'] + Join(labels[1..], ';');
        }
      }
    }
  }

  /** The tags `"UI; needs review ; "` give the labels `UI` and `needs_review`:
      fragments are stripped, the blank one is dropped and inner spaces
      become underscores. */
  lemma LabelsExample()
    ensures Labels("UI; needs review ; ") == ["UI", "needs_review"]
  {
    SplitExample();
    CleanExample();
    LabelsOfFragments("UI; needs review ; ", ["UI", " needs review ", " "], ["UI", "needs_review"]);
  }

  /** The labels of a non-empty tags cell are the cleaned fragments of its split. */
  lemma LabelsOfFragments(tags: string, fragments: seq<string>, labels: seq<string>)
    requires tags != [] && Split(tags, ';') == fragments && CleanLabels(fragments) == labels
    ensures Labels(tags) == labels
  {
  }

  lemma CleanExample()
    ensures CleanLabels(["UI", " needs review ", " "]) == ["UI", "needs_review"]
  {
    StripKeeps("UI");
    assert Replace("UI", ' ', '_') == "UI";
    CleanExampleTail();
    assert ["UI", " needs review ", " "][1..] == [" needs review ", " "];
  }

  lemma CleanExampleTail()
    ensures CleanLabels([" needs review ", " "]) == ["needs_review"]
  {
    StripExample();
    ReplaceExample();
    CleanBlankExample();
    assert [" needs review ", " "][1..] == [" "];
  }

  lemma CleanBlankExample()
    ensures CleanLabels([" "]) == []
  {
    StripIsInfix(" ");
  }

  lemma SplitExample()
    ensures Split("UI; needs review ; ", ';') == ["UI", " needs review ", " "]
  {
    var fragments := ["UI", " needs review ", " "];
    SplitJoin(fragments, ';');
    assert Join(fragments[2..], ';') == " ";
    assert Join(fragments[1..], ';') == " needs review ; ";
    assert Join(fragments, ';') == "UI; needs review ; ";
  }

  lemma StripExample()
    ensures Strip(" needs review ") == "needs review"
  {
    assert LeadingSpaces(" needs review ") == 1;
    assert " needs review "[1..] == "needs review ";
    assert TrailingStart("needs review ") == 12;
  }

  lemma ReplaceExample()
    ensures Replace("needs review", ' ', '_') == "needs_review"
  {
    ReplaceJoined("needs", "review");
    assert "needs" + [' '] + "review" == "needs review";
    assert "needs" + ['_'] + "review" == "needs_review";
  }

  /** Two space-free words joined by a space become one label joined by an
      underscore. */
  lemma ReplaceJoined(u: string, v: string)
    requires ' ' !in u && ' ' !in v
    ensures Replace(u + [' '] + v, ' ', '_') == u + ['_'] + v
  {
    var w := [' '] + v;
    ReplaceAbsent(v, ' ', '_');
    assert Replace(w, ' ', '_') == ['_'] + v by {
      assert w[0] == ' ';
      assert w[1..] == v;
    }
    ReplaceAbsent(u, ' ', '_');
    ReplaceAppend(u, w, ' ', '_');
    assert u + [' '] + v == u + w;
    assert u + ['_'] + v == u + (['_'] + v);
  }

  // ---------------------------------------------------------------------
  // Priority

  const ValidPriorities: seq<string> := ["Critical", "Trivial", "High", "Low", "Medium"]

  const DefaultPriority: string := "Medium"

  /** The priority sent with a request: the stripped cell when it names a
      valid priority, compared case-sensitively, and the default otherwise. */
  function ChoosePriority(priority: string): (r: string)
    ensures r in ValidPriorities
    ensures r == priority <==> priority in ValidPriorities
    ensures priority !in ValidPriorities ==> r == DefaultPriority
  {
    if priority != "" && priority in ValidPriorities then priority else DefaultPriority
  }

  /** Choosing is idempotent, and it is case-sensitive. */
  lemma ChoosePriorityExamples()
    ensures forall p :: ChoosePriority(ChoosePriority(p)) == ChoosePriority(p)
    ensures ChoosePriority("High") == "High"
    ensures ChoosePriority("high") == DefaultPriority
    ensures ChoosePriority("") == DefaultPriority
  {
    assert "high" != "High";
    assert "high" !in ValidPriorities;
  }

  /** A priority cell ending in a unit separator (U+001F) is stripped to a
      valid priority and sent as it is. */
  lemma SeparatorPriorityExample()
    ensures Strip("High\U{1F}") == "High"
    ensures ChoosePriority(Strip("High\U{1F}")) == "High"
  {
    assert LeadingSpaces("High\U{1F}") == 0;
    assert "High\U{1F}"[..4] == "High";
    assert TrailingStart("High\U{1F}") == 4;
  }

  // ---------------------------------------------------------------------
  // Parent field and request

  /** The parent key attached to a request: a present key, for a story,
      task or sub-task; an epic is never given a parent. */
  function ParentField(issueType: Tier, parentKey: Option<Key>): (r: Option<Key>)
    ensures r.Some? <==> issueType != Epic && Present(parentKey)
    ensures r.Some? ==> r == parentKey && r.value != ""
  {
    if !Present(parentKey) then None
    else match issueType
      case SubTask => parentKey
      case Story | Task => parentKey
      case Epic => None
  }

  /** The fields of one issue-creation request. */
  datatype Request = Request(
    project: string,
    rowId: nat,
    issueType: Tier,
    summary: string,
    description: string,
    labels: seq<string>,
    priority: string,
    parent: Option<Key>)

  /** Shapes the request for one work item; absent cells read as the
      defaults the reader would use. */
  function BuildRequest(project: string, item: WorkItem, issueType: Tier,
                        parentKey: Option<Key>): (r: Request)
    ensures r.rowId == item.id && r.issueType == issueType && r.project == project
    ensures forall k :: 0 <= k < |r.labels| ==> WellFormedLabel(r.labels[k])
    ensures r.priority in ValidPriorities
    ensures r.parent == ParentField(issueType, parentKey)
  {
    LabelsWellFormed(Get(item.fields, "Tags", ""));
    Request(
      project,
      item.id,
      issueType,
      Get(item.fields, "Title", "Untitled"),
      Get(item.fields, "Description", ""),
      Labels(Get(item.fields, "Tags", "")),
      ChoosePriority(Strip(Get(item.fields, "Priority", ""))),
      ParentField(issueType, parentKey))
  }
}
