// The `leadScoreData` aggregation of getAnalyticsData (src/lib/actions.ts):
// one row per stage name met among the visits, in order of first appearance,
// each counting its visits; then a zero row for each of the three stages
// still missing. A visit without a stage counts as 'Researching'.

module LeadFunnel {
  import opened Seqs

  datatype FunnelEntry = FunnelEntry(name: string, value: nat)

  const AllStages: seq<string> := ["Hot Now", "Researching", "Just Looking"]

  /** `visit.stage || 'Researching'`; the empty text stands for any falsy stage. */
  function EffectiveStage(stage: string): string {
    if stage == "" then "Researching" else stage
  }

  function EffectiveStages(stages: seq<string>): (r: seq<string>)
    ensures |r| == |stages|
    ensures forall i :: 0 <= i < |stages| ==> r[i] == EffectiveStage(stages[i])
  {
    seq(|stages|, i requires 0 <= i < |stages| => EffectiveStage(stages[i]))
  }

  /** How many of `names` are `name`. */
  function Count(names: seq<string>, name: string): nat
    decreases |names|
  {
    if names == [] then 0
    else Count(names[..|names| - 1], name) + (if names[|names| - 1] == name then 1 else 0)
  }

  /** The distinct names, in order of first appearance. */
  function FirstAppearances(names: seq<string>): (r: seq<string>)
    ensures NoDuplicates(r)
    ensures forall i :: 0 <= i < |names| ==> names[i] in r
    ensures forall k :: 0 <= k < |r| ==> r[k] in names
    decreases |names|
  {
    if names == [] then []
    else
      var earlier := FirstAppearances(names[..|names| - 1]);
      var last := names[|names| - 1];
      if last in earlier then earlier else earlier + [last]
  }

  /** One row per label, counting the names equal to it. */
  function Entries(names: seq<string>, labels: seq<string>): (r: seq<FunnelEntry>)
    ensures |r| == |labels|
    ensures forall k :: 0 <= k < |labels| ==> r[k] == FunnelEntry(labels[k], Count(names, labels[k]))
  {
    seq(|labels|, k requires 0 <= k < |labels| => FunnelEntry(labels[k], Count(names, labels[k])))
  }

  /** The names of `stages` that `seen` lacks, in their order. */
  function Unseen(stages: seq<string>, seen: seq<string>): seq<string> {
    Filter(stages, s => s !in seen)
  }

  /** The stages from AllStages that `seen` lacks, in AllStages order. */
  function Missing(seen: seq<string>): seq<string> {
    Unseen(AllStages, seen)
  }

  /** The lead funnel of visits with the given stored stages. */
  function LeadScore(stages: seq<string>): seq<FunnelEntry> {
    var names := EffectiveStages(stages);
    var seen := FirstAppearances(names);
    Entries(names, seen + Missing(seen))
  }

  function Labels(rows: seq<FunnelEntry>): (r: seq<string>)
    ensures |r| == |rows| && forall k :: 0 <= k < |rows| ==> r[k] == rows[k].name
  {
    seq(|rows|, k requires 0 <= k < |rows| => rows[k].name)
  }

  /** The sum of the row values. */
  function Total(rows: seq<FunnelEntry>): nat
    decreases |rows|
  {
    if rows == [] then 0 else Total(rows[..|rows| - 1]) + rows[|rows| - 1].value
  }

  /** `acc.find(item => item.name === name)`: the first row with that name, or -1. */
  method FindEntry(acc: seq<FunnelEntry>, name: string) returns (k: int)
    ensures -1 <= k < |acc|
    ensures k == -1 <==> forall j :: 0 <= j < |acc| ==> acc[j].name != name
    ensures k >= 0 ==> acc[k].name == name && forall j :: 0 <= j < k ==> acc[j].name != name
  {
    k := 0;
    while k < |acc|
      invariant 0 <= k <= |acc|
      invariant forall j :: 0 <= j < k ==> acc[j].name != name
    {
      if acc[k].name == name {
        return;
      }
      k := k + 1;
    }
    k := -1;
  }

  /** The lead funnel as getAnalyticsData builds it: the reduce, then the
      loop over the three stages. */
  method LeadScoreData(stages: seq<string>) returns (acc: seq<FunnelEntry>)
    ensures acc == LeadScore(stages)
  {
    var names := EffectiveStages(stages);
    acc := TallyStages(names);
    acc := AppendMissingStages(names, acc);
  }

  /** The reduce: a row per name in order of first appearance, raised by one
      at each further occurrence. */
  method TallyStages(names: seq<string>) returns (acc: seq<FunnelEntry>)
    ensures acc == Entries(names, FirstAppearances(names))
  {
    acc := [];
    var i := 0;
    while i < |names|
      invariant 0 <= i <= |names|
      invariant acc == Entries(names[..i], FirstAppearances(names[..i]))
    {
      var k := FindEntry(acc, names[i]);
      if k >= 0 {
        TallySeen(names, i, acc, k);
        acc := acc[k := acc[k].(value := acc[k].value + 1)];
      } else {
        TallyNew(names, i, acc);
        acc := acc + [FunnelEntry(names[i], 1)];
      }
      i := i + 1;
    }
    assert names[..i] == names;
  }

  /** The forEach over the three stages: a zero row for each one without a row. */
  method AppendMissingStages(ghost names: seq<string>, tally: seq<FunnelEntry>) returns (acc: seq<FunnelEntry>)
    requires tally == Entries(names, FirstAppearances(names))
    ensures acc == Entries(names, FirstAppearances(names) + Missing(FirstAppearances(names)))
  {
    ghost var seen := FirstAppearances(names);
    acc := tally;
    var j := 0;
    assert seen + Unseen(AllStages[..0], seen) == seen;
    while j < |AllStages|
      invariant 0 <= j <= |AllStages|
      invariant acc == Entries(names, seen + Unseen(AllStages[..j], seen))
    {
      var stage := AllStages[j];
      var k := FindEntry(acc, stage);
      MissingStep(names, j, acc, k >= 0);
      if k < 0 {
        acc := acc + [FunnelEntry(stage, 0)];
      }
      j := j + 1;
    }
    assert AllStages[..j] == AllStages;
  }

  /** A stage already in the accumulator: its row goes up by one. */
  lemma TallySeen(names: seq<string>, i: nat, acc: seq<FunnelEntry>, k: int)
    requires i < |names|
    requires acc == Entries(names[..i], FirstAppearances(names[..i]))
    requires 0 <= k < |acc| && acc[k].name == names[i]
    ensures acc[k := acc[k].(value := acc[k].value + 1)] == Entries(names[..i + 1], FirstAppearances(names[..i + 1]))
  {
    var before, after := names[..i], names[..i + 1];
    assert after[..i] == before && after[i] == names[i];
    var seen := FirstAppearances(before);
    assert FirstAppearances(after) == seen;
    forall j | 0 <= j < |seen| && j != k
      ensures Count(after, seen[j]) == Count(before, seen[j])
    {
    }
  }

  /** A stage not yet in the accumulator: a new row with value 1. */
  lemma TallyNew(names: seq<string>, i: nat, acc: seq<FunnelEntry>)
    requires i < |names|
    requires acc == Entries(names[..i], FirstAppearances(names[..i]))
    requires forall j :: 0 <= j < |acc| ==> acc[j].name != names[i]
    ensures acc + [FunnelEntry(names[i], 1)] == Entries(names[..i + 1], FirstAppearances(names[..i + 1]))
  {
    var before, after, x := names[..i], names[..i + 1], names[i];
    assert after[..i] == before && after[i] == x;
    var seen := FirstAppearances(before);
    assert x !in seen;
    CountAbsent(before, x);
    assert FirstAppearances(after) == seen + [x];
  }

  /** One step of the loop over AllStages: a stage with no row gets a zero row. */
  lemma MissingStep(names: seq<string>, j: nat, acc: seq<FunnelEntry>, present: bool)
    requires j < |AllStages|
    requires acc == Entries(names, FirstAppearances(names) + Unseen(AllStages[..j], FirstAppearances(names)))
    requires present <==> exists k :: 0 <= k < |acc| && acc[k].name == AllStages[j]
    ensures var seen := FirstAppearances(names);
      (if present then acc else acc + [FunnelEntry(AllStages[j], 0)])
        == Entries(names, seen + Unseen(AllStages[..j + 1], seen))
  {
    var seen := FirstAppearances(names);
    var stage := AllStages[j];
    assert AllStages[..j + 1] == AllStages[..j] + [stage];
    UnseenAppend(AllStages[..j], stage, seen);
    if present {
      PresentStageSeen(names, j, acc);
    } else {
      AbsentStageRow(names, j, acc);
    }
  }

  /** A stage that already has a row got it from the counted names. */
  lemma PresentStageSeen(names: seq<string>, j: nat, acc: seq<FunnelEntry>)
    requires j < |AllStages|
    requires acc == Entries(names, FirstAppearances(names) + Unseen(AllStages[..j], FirstAppearances(names)))
    requires exists k :: 0 <= k < |acc| && acc[k].name == AllStages[j]
    ensures AllStages[j] in FirstAppearances(names)
  {
    var seen := FirstAppearances(names);
    var k :| 0 <= k < |acc| && acc[k].name == AllStages[j];
    if k >= |seen| {
      assert false;
    }
  }

  /** A stage with no row: its zero row is the count the names give it. */
  lemma AbsentStageRow(names: seq<string>, j: nat, acc: seq<FunnelEntry>)
    requires j < |AllStages|
    requires acc == Entries(names, FirstAppearances(names) + Unseen(AllStages[..j], FirstAppearances(names)))
    requires !exists k :: 0 <= k < |acc| && acc[k].name == AllStages[j]
    ensures var seen := FirstAppearances(names);
      AllStages[j] !in seen &&
      acc + [FunnelEntry(AllStages[j], 0)] == Entries(names, seen + Unseen(AllStages[..j], seen) + [AllStages[j]])
  {
    var seen := FirstAppearances(names);
    var stage := AllStages[j];
    assert stage !in seen by {
      assert forall i :: 0 <= i < |seen| ==> acc[i].name == seen[i];
    }
    CountAbsent(names, stage);
  }

  lemma UnseenAppend(stages: seq<string>, x: string, seen: seq<string>)
    ensures Unseen(stages + [x], seen) == Unseen(stages, seen) + (if x in seen then [] else [x])
  {
    FilterAppend(stages, [x], s => s !in seen);
  }

  lemma {:induction false} CountAbsent(names: seq<string>, name: string)
    requires name !in names
    ensures Count(names, name) == 0
    decreases |names|
  {
    if names != [] {
      CountAbsent(names[..|names| - 1], name);
    }
  }

  lemma {:induction false} CountOnce(names: seq<string>, name: string)
    requires NoDuplicates(names) && name in names
    ensures Count(names, name) == 1
    decreases |names|
  {
    var init := names[..|names| - 1];
    if names[|names| - 1] == name {
      CountAbsent(init, name);
    } else {
      assert name in init;
      CountOnce(init, name);
    }
  }

  lemma {:induction false} TotalNoNames(labels: seq<string>)
    ensures Total(Entries([], labels)) == 0
    decreases |labels|
  {
    if labels != [] {
      var init := labels[..|labels| - 1];
      assert Entries([], labels)[..|labels| - 1] == Entries([], init);
      TotalNoNames(init);
    }
  }

  /** One more name adds one to the total for each label equal to it. */
  lemma {:induction false} TotalOneMore(names: seq<string>, x: string, labels: seq<string>)
    ensures Total(Entries(names + [x], labels)) == Total(Entries(names, labels)) + Count(labels, x)
    decreases |labels|
  {
    if labels != [] {
      var init := labels[..|labels| - 1];
      var last := labels[|labels| - 1];
      assert Entries(names + [x], labels)[..|labels| - 1] == Entries(names + [x], init);
      assert Entries(names, labels)[..|labels| - 1] == Entries(names, init);
      assert (names + [x])[..|names|] == names;
      TotalOneMore(names, x, init);
    }
  }

  /** Counting every name under duplicate-free labels that cover them all counts each name once. */
  lemma {:induction false} TotalCoveringLabels(names: seq<string>, labels: seq<string>)
    requires NoDuplicates(labels)
    requires forall i :: 0 <= i < |names| ==> names[i] in labels
    ensures Total(Entries(names, labels)) == |names|
    decreases |names|
  {
    if names == [] {
      TotalNoNames(labels);
    } else {
      var init := names[..|names| - 1];
      var last := names[|names| - 1];
      TotalCoveringLabels(init, labels);
      assert init + [last] == names;
      TotalOneMore(init, last, labels);
      CountOnce(labels, last);
    }
  }

  lemma {:induction false} LabelsOfEntries(names: seq<string>, labels: seq<string>)
    ensures Labels(Entries(names, labels)) == labels
  {
  }

  /** Each of the three stages is a row exactly once, and no row name repeats. */
  lemma {:induction false} LeadScoreRows(stages: seq<string>)
    ensures NoDuplicates(Labels(LeadScore(stages)))
    ensures forall s :: s in AllStages ==> s in Labels(LeadScore(stages))
  {
    var names := EffectiveStages(stages);
    var seen := FirstAppearances(names);
    var missing := Missing(seen);
    LabelsOfEntries(names, seen + missing);
    assert NoDuplicates(AllStages);
    UnseenNoDuplicates(seen);
    var labels := seen + missing;
    forall i, j | 0 <= i < j < |labels|
      ensures labels[i] != labels[j]
    {
      if j >= |seen| && i < |seen| {
        assert labels[j] in missing;
      }
    }
    forall s | s in AllStages
      ensures s in labels
    {
      if s !in seen {
        var i :| 0 <= i < |AllStages| && AllStages[i] == s;
        assert s in missing;
      }
    }
  }

  /** When every stored stage is empty or one of the three names, the
      funnel has exactly the three stage rows and no other. */
  lemma ExactlyThreeRows(stages: seq<string>)
    requires forall i :: 0 <= i < |stages| ==> stages[i] == "" || stages[i] in AllStages
    ensures |LeadScore(stages)| == 3
    ensures forall k :: 0 <= k < |LeadScore(stages)| ==> LeadScore(stages)[k].name in AllStages
  {
    var names := EffectiveStages(stages);
    var seen := FirstAppearances(names);
    var labels := seen + Missing(seen);
    LeadScoreRows(stages);
    LabelsOfEntries(names, labels);
    assert Labels(LeadScore(stages)) == labels;
    LabelsAmongStages(stages);
    ThreeDistinctStages(labels);
  }

  /** The labels of the funnel are drawn from the three stages. */
  lemma LabelsAmongStages(stages: seq<string>)
    requires forall i :: 0 <= i < |stages| ==> stages[i] == "" || stages[i] in AllStages
    ensures var seen := FirstAppearances(EffectiveStages(stages));
      forall k :: 0 <= k < |seen + Missing(seen)| ==> (seen + Missing(seen))[k] in AllStages
  {
    var names := EffectiveStages(stages);
    var seen := FirstAppearances(names);
    var labels := seen + Missing(seen);
    forall k | 0 <= k < |labels|
      ensures labels[k] in AllStages
    {
      if k < |seen| {
        var i :| 0 <= i < |names| && names[i] == seen[k];
        assert names[i] == EffectiveStage(stages[i]);
      } else {
        assert labels[k] == Missing(seen)[k - |seen|];
      }
    }
  }

  /** A list without repeats whose elements are exactly the three stages has three elements. */
  lemma ThreeDistinctStages(labels: seq<string>)
    requires NoDuplicates(labels)
    requires forall k :: 0 <= k < |labels| ==> labels[k] in AllStages
    requires forall s :: s in AllStages ==> s in labels
    ensures |labels| == 3
  {
    if |labels| > 3 {
      FourStagesRepeat(labels[0], labels[1], labels[2], labels[3]);
      assert false;
    }
    assert AllStages[0] in labels && AllStages[1] in labels && AllStages[2] in labels;
    if |labels| < 3 {
      assert false;
    }
  }

  /** Among any four stages two are the same. */
  lemma FourStagesRepeat(a: string, b: string, c: string, d: string)
    ensures a in AllStages && b in AllStages && c in AllStages && d in AllStages ==>
      a == b || a == c || a == d || b == c || b == d || c == d
  {
  }

  lemma UnseenNoDuplicates(seen: seq<string>)
    ensures NoDuplicates(Missing(seen))
  {
    assert NoDuplicates(AllStages);
    FilterNoDuplicates(AllStages, s => s !in seen);
  }

  /** The row values add up to the number of visits. */
  lemma {:induction false} LeadScoreTotal(stages: seq<string>)
    ensures Total(LeadScore(stages)) == |stages|
  {
    var names := EffectiveStages(stages);
    var seen := FirstAppearances(names);
    LeadScoreRows(stages);
    LabelsOfEntries(names, seen + Missing(seen));
    TotalCoveringLabels(names, seen + Missing(seen));
  }

  /** A visit with no stage is counted exactly as one staged 'Researching'. */
  lemma {:induction false} UnstagedCountsAsResearching(stages: seq<string>, i: nat)
    requires i < |stages|
    ensures LeadScore(stages[i := ""]) == LeadScore(stages[i := "Researching"])
  {
    assert EffectiveStages(stages[i := ""]) == EffectiveStages(stages[i := "Researching"]);
  }

  /** Every row counts exactly the visits whose effective stage is its name;
      a row for a stage no visit has is zero. */
  lemma LeadScoreCounts(stages: seq<string>, k: nat)
    requires k < |LeadScore(stages)|
    ensures LeadScore(stages)[k].value == Count(EffectiveStages(stages), LeadScore(stages)[k].name)
    ensures LeadScore(stages)[k].name !in EffectiveStages(stages) ==> LeadScore(stages)[k].value == 0
  {
    var names := EffectiveStages(stages);
    var row := LeadScore(stages)[k];
    if row.name !in names {
      CountAbsent(names, row.name);
    }
  }
}
