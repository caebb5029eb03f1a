// The summary figures of src/components/analytics-tab.tsx: how many
// visitors, how many of them are hot leads, the holds (a fixed zero), and a
// pipeline value that counts one average home price per visitor who is hot
// or researching.

module AnalyticsTab {
  import opened Seqs

  /** A visitor as the tab reads it: only the status matters. */
  datatype TabVisitor = TabVisitor(status: string)

  datatype Summary = Summary(totalVisitors: nat, hotLeads: nat, holds: nat, pipeline: nat)

  /** The average home price each pipeline visitor is counted at. */
  const AverageHomePrice: nat := 650000

  /** The module's visitor list, which is empty. */
  const Visitors: seq<TabVisitor> := []

  function IsHot(v: TabVisitor): bool {
    v.status == "Hot Now"
  }

  function InPipeline(v: TabVisitor): bool {
    v.status == "Hot Now" || v.status == "Researching"
  }

  /** `vs.reduce((acc, v) => acc + 650000, acc)`: a left fold that adds the
      average price once per element. */
  function AddAverage(vs: seq<TabVisitor>, acc: nat): (r: nat)
    ensures r == acc + AverageHomePrice * |vs|
  {
    if vs == [] then acc
    else AddAverage(vs[1..], acc + AverageHomePrice)
  }

  /** The `summary` memo. */
  function ComputeSummary(visitors: seq<TabVisitor>): (s: Summary)
    ensures s.totalVisitors == |visitors|
    ensures s.holds == 0
    ensures s.hotLeads <= s.totalVisitors
    ensures s.pipeline == AverageHomePrice * |Filter(visitors, InPipeline)|
  {
    Summary(
      |visitors|,
      |Filter(visitors, IsHot)|,
      0,
      AddAverage(Filter(visitors, InPipeline), 0))
  }

  /** Every hot lead is in the pipeline, and the pipeline never exceeds one
      average price per visitor. */
  lemma PipelineBounds(visitors: seq<TabVisitor>)
    ensures AverageHomePrice * ComputeSummary(visitors).hotLeads <= ComputeSummary(visitors).pipeline
    ensures ComputeSummary(visitors).pipeline <= AverageHomePrice * ComputeSummary(visitors).totalVisitors
  {
    FilterWeaker(visitors, IsHot, InPipeline);
  }

  /** One more visitor: the total grows by one; a hot lead adds one hot lead
      and one price; a researching visitor adds one price only; a visitor
      just looking (or of any other status) adds nothing else. */
  lemma AddVisitor(visitors: seq<TabVisitor>, v: TabVisitor)
    ensures ComputeSummary(visitors + [v]).totalVisitors == ComputeSummary(visitors).totalVisitors + 1
    ensures ComputeSummary(visitors + [v]).hotLeads == ComputeSummary(visitors).hotLeads + (if v.status == "Hot Now" then 1 else 0)
    ensures ComputeSummary(visitors + [v]).pipeline ==
      ComputeSummary(visitors).pipeline + (if v.status == "Hot Now" || v.status == "Researching" then AverageHomePrice else 0)
  {
    FilterAppend(visitors, [v], IsHot);
    FilterAppend(visitors, [v], InPipeline);
    assert Filter([v], IsHot) == (if IsHot(v) then [v] else []);
    assert Filter([v], InPipeline) == (if InPipeline(v) then [v] else []);
  }

  /** A visitor who is just looking changes no figure but the total. */
  lemma JustLookingAddsNothing(visitors: seq<TabVisitor>, v: TabVisitor)
    requires v.status == "Just Looking"
    ensures ComputeSummary(visitors + [v]) == ComputeSummary(visitors).(totalVisitors := |visitors| + 1)
  {
    AddVisitor(visitors, v);
  }

  /** With the module's empty visitor list every figure is zero. */
  lemma EmptySummary()
    ensures ComputeSummary(Visitors) == Summary(0, 0, 0, 0)
  {
  }
}
