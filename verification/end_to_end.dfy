/** How the contract the Python wrapper builds drives the browser-side
    hover behaviour. */
module EndToEnd {
  import opened Common
  import NineJs
  import PlotParser

  /** Without explicit groups, add_tooltip numbers every label (legend labels
      included) as its own group, so hovering a labelled element from a
      cleared state highlights that element alone. */
  lemma DefaultGroupsHighlightOne(s: NineJs.TooltipState, axes: seq<NineJs.Axis>, a: NineJs.TooltipArgs,
                                  es: seq<PlotParser.Element>, i: nat)
    requires a.groups.None?
    requires NineJs.AddTooltipSpec(s, axes, a).error.None?
    requires forall j :: 0 <= j < |es| ==> PlotParser.HoveredClass !in es[j].classes
    requires i < |es|
    requires NineJs.AddTooltipSpec(s, axes, a).state.labels.Some?
    requires i < |NineJs.AddTooltipSpec(s, axes, a).state.labels.value|
    ensures var st := NineJs.AddTooltipSpec(s, axes, a).state;
      && st.groups.Some?
      && forall j :: 0 <= j < |es| ==>
           (PlotParser.HoveredClass in PlotParser.AfterMouseOver(es, st.groups.value, i)[j].classes <==> j == i)
  {
    NineJs.AddTooltipSucceeds(s, axes, a);
    var ax := NineJs.ResolveAxis(axes, a.ax).value;
    NineJs.AddTooltipGroups(s, axes, a, ax);
    var st := NineJs.AddTooltipSpec(s, axes, a).state;
    PlotParser.DistinctGroupsHighlightOne(es, st.groups.value, i);
  }

  /** Two labels "A" and "B" on a figure with one legend-less axis: the
      exported contract numbers them 0 and 1, and hovering the second point
      shows "B" and highlights that point only. */
  lemma TwoPointScenario(es: seq<PlotParser.Element>)
    requires |es| == 2
    requires forall j :: 0 <= j < 2 ==> PlotParser.HoveredClass !in es[j].classes
    ensures var axis := NineJs.Axis(0, []);
      var args := NineJs.TooltipArgs(Some(NineJs.PyList([Str("A"), Str("B")])), None, 5, 5, None);
      var step := NineJs.AddTooltipSpec(NineJs.Unset, [axis], args);
      var data := NineJs.SetPlotDataSpec(step.state, [axis]).data;
      && step.error.None?
      && data.Success?
      && data.value.labels == [Str("A"), Str("B")]
      && data.value.groups == [Int(0), Int(1)]
      && data.value.xShift == 5 && data.value.yShift == 5
      && data.value.axes == map["axes_1" := NineJs.AxisTooltip(data.value.labels, data.value.groups)]
      && At(data.value.labels, 1) == Some(Str("B"))
      && PlotParser.HoveredClass !in PlotParser.AfterMouseOver(es, data.value.groups, 1)[0].classes
      && PlotParser.HoveredClass in PlotParser.AfterMouseOver(es, data.value.groups, 1)[1].classes
  {
    var axis := NineJs.Axis(0, []);
    var args := NineJs.TooltipArgs(Some(NineJs.PyList([Str("A"), Str("B")])), None, 5, 5, None);
    NineJs.AddTooltipSucceeds(NineJs.Unset, [axis], args);
    NineJs.AddTooltipGroups(NineJs.Unset, [axis], args, axis);
    assert [Str("A"), Str("B")] + [] == [Str("A"), Str("B")];
    assert NineJs.DefaultGroups(2) == [Int(0), Int(1)];
    assert NineJs.AxisKey(0) == "axes_1";
    NineJs.ContractRoundTrip(NineJs.Unset, [axis], args);
  }
}
