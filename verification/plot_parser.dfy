/** The browser-side parser of ninejs (`ninejs/static/PlotParser.js`): it tags
    the SVG elements of a plot and drives the hover/highlight behaviour and
    the tooltip. */
module PlotParser {
  import opened Common

  const HoveredClass := "hovered"
  const NotHoveredClass := "not-hovered"
  const PlotElementClass := "plot-element"

  /** The class attribute each finder writes. */
  const BarClasses := {"bar", PlotElementClass}
  const PointClasses := {"point", PlotElementClass}
  const LineClasses := {"line", PlotElementClass}
  const AreaClasses := {"area", PlotElementClass}

  /** A selected SVG node: its class list, its `data-group` attribute (None
      when absent) and whether it lies inside a `matplotlib.axis` group. */
  datatype Element = Element(classes: set<string>, dataGroup: Option<Value>, inAxisGroup: bool)

  /** The tooltip node's state: its `display`, `left` and `top` styles (in
      pixels) and its inner HTML (None when cleared). */
  datatype Tooltip = Tooltip(display: string, left: int, top: int, html: Option<Value>)

  // ---------------------------------------------------------------------
  // Specification functions
  // ---------------------------------------------------------------------

  /** d3's `classed(name, on)` on one element. */
  function Classed(e: Element, name: string, on: bool): Element
  {
    e.(classes := if on then e.classes + {name} else e.classes - {name})
  }

  /** The two passes of the mouseover handler applied to one element: every
      element is marked not-hovered, then those of the hovered group are
      unmarked and marked hovered. */
  function Hover(e: Element, inGroup: bool): (r: Element)
    ensures inGroup ==> HoveredClass in r.classes && NotHoveredClass !in r.classes
    ensures !inGroup ==> NotHoveredClass in r.classes && (HoveredClass in r.classes <==> HoveredClass in e.classes)
    ensures r.classes - {HoveredClass, NotHoveredClass} == e.classes - {HoveredClass, NotHoveredClass}
    ensures r.dataGroup == e.dataGroup && r.inAxisGroup == e.inAxisGroup
  {
    var marked := Classed(e, NotHoveredClass, true);
    if inGroup then Classed(Classed(marked, NotHoveredClass, false), HoveredClass, true) else marked
  }

  /** Element j belongs to the hovered group of element i when their
      entries of `tooltip_groups` are `===`; two entries past the end are
      both undefined, and so equal. */
  predicate SameGroup(groups: seq<Value>, i: nat, j: nat): (r: bool)
    ensures i < |groups| && j < |groups| ==> (r <==> groups[j] == groups[i])
    ensures |groups| <= i && |groups| <= j ==> r
    ensures (i < |groups|) != (j < |groups|) ==> !r
  {
    At(groups, j) == At(groups, i)
  }

  /** The selection after the mouseover handler ran for element i. */
  function AfterMouseOver(es: seq<Element>, groups: seq<Value>, i: nat): (r: seq<Element>)
    ensures |r| == |es|
    ensures forall j :: 0 <= j < |es| ==> r[j].dataGroup == es[j].dataGroup && r[j].inAxisGroup == es[j].inAxisGroup
  {
    seq(|es|, j requires 0 <= j < |es| => Hover(es[j], SameGroup(groups, i, j)))
  }

  /** The mouseout handler applied to one element. */
  function Unhover(e: Element): (r: Element)
    ensures r.classes == e.classes - {HoveredClass, NotHoveredClass}
    ensures r.dataGroup == e.dataGroup && r.inAxisGroup == e.inAxisGroup
  {
    Classed(Classed(e, NotHoveredClass, false), HoveredClass, false)
  }

  /** The selection after the mouseout handler ran. */
  function AfterMouseOut(es: seq<Element>): (r: seq<Element>)
    ensures |r| == |es|
    ensures forall j :: 0 <= j < |es| ==> r[j].dataGroup == es[j].dataGroup && r[j].inAxisGroup == es[j].inAxisGroup
  {
    seq(|es|, j requires 0 <= j < |es| => Unhover(es[j]))
  }

  /** The paths `findLines` keeps: those outside every `matplotlib.axis`
      group (the tick marks), in their original order. */
  function DataPaths(s: seq<Element>): (r: seq<Element>)
    ensures |r| <= |s|
    ensures forall e :: e in r ==> e in s && !e.inAxisGroup
  {
    if s == [] then []
    else (if s[0].inAxisGroup then [] else [s[0]]) + DataPaths(s[1..])
  }

  /** Every element with its class attribute replaced by `classes`. */
  function WithClasses(s: seq<Element>, classes: set<string>): (r: seq<Element>)
    ensures |r| == |s|
    ensures forall j :: 0 <= j < |s| ==>
      r[j].classes == classes && r[j].dataGroup == s[j].dataGroup && r[j].inAxisGroup == s[j].inAxisGroup
  {
    seq(|s|, j requires 0 <= j < |s| => s[j].(classes := classes))
  }

  // ---------------------------------------------------------------------
  // Properties of the specification functions
  // ---------------------------------------------------------------------

  /** Filtering distributes over concatenation: the kept paths of a longer
      selection are those of its prefix followed by those of the rest. */
  lemma {:induction false} DataPathsAppend(a: seq<Element>, b: seq<Element>)
    ensures DataPaths(a + b) == DataPaths(a) + DataPaths(b)
  {
    if a == [] {
      assert a + b == b;
    } else {
      assert (a + b)[0] == a[0];
      assert (a + b)[1..] == a[1..] + b;
      DataPathsAppend(a[1..], b);
    }
  }

  /** findLines keeps exactly the paths outside the axis groups. */
  lemma {:induction false} DataPathsExact(s: seq<Element>)
    ensures forall e :: e in DataPaths(s) <==> e in s && !e.inAxisGroup
  {
    if s != [] {
      DataPathsExact(s[1..]);
      assert s == [s[0]] + s[1..];
    }
  }

  /** After mouseover on element i: the elements of its group are hovered
      and not not-hovered, every other element is not-hovered, and nothing
      else about any element changes. */
  lemma MouseOverMarks(es: seq<Element>, groups: seq<Value>, i: nat, j: nat)
    requires j < |es|
    ensures var e := AfterMouseOver(es, groups, i)[j];
      && (SameGroup(groups, i, j) ==> HoveredClass in e.classes && NotHoveredClass !in e.classes)
      && (!SameGroup(groups, i, j) ==>
            NotHoveredClass in e.classes && (HoveredClass in e.classes <==> HoveredClass in es[j].classes))
      && e.classes - {HoveredClass, NotHoveredClass} == es[j].classes - {HoveredClass, NotHoveredClass}
      && e.dataGroup == es[j].dataGroup && e.inAxisGroup == es[j].inAxisGroup
  {
  }

  /** The hovered element is always highlighted itself. */
  lemma HoveredElementIsHovered(es: seq<Element>, groups: seq<Value>, i: nat)
    requires i < |es|
    ensures HoveredClass in AfterMouseOver(es, groups, i)[i].classes
    ensures NotHoveredClass !in AfterMouseOver(es, groups, i)[i].classes
  {
  }

  /** From a cleared state, mouseover highlights exactly the hovered group. */
  lemma MouseOverHighlightsGroup(es: seq<Element>, groups: seq<Value>, i: nat)
    requires forall j :: 0 <= j < |es| ==> HoveredClass !in es[j].classes
    ensures forall j :: 0 <= j < |es| ==>
      (HoveredClass in AfterMouseOver(es, groups, i)[j].classes <==> SameGroup(groups, i, j))
  {
  }

  /** With pairwise distinct groups (the default numbering), mouseover from
      a cleared state highlights the hovered element and no other. */
  lemma DistinctGroupsHighlightOne(es: seq<Element>, groups: seq<Value>, i: nat)
    requires i < |es| && i < |groups|
    requires forall j, k :: 0 <= j < k < |groups| ==> groups[j] != groups[k]
    requires forall j :: 0 <= j < |es| ==> HoveredClass !in es[j].classes
    ensures forall j :: 0 <= j < |es| ==> (HoveredClass in AfterMouseOver(es, groups, i)[j].classes <==> j == i)
  {
    forall j | 0 <= j < |es|
      ensures HoveredClass in AfterMouseOver(es, groups, i)[j].classes <==> j == i
    {
      if j != i && j < |groups| {
        if j < i {
          assert groups[j] != groups[i];
        } else {
          assert groups[i] != groups[j];
        }
      }
    }
  }

  /** An element past the end of `tooltip_groups` has an undefined group,
      and so does every other such element: hovering one of them
      highlights all of them, and with no groups at all, every element. */
  lemma UndefinedGroupsHighlightTogether(es: seq<Element>, groups: seq<Value>, i: nat)
    requires |groups| <= i < |es|
    ensures forall j :: |groups| <= j < |es| ==> HoveredClass in AfterMouseOver(es, groups, i)[j].classes
    ensures groups == [] ==> forall j :: 0 <= j < |es| ==> HoveredClass in AfterMouseOver(es, groups, i)[j].classes
  {
  }

  /** After mouseout no element is hovered or not-hovered, whatever the
      state before; the rest of every element is kept. */
  lemma MouseOutClears(es: seq<Element>)
    ensures forall j :: 0 <= j < |es| ==>
      && HoveredClass !in AfterMouseOut(es)[j].classes
      && NotHoveredClass !in AfterMouseOut(es)[j].classes
      && AfterMouseOut(es)[j].classes == es[j].classes - {HoveredClass, NotHoveredClass}
      && AfterMouseOut(es)[j].dataGroup == es[j].dataGroup
      && AfterMouseOut(es)[j].inAxisGroup == es[j].inAxisGroup
  {
  }

  /** Leaving twice is leaving once. */
  lemma MouseOutIdempotent(es: seq<Element>)
    ensures AfterMouseOut(AfterMouseOut(es)) == AfterMouseOut(es)
  {
    var once := AfterMouseOut(es);
    forall j | 0 <= j < |es| ensures AfterMouseOut(once)[j] == once[j] {
      assert AfterMouseOut(once)[j].classes == once[j].classes;
    }
  }

  /** Hovering and then leaving restores an element that carried neither
      hover class. */
  lemma MouseOverThenOut(es: seq<Element>, groups: seq<Value>, i: nat)
    requires forall j :: 0 <= j < |es| ==> HoveredClass !in es[j].classes && NotHoveredClass !in es[j].classes
    ensures AfterMouseOut(AfterMouseOver(es, groups, i)) == es
  {
    var r := AfterMouseOut(AfterMouseOver(es, groups, i));
    forall j | 0 <= j < |es| ensures r[j] == es[j] {
      assert r[j].classes == es[j].classes;
    }
  }

  // ---------------------------------------------------------------------
  // PlotSVGParser
  // ---------------------------------------------------------------------

  /** d3's `attr("class", ...)` on a whole selection. */
  method SetClass(sel: array<Element>, classes: set<string>)
    modifies sel
    ensures sel[..] == WithClasses(old(sel[..]), classes)
  {
    for j := 0 to sel.Length
      invariant forall k :: 0 <= k < j ==> sel[k] == old(sel[k]).(classes := classes)
      invariant forall k :: j <= k < sel.Length ==> sel[k] == old(sel[k])
    {
      sel[j] := sel[j].(classes := classes);
    }
  }

  class PlotSVGParser {
    var tooltip: Tooltip
    var xShift: int
    var yShift: int

    constructor(tooltip: Tooltip, xShift: int, yShift: int)
      ensures this.tooltip == tooltip && this.xShift == xShift && this.yShift == yShift
    {
      this.tooltip := tooltip;
      this.xShift := xShift;
      this.yShift := yShift;
    }

    /** findBars: tags the selected PolyCollection paths as bars. */
    method FindBars(bars: array<Element>) returns (r: array<Element>)
      modifies bars
      ensures r == bars
      ensures bars[..] == WithClasses(old(bars[..]), BarClasses)
    {
      SetClass(bars, BarClasses);
      return bars;
    }

    /** findPoints: the i-th point gets the i-th entry of `tooltip_groups` as
        its `data-group` (the attribute is removed past the end), then every
        point is tagged as a point. */
    method FindPoints(points: array<Element>, groups: seq<Value>) returns (r: array<Element>)
      modifies points
      ensures r == points
      ensures forall j :: 0 <= j < points.Length ==>
        points[j] == old(points[j]).(dataGroup := At(groups, j), classes := PointClasses)
    {
      for j := 0 to points.Length
        invariant forall k :: 0 <= k < j ==> points[k] == old(points[k]).(dataGroup := At(groups, k))
        invariant forall k :: j <= k < points.Length ==> points[k] == old(points[k])
      {
        points[j] := points[j].(dataGroup := At(groups, j));
      }
      SetClass(points, PointClasses);
      return points;
    }

    /** findLines: the line2d paths outside the axis groups, in order,
        tagged as lines; the tick paths are dropped. */
    method FindLines(paths: array<Element>) returns (lines: array<Element>)
      ensures fresh(lines)
      ensures lines[..] == WithClasses(DataPaths(paths[..]), LineClasses)
    {
      var kept: seq<Element> := [];
      for j := 0 to paths.Length
        invariant kept == DataPaths(paths[..j])
      {
        assert paths[..j + 1] == paths[..j] + [paths[j]];
        DataPathsAppend(paths[..j], [paths[j]]);
        if !paths[j].inAxisGroup {
          kept := kept + [paths[j]];
        }
      }
      assert paths[..paths.Length] == paths[..];
      lines := new Element[|kept|](k requires 0 <= k < |kept| => kept[k]);
      SetClass(lines, LineClasses);
    }

    /** findAreas: tags the selected FillBetweenPolyCollection paths as areas. */
    method FindAreas(areas: array<Element>) returns (r: array<Element>)
      modifies areas
      ensures r == areas
      ensures areas[..] == WithClasses(old(areas[..]), AreaClasses)
    {
      SetClass(areas, AreaClasses);
      return areas;
    }

    /** setHoverEffect: binds the mouseover and mouseout handlers of a
        selection to this parser's tooltip. */
    method SetHoverEffect(plotElement: array<Element>, labels: seq<Value>, groups: seq<Value>, showTooltip: string)
      returns (h: HoverEffect)
      ensures fresh(h)
      ensures h.parser == this && h.elements == plotElement
      ensures h.labels == labels && h.groups == groups && h.showTooltip == showTooltip
    {
      h := new HoverEffect(this, plotElement, labels, groups, showTooltip);
    }
  }

  /** The handlers `setHoverEffect` installs, with what their closures
      capture: the parser (`self`), the selection and the arrays. */
  class HoverEffect {
    const parser: PlotSVGParser
    const elements: array<Element>
    const labels: seq<Value>
    const groups: seq<Value>
    const showTooltip: string

    constructor(parser: PlotSVGParser, elements: array<Element>, labels: seq<Value>, groups: seq<Value>,
                showTooltip: string)
      ensures this.parser == parser && this.elements == elements
      ensures this.labels == labels && this.groups == groups && this.showTooltip == showTooltip
    {
      this.parser := parser;
      this.elements := elements;
      this.labels := labels;
      this.groups := groups;
      this.showTooltip := showTooltip;
    }

    /** The mouseover handler on the i-th element of the selection, at page
        coordinates (pageX, pageY). */
    method MouseOver(i: nat, pageX: int, pageY: int)
      requires i < elements.Length
      modifies elements, parser`tooltip
      ensures elements[..] == AfterMouseOver(old(elements[..]), groups, i)
      ensures parser.tooltip == Tooltip(showTooltip, pageX + parser.xShift, pageY + parser.yShift, At(labels, i))
    {
      var hoveredGroup := At(groups, i);
      for j := 0 to elements.Length
        invariant forall k :: 0 <= k < j ==> elements[k] == Classed(old(elements[k]), NotHoveredClass, true)
        invariant forall k :: j <= k < elements.Length ==> elements[k] == old(elements[k])
      {
        elements[j] := Classed(elements[j], NotHoveredClass, true);
      }
      for j := 0 to elements.Length
        invariant forall k :: 0 <= k < j ==> elements[k] == Hover(old(elements[k]), SameGroup(groups, i, k))
        invariant forall k :: j <= k < elements.Length ==> elements[k] == Classed(old(elements[k]), NotHoveredClass, true)
      {
        if At(groups, j) == hoveredGroup {
          elements[j] := Classed(Classed(elements[j], NotHoveredClass, false), HoveredClass, true);
        }
      }
      parser.tooltip := parser.tooltip.(display := showTooltip);
      parser.tooltip := parser.tooltip.(left := pageX + parser.xShift);
      parser.tooltip := parser.tooltip.(top := pageY + parser.yShift);
      parser.tooltip := parser.tooltip.(html := At(labels, i));
    }

    /** The mouseout handler: clears both hover classes everywhere and hides
        the tooltip. */
    method MouseOut()
      modifies elements, parser`tooltip
      ensures elements[..] == AfterMouseOut(old(elements[..]))
      ensures parser.tooltip == old(parser.tooltip).(display := "none")
    {
      for j := 0 to elements.Length
        invariant forall k :: 0 <= k < j ==> elements[k] == Unhover(old(elements[k]))
        invariant forall k :: j <= k < elements.Length ==> elements[k] == old(elements[k])
        invariant parser.tooltip == old(parser.tooltip)
      {
        elements[j] := Classed(Classed(elements[j], NotHoveredClass, false), HoveredClass, false);
      }
      parser.tooltip := parser.tooltip.(display := "none");
    }
  }
}
