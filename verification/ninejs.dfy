/** The Python wrapper of ninejs (`ninejs/main.py`): the helpers that
    normalise user input and the `_InteractivePlot` object that assembles the
    tooltip contract, per axis, that the browser-side parser reads. */
module NineJs {
  import opened Common

  // ---------------------------------------------------------------------
  // Errors raised by the wrapper
  // ---------------------------------------------------------------------

  datatype Error =
    | InvalidVector(message: string)    // ValueError from _vector_to_list
    | PatternNotFound(message: string)  // ValueError from _get_and_sanitize_js
    | NoAxes                            // IndexError from `self.axes[0]`
    | AxisNotInFigure                   // ValueError from `self.axes.index(ax)`
    | MissingAttribute(name: string)    // AttributeError on an unset attribute

  // ---------------------------------------------------------------------
  // _vector_to_list
  // ---------------------------------------------------------------------

  /** The kinds of input `_vector_to_list` distinguishes. A series carries the
      elements its `to_list()` returns; everything else (a string, a dict, a
      scalar, ...) is Unsupported. */
  datatype VectorInput =
    | PyList(items: seq<Value>)
    | PyTuple(items: seq<Value>)
    | NdArray(items: seq<Value>)
    | IntoSeries(items: seq<Value>)
    | Unsupported

  const DefaultVectorName := "labels and groups"
  const VectorErrorTail := " must be a Series or a valid iterable (list, tuple, ndarray...)."

  /** Lists, tuples and arrays keep their elements in order, a series goes
      through its list conversion, and any other input is refused with a
      message that starts with `name`. */
  function VectorToList(v: VectorInput, name: string): (r: Result<seq<Value>, Error>)
    ensures r.Success? <==> !v.Unsupported?
    ensures r.Success? ==> r.value == v.items
    ensures r.Failure? ==> r.error.InvalidVector? && name <= r.error.message
  {
    match v
    case Unsupported => Failure(InvalidVector(name + VectorErrorTail))
    case _ => Success(v.items)
  }

  // ---------------------------------------------------------------------
  // _get_and_sanitize_js
  // ---------------------------------------------------------------------

  /** The literal text in front of `.*` in the pattern the constructor uses. */
  const ParserMarker := "class PlotSVGParser"

  predicate OccursAt(text: string, marker: string, k: nat)
  {
    k + |marker| <= |text| && text[k..k + |marker|] == marker
  }

  /** The leftmost occurrence of `marker` at or after `from`. */
  function FindFrom(text: string, marker: string, from: nat): (r: Option<nat>)
    requires from <= |text|
    decreases |text| - from
    ensures r.Some? ==> from <= r.value && OccursAt(text, marker, r.value)
    ensures r.Some? ==> forall k :: from <= k < r.value ==> !OccursAt(text, marker, k)
    ensures r.None? ==> forall k :: from <= k <= |text| ==> !OccursAt(text, marker, k)
  {
    if OccursAt(text, marker, from) then Some(from)
    else if from == |text| then None
    else FindFrom(text, marker, from + 1)
  }

  /** A DOTALL search for `prefix.*`: the match runs from the leftmost
      occurrence of `prefix` to the end of the text. */
  function SanitizeJs(content: string, prefix: string): (r: Result<string, Error>)
    ensures r.Success? <==> exists k: nat :: OccursAt(content, prefix, k)
    ensures r.Success? ==>
      && |r.value| <= |content|
      && r.value == content[|content| - |r.value|..]
      && prefix <= r.value
      && forall k :: 0 <= k < |content| - |r.value| ==> !OccursAt(content, prefix, k)
    ensures r.Failure? ==> r.error == PatternNotFound("Could not find '" + prefix + ".*' in the file")
  {
    match FindFrom(content, prefix, 0)
    case Some(k) =>
      assert content[k..][..|prefix|] == content[k..k + |prefix|];
      Success(content[k..])
    case None => Failure(PatternNotFound("Could not find '" + prefix + ".*' in the file"))
  }

  // ---------------------------------------------------------------------
  // The output path rule of save
  // ---------------------------------------------------------------------

  predicate EndsWith(s: string, suffix: string)
  {
    |suffix| <= |s| && s[|s| - |suffix|..] == suffix
  }

  /** The path `save` writes to: always an `.html` file name, the given one
      if it already is, and otherwise the given one with `.html` appended once. */
  function HtmlPath(path: string): (r: string)
    ensures EndsWith(r, ".html")
    ensures EndsWith(path, ".html") ==> r == path
    ensures !EndsWith(path, ".html") ==> r == path + ".html"
  {
    if EndsWith(path, ".html") then path else path + ".html"
  }

  lemma HtmlPathIdempotent(path: string)
    ensures HtmlPath(HtmlPath(path)) == HtmlPath(path)
  {
  }

  // ---------------------------------------------------------------------
  // Axis keys "axes_{k+1}"
  // ---------------------------------------------------------------------

  function Digit(d: nat): char
    requires d < 10
  {
    ('0' as int + d) as char
  }

  predicate IsDigitString(s: string)
  {
    forall k :: 0 <= k < |s| ==> '0' <= s[k] <= '9'
  }

  /** Python's `str(n)` for a natural number. */
  function DecimalString(n: nat): (s: string)
    decreases n
    ensures 1 <= |s| && (|s| == 1 <==> n < 10)
    ensures IsDigitString(s)
  {
    if n < 10 then [Digit(n)] else DecimalString(n / 10) + [Digit(n % 10)]
  }

  /** The number a string of decimal digits denotes. */
  function DecimalValue(s: string): nat
    requires IsDigitString(s)
  {
    if s == [] then 0
    else DecimalValue(s[..|s| - 1]) * 10 + (s[|s| - 1] as int - '0' as int)
  }

  lemma {:induction false} DecimalRoundTrip(n: nat)
    ensures DecimalValue(DecimalString(n)) == n
  {
    var s := DecimalString(n);
    if n >= 10 {
      DecimalRoundTrip(n / 10);
      assert s[..|s| - 1] == DecimalString(n / 10);
    }
  }

  lemma DecimalStringInjective(a: nat, b: nat)
    ensures DecimalString(a) == DecimalString(b) <==> a == b
  {
    DecimalRoundTrip(a);
    DecimalRoundTrip(b);
  }

  /** The key of the axis at position k of the figure's axes: `axes_`
      followed by the digits of k + 1. */
  function AxisKey(k: nat): (r: string)
    ensures |r| > 5 && r[..5] == "axes_"
    ensures IsDigitString(r[5..]) && DecimalValue(r[5..]) == k + 1
  {
    var digits := DecimalString(k + 1);
    DecimalRoundTrip(k + 1);
    assert ("axes_" + digits)[5..] == digits;
    "axes_" + digits
  }

  lemma AxisKeyInjective(j: nat, k: nat)
    ensures AxisKey(j) == AxisKey(k) <==> j == k
  {
    if AxisKey(j) == AxisKey(k) {
      assert DecimalString(j + 1) == AxisKey(j)[5..];
      assert DecimalString(k + 1) == AxisKey(k)[5..];
      DecimalStringInjective(j + 1, k + 1);
    }
  }

  /** Python's `list.index(x)`: the position of the first occurrence of `x`,
      or None where Python raises ValueError. */
  function IndexOf<T(==)>(s: seq<T>, x: T): (r: Option<nat>)
    ensures r.None? <==> x !in s
    ensures r.Some? ==> r.value < |s| && s[r.value] == x && x !in s[..r.value]
  {
    if |s| == 0 then None
    else if s[0] == x then Some(0)
    else match IndexOf(s[1..], x)
      case None => None
      case Some(k) =>
        assert s[1..][..k] == s[1..k + 1];
        assert s[..k + 1] == [s[0]] + s[1..k + 1];
        Some(k + 1)
  }

  // ---------------------------------------------------------------------
  // The tooltip contract built by add_tooltip
  // ---------------------------------------------------------------------

  /** An axis of the figure; `legendLabels` is what its legend reports as
      handle labels, in legend order. */
  datatype Axis = Axis(id: nat, legendLabels: seq<Value>)

  datatype AxisTooltip = AxisTooltip(labels: seq<Value>, groups: seq<Value>)

  /** The keyword arguments of add_tooltip. */
  datatype TooltipArgs = TooltipArgs(
    labels: Option<VectorInput>,
    groups: Option<VectorInput>,
    xShift: int,
    yShift: int,
    ax: Option<Axis>)

  /** add_tooltip() with every argument at its default. */
  const NoTooltipArgs := TooltipArgs(None, None, 0, 0, None)

  /** The tooltip attributes of an `_InteractivePlot`; None is an attribute
      that has not been set yet. */
  datatype TooltipState = TooltipState(
    xShift: Option<int>,
    yShift: Option<int>,
    legendLabels: Option<seq<Value>>,
    labels: Option<seq<Value>>,
    groups: Option<seq<Value>>,
    axesTooltip: Option<map<string, AxisTooltip>>)

  const Unset := TooltipState(None, None, None, None, None, None)

  /** Python never deletes these attributes: every one set in `s` is still
      set in `t`, and no axis entry of `s` has been dropped. */
  predicate Grows(s: TooltipState, t: TooltipState)
  {
    && (s.xShift.Some? ==> t.xShift.Some?)
    && (s.yShift.Some? ==> t.yShift.Some?)
    && (s.legendLabels.Some? ==> t.legendLabels.Some?)
    && (s.labels.Some? ==> t.labels.Some?)
    && (s.groups.Some? ==> t.groups.Some?)
    && (s.axesTooltip.Some? ==> t.axesTooltip.Some? && s.axesTooltip.value.Keys <= t.axesTooltip.value.Keys)
  }

  /** The attributes after a call, and the exception it raised, if any. */
  datatype Step = Step(state: TooltipState, error: Option<Error>)

  /** The axis add_tooltip works on: the given one, or else `self.axes[0]`,
      which raises on a figure without axes. */
  function ResolveAxis(axes: seq<Axis>, ax: Option<Axis>): (r: Result<Axis, Error>)
    ensures ax.Some? ==> r == Success(ax.value)
    ensures ax.None? && |axes| > 0 ==> r == Success(axes[0])
    ensures ax.None? && |axes| == 0 ==> r == Failure(NoAxes)
  {
    match ax
    case Some(a) => Success(a)
    case None => if |axes| == 0 then Failure(NoAxes) else Success(axes[0])
  }

  /** A converted vector followed by the legend labels. */
  function Extended(v: VectorInput, legend: seq<Value>): (r: Result<seq<Value>, Error>)
    ensures r.Success? <==> !v.Unsupported?
    ensures r.Success? ==>
      |r.value| == |v.items| + |legend| && r.value[..|v.items|] == v.items && r.value[|v.items|..] == legend
    ensures r.Failure? ==> r.error == VectorToList(v, DefaultVectorName).error
  {
    match VectorToList(v, DefaultVectorName)
    case Success(xs) => Success(xs + legend)
    case Failure(e) => Failure(e)
  }

  /** `list(range(n))`. */
  function DefaultGroups(n: nat): (r: seq<Value>)
    ensures |r| == n && forall k :: 0 <= k < n ==> r[k] == Int(k)
  {
    seq(n, k => Int(k))
  }

  lemma DefaultGroupsDistinct(n: nat, j: nat, k: nat)
    requires j < n && k < n
    ensures |DefaultGroups(n)| == n
    ensures DefaultGroups(n)[j] == DefaultGroups(n)[k] <==> j == k
  {
  }

  /** add_tooltip, step by step: the shifts are stored first, then the axis
      is resolved, its legend read, the labels and the groups converted, and
      finally the axis entry written; an exception at any step leaves the
      attributes set so far. */
  function AddTooltipSpec(s: TooltipState, axes: seq<Axis>, a: TooltipArgs): (r: Step)
    ensures Grows(s, r.state)
    ensures r.error.None? ==>
      r.state.legendLabels.Some? && r.state.labels.Some? && r.state.groups.Some? && r.state.axesTooltip.Some?
    ensures r.error.Some? ==> Entries(r.state.axesTooltip) == Entries(s.axesTooltip)
  {
    var shifted := s.(xShift := Some(a.xShift), yShift := Some(a.yShift));
    match ResolveAxis(axes, a.ax)
    case Failure(e) => Step(shifted, Some(e))
    case Success(ax) =>
      var withLegend := shifted.(legendLabels := Some(ax.legendLabels));
      var labelsR := if a.labels.None? then Success([]) else Extended(a.labels.value, ax.legendLabels);
      match labelsR
      case Failure(e) => Step(withLegend, Some(e))
      case Success(labels) =>
        var withLabels := withLegend.(labels := Some(labels));
        var groupsR :=
          if a.groups.None? then Success(DefaultGroups(|labels|))
          else Extended(a.groups.value, ax.legendLabels);
        match groupsR
        case Failure(e) => Step(withLabels, Some(e))
        case Success(groups) =>
          var table := Entries(s.axesTooltip);
          var withTable := withLabels.(groups := Some(groups), axesTooltip := Some(table));
          match IndexOf(axes, ax)
          case None => Step(withTable, Some(AxisNotInFigure))
          case Some(k) =>
            Step(withTable.(axesTooltip := Some(table[AxisKey(k) := AxisTooltip(labels, groups)])), None)
  }

  /** The entries of an optional table, an absent table being empty. */
  function Entries(t: Option<map<string, AxisTooltip>>): map<string, AxisTooltip>
  {
    if t.Some? then t.value else map[]
  }

  /** add_tooltip succeeds exactly when the axis can be found in the figure
      and every vector given is of a supported kind; the shifts are stored
      whatever happens. */
  lemma AddTooltipSucceeds(s: TooltipState, axes: seq<Axis>, a: TooltipArgs)
    ensures AddTooltipSpec(s, axes, a).state.xShift == Some(a.xShift)
    ensures AddTooltipSpec(s, axes, a).state.yShift == Some(a.yShift)
    ensures AddTooltipSpec(s, axes, a).error.None? <==>
      && (a.ax.None? ==> |axes| > 0)
      && (a.ax.Some? ==> a.ax.value in axes)
      && (a.labels.Some? ==> !a.labels.value.Unsupported?)
      && (a.groups.Some? ==> !a.groups.value.Unsupported?)
  {
    if a.ax.None? && |axes| > 0 {
      assert axes[0] in axes;
    }
  }

  /** Without labels the tooltip labels are empty; with labels they are the
      converted labels followed by the axis's legend labels. */
  lemma AddTooltipLabels(s: TooltipState, axes: seq<Axis>, a: TooltipArgs, ax: Axis)
    requires ResolveAxis(axes, a.ax) == Success(ax)
    requires a.labels.Some? ==> !a.labels.value.Unsupported?
    ensures AddTooltipSpec(s, axes, a).state.legendLabels == Some(ax.legendLabels)
    ensures a.labels.None? ==> AddTooltipSpec(s, axes, a).state.labels == Some([])
    ensures a.labels.Some? ==>
      AddTooltipSpec(s, axes, a).state.labels == Some(a.labels.value.items + ax.legendLabels)
  {
  }

  /** Without groups every label is its own group, numbered from 0 over the
      labels including the legend ones; with groups they are the converted
      groups followed by the legend labels (not their indices). */
  lemma AddTooltipGroups(s: TooltipState, axes: seq<Axis>, a: TooltipArgs, ax: Axis)
    requires ResolveAxis(axes, a.ax) == Success(ax)
    requires a.labels.Some? ==> !a.labels.value.Unsupported?
    requires a.groups.Some? ==> !a.groups.value.Unsupported?
    ensures var st := AddTooltipSpec(s, axes, a).state;
      && st.labels.Some? && st.groups.Some?
      && (a.groups.None? ==>
            && st.groups.value == DefaultGroups(|st.labels.value|)
            && forall j, k :: 0 <= j < k < |st.groups.value| ==> st.groups.value[j] != st.groups.value[k])
      && (a.groups.Some? ==> st.groups.value == a.groups.value.items + ax.legendLabels)
  {
  }

  /** A successful add_tooltip on the axis at position k writes exactly the
      new labels and groups under "axes_{k+1}" and leaves every other entry
      as it was. */
  lemma AddTooltipEntry(s: TooltipState, axes: seq<Axis>, a: TooltipArgs, k: nat)
    requires AddTooltipSpec(s, axes, a).error.None?
    requires ResolveAxis(axes, a.ax).Success? && IndexOf(axes, ResolveAxis(axes, a.ax).value) == Some(k)
    ensures var st := AddTooltipSpec(s, axes, a).state;
      && st.labels.Some? && st.groups.Some? && st.axesTooltip.Some?
      && AxisKey(k) in st.axesTooltip.value
      && st.axesTooltip.value[AxisKey(k)] == AxisTooltip(st.labels.value, st.groups.value)
      && st.axesTooltip.value.Keys == Entries(s.axesTooltip).Keys + {AxisKey(k)}
      && forall key :: key in Entries(s.axesTooltip) && key != AxisKey(k) ==>
           st.axesTooltip.value[key] == Entries(s.axesTooltip)[key]
  {
  }

  /** A second successful call for the same axis replaces that axis's entry:
      the first call's labels and groups are gone from it. */
  lemma AddTooltipReplaces(s: TooltipState, axes: seq<Axis>, a1: TooltipArgs, a2: TooltipArgs, k: nat)
    requires AddTooltipSpec(s, axes, a1).error.None?
    requires AddTooltipSpec(AddTooltipSpec(s, axes, a1).state, axes, a2).error.None?
    requires ResolveAxis(axes, a1.ax).Success? && IndexOf(axes, ResolveAxis(axes, a1.ax).value) == Some(k)
    requires ResolveAxis(axes, a2.ax).Success? && IndexOf(axes, ResolveAxis(axes, a2.ax).value) == Some(k)
    ensures var st := AddTooltipSpec(AddTooltipSpec(s, axes, a1).state, axes, a2).state;
      && st.labels.Some? && st.groups.Some? && st.axesTooltip.Some?
      && st.axesTooltip.value[AxisKey(k)] == AxisTooltip(st.labels.value, st.groups.value)
      && st.axesTooltip.value.Keys == Entries(s.axesTooltip).Keys + {AxisKey(k)}
  {
    AddTooltipEntry(s, axes, a1, k);
    AddTooltipEntry(AddTooltipSpec(s, axes, a1).state, axes, a2, k);
  }

  /** Calls for two different axes keep both entries: the first one
      survives the second call. */
  lemma AddTooltipTwoAxes(s: TooltipState, axes: seq<Axis>, a1: TooltipArgs, a2: TooltipArgs, j: nat, k: nat)
    requires j != k
    requires AddTooltipSpec(s, axes, a1).error.None?
    requires AddTooltipSpec(AddTooltipSpec(s, axes, a1).state, axes, a2).error.None?
    requires ResolveAxis(axes, a1.ax).Success? && IndexOf(axes, ResolveAxis(axes, a1.ax).value) == Some(j)
    requires ResolveAxis(axes, a2.ax).Success? && IndexOf(axes, ResolveAxis(axes, a2.ax).value) == Some(k)
    ensures var first := AddTooltipSpec(s, axes, a1).state;
      var st := AddTooltipSpec(first, axes, a2).state;
      && first.labels.Some? && first.groups.Some? && st.axesTooltip.Some?
      && AxisKey(j) in st.axesTooltip.value && AxisKey(k) in st.axesTooltip.value
      && st.axesTooltip.value[AxisKey(j)] == AxisTooltip(first.labels.value, first.groups.value)
  {
    var first := AddTooltipSpec(s, axes, a1).state;
    AddTooltipEntry(s, axes, a1, j);
    AddTooltipEntry(first, axes, a2, k);
    AxisKeyInjective(j, k);
  }

  // ---------------------------------------------------------------------
  // _set_plot_data_json
  // ---------------------------------------------------------------------

  /** The JSON document embedded in the page. */
  datatype PlotData = PlotData(
    labels: seq<Value>,
    groups: seq<Value>,
    xShift: int,
    yShift: int,
    axes: map<string, AxisTooltip>)

  datatype JsonStep = JsonStep(state: TooltipState, data: Result<PlotData, Error>)

  /** The dict literal of _set_plot_data_json, read in its key order; a
      missing attribute raises. */
  function ReadPlotData(s: TooltipState): (r: Result<PlotData, Error>)
    ensures r.Success? <==>
      s.labels.Some? && s.groups.Some? && s.xShift.Some? && s.yShift.Some? && s.axesTooltip.Some?
    ensures r.Success? ==>
      r.value == PlotData(s.labels.value, s.groups.value, s.xShift.value, s.yShift.value, s.axesTooltip.value)
    ensures r.Failure? ==> r.error.MissingAttribute?
  {
    if s.labels.None? then Failure(MissingAttribute("_tooltip_labels"))
    else if s.groups.None? then Failure(MissingAttribute("_tooltip_groups"))
    else if s.xShift.None? then Failure(MissingAttribute("_tooltip_x_shift"))
    else if s.yShift.None? then Failure(MissingAttribute("_tooltip_y_shift"))
    else if s.axesTooltip.None? then Failure(MissingAttribute("axes_tooltip"))
    else Success(PlotData(s.labels.value, s.groups.value, s.xShift.value, s.yShift.value, s.axesTooltip.value))
  }

  /** _set_plot_data_json: a plot without tooltip labels first gets a default
      add_tooltip(), then the attributes are read into the JSON document. */
  function SetPlotDataSpec(s: TooltipState, axes: seq<Axis>): (r: JsonStep)
    ensures s.labels.Some? ==> r.state == s
    ensures Grows(s, r.state)
    ensures r.data.Success? ==> r.data == ReadPlotData(r.state)
    ensures r.data.Failure? && s.labels.None? ==> Entries(r.state.axesTooltip) == Entries(s.axesTooltip)
  {
    if s.labels.None? then
      var step := AddTooltipSpec(s, axes, NoTooltipArgs);
      if step.error.Some? then JsonStep(step.state, Failure(step.error.value))
      else JsonStep(step.state, ReadPlotData(step.state))
    else JsonStep(s, ReadPlotData(s))
  }

  /** What a successful add_tooltip stores is what the JSON document then
      carries: its labels, its groups, its shifts and the axis table. */
  lemma ContractRoundTrip(s: TooltipState, axes: seq<Axis>, a: TooltipArgs)
    requires AddTooltipSpec(s, axes, a).error.None?
    ensures var st := AddTooltipSpec(s, axes, a).state;
      && st.labels.Some? && st.groups.Some? && st.axesTooltip.Some?
      && SetPlotDataSpec(st, axes) == JsonStep(st, Success(PlotData(
           st.labels.value, st.groups.value, a.xShift, a.yShift, st.axesTooltip.value)))
  {
  }

  /** A plot never given a tooltip exports empty labels and groups, zero
      shifts, and one empty entry for its first axis. */
  lemma DefaultPlotData(axes: seq<Axis>)
    requires |axes| > 0
    ensures SetPlotDataSpec(Unset, axes).data ==
      Success(PlotData([], [], 0, 0, map[AxisKey(0) := AxisTooltip([], [])]))
  {
    assert DefaultGroups(0) == [];
  }

  /** A plot with no axes cannot be exported: the default add_tooltip fails. */
  lemma NoAxesPlotData(s: TooltipState)
    requires s.labels.None?
    ensures SetPlotDataSpec(s, []).data == Failure(NoAxes)
  {
  }

  // ---------------------------------------------------------------------
  // css and interactive.__add__
  // ---------------------------------------------------------------------

  /** A CSS rule set given as a dict: selector to property to value. */
  type CssRules = map<string, map<string, string>>

  /** A `css` object; its content is unset when no source was given. */
  datatype Css = Css(content: Option<string>)

  /** css.__init__: a string wins over a dict, a dict over a file.
      `rulesToCss` and `readCss` stand for the `ninejs.style` helpers. */
  function CssFrom(fromString: Option<string>, fromDict: Option<CssRules>, fromFile: Option<string>,
                   rulesToCss: CssRules -> string, readCss: string -> string): (c: Css)
    ensures c.content.Some? <==> fromString.Some? || fromDict.Some? || fromFile.Some?
    ensures fromString.Some? ==> c.content == fromString
    ensures fromString.None? && fromDict.Some? ==> c.content == Some(rulesToCss(fromDict.value))
    ensures fromString.None? && fromDict.None? && fromFile.Some? ==> c.content == Some(readCss(fromFile.value))
  {
    if fromString.Some? then Css(fromString)
    else if fromDict.Some? then Css(Some(rulesToCss(fromDict.value)))
    else if fromFile.Some? then Css(Some(readCss(fromFile.value)))
    else Css(None)
  }

  /** What can stand on the right of `interactive(...) + ...`. */
  datatype Addend = CssObject(css: Css) | ToHtml(filePath: string) | OtherObject

  const DefaultFavicon := "https://github.com/JosephBARBIERDARNAL/static/blob/main/python-libs/plotjs/favicon.ico?raw=true"
  const DefaultTitle := "Made with ninejs"

  // ---------------------------------------------------------------------
  // _InteractivePlot
  // ---------------------------------------------------------------------

  class InteractivePlot {
    const axes: seq<Axis>
    const defaultCss: string
    const jsParser: string
    var additionalCss: string
    var additionalJavascript: string
    var xShift: Option<int>
    var yShift: Option<int>
    var legendLabels: Option<seq<Value>>
    var labels: Option<seq<Value>>
    var groups: Option<seq<Value>>
    var axesTooltip: Option<map<string, AxisTooltip>>
    var plotDataJson: Option<PlotData>
    var faviconPath: Option<string>
    var documentTitle: Option<string>

    function State(): TooltipState
      reads this
    {
      TooltipState(xShift, yShift, legendLabels, labels, groups, axesTooltip)
    }

    /** `plot_data_json["axes"]` is the `axes_tooltip` dict itself, not a
        copy: while a document is stored, its axis table is the live one. */
    predicate Valid()
      reads this`plotDataJson, this`axesTooltip
    {
      plotDataJson.Some? ==> axesTooltip == Some(plotDataJson.value.axes)
    }

    /** The object __init__ builds once the figure's axes, the default
        stylesheet and the extracted parser script are known. */
    constructor(axes: seq<Axis>, defaultCss: string, jsParser: string)
      ensures this.axes == axes && this.defaultCss == defaultCss && this.jsParser == jsParser
      ensures additionalCss == "" && additionalJavascript == ""
      ensures State() == Unset
      ensures plotDataJson.None? && faviconPath.None? && documentTitle.None?
      ensures Valid()
    {
      this.axes := axes;
      this.defaultCss := defaultCss;
      this.jsParser := jsParser;
      additionalCss := "";
      additionalJavascript := "";
      xShift, yShift, legendLabels := None, None, None;
      labels, groups, axesTooltip := None, None, None;
      plotDataJson, faviconPath, documentTitle := None, None, None;
    }

    /** __init__ given the text of the parser script: the plot keeps the
        script from its class declaration on, and cannot be built when the
        declaration is missing. */
    static method Create(axes: seq<Axis>, defaultCss: string, parserScript: string)
      returns (r: Result<InteractivePlot, Error>)
      ensures SanitizeJs(parserScript, ParserMarker).Failure? ==>
        r == Failure(SanitizeJs(parserScript, ParserMarker).error)
      ensures SanitizeJs(parserScript, ParserMarker).Success? ==>
        && r.Success? && fresh(r.value)
        && r.value.jsParser == SanitizeJs(parserScript, ParserMarker).value
        && r.value.axes == axes && r.value.defaultCss == defaultCss
        && r.value.State() == Unset && r.value.additionalCss == "" && r.value.additionalJavascript == ""
        && r.value.plotDataJson.None? && r.value.faviconPath.None? && r.value.documentTitle.None?
        && r.value.Valid()
    {
      var js := SanitizeJs(parserScript, ParserMarker);
      if js.Failure? {
        return Failure(js.error);
      }
      var p := new InteractivePlot(axes, defaultCss, js.value);
      return Success(p);
    }

    /** add_tooltip. A stored JSON document sees the table update through
        the shared dict; its other entries stay as they were. */
    method AddTooltip(a: TooltipArgs) returns (err: Option<Error>)
      requires Valid()
      modifies this
      ensures Valid()
      ensures State() == AddTooltipSpec(old(State()), axes, a).state
      ensures err == AddTooltipSpec(old(State()), axes, a).error
      ensures additionalCss == old(additionalCss) && additionalJavascript == old(additionalJavascript)
      ensures old(plotDataJson).None? ==> plotDataJson.None?
      ensures old(plotDataJson).Some? ==>
        axesTooltip.Some? && plotDataJson == Some(old(plotDataJson).value.(axes := axesTooltip.value))
      ensures faviconPath == old(faviconPath) && documentTitle == old(documentTitle)
    {
      err := AssignTooltipAttributes(a);
      if plotDataJson.Some? && axesTooltip.Some? {
        plotDataJson := Some(plotDataJson.value.(axes := axesTooltip.value));
      }
    }

    /** The attribute assignments of add_tooltip in source order; an
        exception leaves the attributes assigned before it. This is the first
        half of `AddTooltip` and does not keep `Valid` on its own: callers
        use `AddTooltip`, which also updates a stored document's axis table. */
    method AssignTooltipAttributes(a: TooltipArgs) returns (err: Option<Error>)
      modifies this
      ensures State() == AddTooltipSpec(old(State()), axes, a).state
      ensures err == AddTooltipSpec(old(State()), axes, a).error
      ensures additionalCss == old(additionalCss) && additionalJavascript == old(additionalJavascript)
      ensures plotDataJson == old(plotDataJson)
      ensures faviconPath == old(faviconPath) && documentTitle == old(documentTitle)
    {
      xShift := Some(a.xShift);
      yShift := Some(a.yShift);

      var resolved := ResolveAxis(axes, a.ax);
      if resolved.Failure? {
        return Some(resolved.error);
      }
      var ax := resolved.value;
      legendLabels := Some(ax.legendLabels);

      var newLabels := if a.labels.None? then Success([]) else Extended(a.labels.value, ax.legendLabels);
      if newLabels.Failure? {
        return Some(newLabels.error);
      }
      labels := Some(newLabels.value);

      var newGroups :=
        if a.groups.None? then Success(DefaultGroups(|newLabels.value|))
        else Extended(a.groups.value, ax.legendLabels);
      if newGroups.Failure? {
        return Some(newGroups.error);
      }
      groups := Some(newGroups.value);

      if axesTooltip.None? {
        axesTooltip := Some(map[]);
      }
      var k := IndexOf(axes, ax);
      if k.None? {
        return Some(AxisNotInFigure);
      }
      axesTooltip := Some(axesTooltip.value[AxisKey(k.value) := AxisTooltip(newLabels.value, newGroups.value)]);
      return None;
    }

    method SetPlotDataJson() returns (err: Option<Error>)
      requires Valid()
      modifies this
      ensures Valid()
      ensures State() == SetPlotDataSpec(old(State()), axes).state
      ensures SetPlotDataSpec(old(State()), axes).data.Success? ==>
        err.None? && plotDataJson == Some(SetPlotDataSpec(old(State()), axes).data.value)
      ensures SetPlotDataSpec(old(State()), axes).data.Failure? ==>
        err == Some(SetPlotDataSpec(old(State()), axes).data.error) && plotDataJson == old(plotDataJson)
      ensures additionalCss == old(additionalCss) && additionalJavascript == old(additionalJavascript)
      ensures faviconPath == old(faviconPath) && documentTitle == old(documentTitle)
    {
      if labels.None? {
        err := AddTooltip(NoTooltipArgs);
        if err.Some? {
          return;
        }
      }
      var data := ReadPlotData(State());
      if data.Failure? {
        return Some(data.error);
      }
      plotDataJson := Some(data.value);
      return None;
    }

    /** as_html: builds the JSON document as `_set_html` does, then renders
        the template, which reads the favicon path and the title that only
        `save` sets; a plot never saved raises there. */
    method AsHtml() returns (err: Option<Error>)
      requires Valid()
      modifies this
      ensures Valid()
      ensures State() == SetPlotDataSpec(old(State()), axes).state
      ensures SetPlotDataSpec(old(State()), axes).data.Success? ==>
        && plotDataJson == Some(SetPlotDataSpec(old(State()), axes).data.value)
        && (faviconPath.None? ==> err == Some(MissingAttribute("_favicon_path")))
        && (faviconPath.Some? && documentTitle.None? ==> err == Some(MissingAttribute("_document_title")))
        && (faviconPath.Some? && documentTitle.Some? ==> err.None?)
      ensures SetPlotDataSpec(old(State()), axes).data.Failure? ==>
        err == Some(SetPlotDataSpec(old(State()), axes).data.error) && plotDataJson == old(plotDataJson)
      ensures additionalCss == old(additionalCss) && additionalJavascript == old(additionalJavascript)
      ensures faviconPath == old(faviconPath) && documentTitle == old(documentTitle)
    {
      err := SetPlotDataJson();
      if err.Some? {
        return;
      }
      if faviconPath.None? {
        return Some(MissingAttribute("_favicon_path"));
      }
      if documentTitle.None? {
        return Some(MissingAttribute("_document_title"));
      }
      return None;
    }

    method AddCss(cssContent: string)
      modifies this`additionalCss
      ensures additionalCss == old(additionalCss) + cssContent
    {
      additionalCss := additionalCss + cssContent;
    }

    /** save: records the favicon and title, builds the JSON document and
        yields the path the page is written to. */
    method Save(filePath: string, favicon: string, title: string) returns (r: Result<string, Error>)
      requires Valid()
      modifies this
      ensures Valid()
      ensures faviconPath == Some(favicon) && documentTitle == Some(title)
      ensures State() == SetPlotDataSpec(old(State()), axes).state
      ensures SetPlotDataSpec(old(State()), axes).data.Success? ==>
        r == Success(HtmlPath(filePath)) && plotDataJson == Some(SetPlotDataSpec(old(State()), axes).data.value)
      ensures SetPlotDataSpec(old(State()), axes).data.Failure? ==>
        r == Failure(SetPlotDataSpec(old(State()), axes).data.error) && plotDataJson == old(plotDataJson)
      ensures additionalCss == old(additionalCss) && additionalJavascript == old(additionalJavascript)
    {
      faviconPath := Some(favicon);
      documentTitle := Some(title);
      var err := SetPlotDataJson();
      if err.Some? {
        return Failure(err.value);
      }
      var path := filePath;
      if !EndsWith(path, ".html") {
        path := path + ".html";
      }
      return Success(path);
    }
  }

  // ---------------------------------------------------------------------
  // interactive
  // ---------------------------------------------------------------------

  class Interactive {
    const mp: InteractivePlot

    /** The object __init__ builds around its `_InteractivePlot`. */
    constructor(mp: InteractivePlot)
      ensures this.mp == mp
    {
      this.mp := mp;
    }

    /** `self + other`: a css object appends its content to the plot's CSS,
        a to_html object saves the plot with the default favicon and title,
        anything else is ignored. */
    method Add(other: Addend) returns (err: Option<Error>, savedTo: Option<string>)
      requires mp.Valid()
      modifies mp
      ensures mp.Valid()
      ensures other.CssObject? && other.css.content.Some? ==>
        && err.None? && savedTo.None?
        && mp.additionalCss == old(mp.additionalCss) + other.css.content.value
        && mp.State() == old(mp.State())
      ensures other.CssObject? && other.css.content.None? ==>
        && err == Some(MissingAttribute("css_content")) && savedTo.None?
        && mp.additionalCss == old(mp.additionalCss) && mp.State() == old(mp.State())
      ensures other.ToHtml? ==>
        && mp.faviconPath == Some(DefaultFavicon) && mp.documentTitle == Some(DefaultTitle)
        && mp.additionalCss == old(mp.additionalCss)
        && mp.State() == SetPlotDataSpec(old(mp.State()), mp.axes).state
        && (SetPlotDataSpec(old(mp.State()), mp.axes).data.Success? ==>
              && err.None? && savedTo == Some(HtmlPath(other.filePath))
              && mp.plotDataJson == Some(SetPlotDataSpec(old(mp.State()), mp.axes).data.value))
        && (SetPlotDataSpec(old(mp.State()), mp.axes).data.Failure? ==>
              && err == Some(SetPlotDataSpec(old(mp.State()), mp.axes).data.error) && savedTo.None?
              && mp.plotDataJson == old(mp.plotDataJson))
      ensures other.OtherObject? ==>
        err.None? && savedTo.None? && mp.additionalCss == old(mp.additionalCss) && mp.State() == old(mp.State())
      ensures mp.additionalJavascript == old(mp.additionalJavascript)
      ensures !other.ToHtml? ==>
        && mp.plotDataJson == old(mp.plotDataJson)
        && mp.faviconPath == old(mp.faviconPath) && mp.documentTitle == old(mp.documentTitle)
    {
      err, savedTo := None, None;
      match other
      case CssObject(c) =>
        if c.content.None? {
          err := Some(MissingAttribute("css_content"));
        } else {
          mp.AddCss(c.content.value);
        }
      case ToHtml(path) =>
        var r := mp.Save(path, DefaultFavicon, DefaultTitle);
        if r.Failure? {
          err := Some(r.error);
        } else {
          savedTo := Some(r.value);
        }
      case OtherObject =>
    }
  }
}
