# ninejs tooltip contract and hover state machine, in Dafny

ninejs turns a static matplotlib/plotnine figure into an interactive HTML
page. Two pieces of logic link a plot's tooltip metadata to the behaviour of
the exported page, and this project models both:

- **The contract builder** (`NineJs`, in `ninejs.dfy`). The `_InteractivePlot`
  object stores the tooltip labels, groups and pixel shifts and a per-axis
  table keyed `"axes_{k+1}"`. `add_tooltip` fills that state and
  `_set_plot_data_json` reads it into the JSON document embedded in the page.
  The model also covers the helpers beside them:
  - `_vector_to_list` input normalisation;
  - the extraction of the parser script from its class declaration on;
  - the `.html` rule of `save`;
  - CSS accumulation;
  - the `css` constructor's source priority;
  - `interactive.__add__` dispatch.

  `_InteractivePlot` becomes a class whose methods update its fields. Each
  method is specified by a pure function of the old state
  (`AddTooltipSpec`, `SetPlotDataSpec`), and the lemmas are proved about
  those functions. An attribute that Python may not have yet (`hasattr`) is an
  `Option` field. `add_tooltip` can raise part-way through, so the model keeps
  the attributes already set at each exception point.
- **The browser-side parser** (`PlotParser`, in `plot_parser.dfy`). The
  `PlotSVGParser` class and the handlers its `setHoverEffect` installs
  (class `HoverEffect`) work over an array of element records. Each record
  holds a class set, a `data-group` attribute and an "inside a
  `matplotlib.axis` group" flag. The tooltip is a record of display, left,
  top and html. The finders tag the selections in place, and `findLines`
  filters out tick paths. `mouseover` marks the hovered group and positions
  and fills the tooltip. `mouseout` clears the marks and hides the tooltip.
  JavaScript `undefined` is `None`. `tooltip_groups[i] === hovered_group`
  becomes equality of optional values, so two out-of-range entries count as
  the same group.

`common.dfy` holds `Option`, `Result`, the `Value` type of labels and groups
(a number or a string) and JavaScript indexing (`At`). `end_to_end.dfy`
connects the two sides.

On these points the model follows the code as written:
- Default groups are `list(range(len(labels)))`, counted over the labels after
  the legend labels were appended. They are not extended separately.
- Explicit groups are extended with the legend *labels*.
- Nothing checks that labels, groups and elements have the same length.
- The tooltip position is not clamped to the viewport.
- A second mouseover without a mouseout in between leaves `hovered` on
  elements of the old group. They also get `not-hovered`.
- `as_html` on a plot that was never saved raises AttributeError, because the
  template reads `_favicon_path`, which only `save` sets. This applies to the
  chained `add_tooltip(...).as_html()` call shown in its docstring.
- `plot_data_json["axes"]` is the `axes_tooltip` dict itself. A later
  `add_tooltip` therefore also changes the axis table of a document already
  built. The class invariant `Valid` states this sharing.

## Model

| member | source | states |
|---|---|---|
| `Common.At` | ninejs/static/PlotParser.js:26 | JavaScript `s[i]` (here `tooltip_groups[i]`, and also at lines 59, 63 and 72): the element when i is in range, `undefined` (None) past the end |
| `NineJs.VectorToList` | ninejs/main.py:44-51 | lists, tuples, arrays and series give their elements in order; every other kind fails with a message that starts with the supplied name |
| `NineJs.FindFrom` | ninejs/main.py:58 | the result is an occurrence of the marker with none before it, or there is no occurrence at all |
| `NineJs.SanitizeJs` | ninejs/main.py:58-62 | succeeds exactly when the marker occurs; the result is the suffix of the content that starts at the first occurrence; otherwise the error names the pattern |
| `NineJs.HtmlPath` | ninejs/main.py:319-320 | the path always ends in `.html`; a path already ending so is kept, any other gets `.html` appended once |
| `NineJs.HtmlPathIdempotent` | ninejs/main.py:319-320 | applying the rule to its own output changes nothing |
| `NineJs.DecimalString` | ninejs/main.py:177-178 | `str(n)` is a non-empty string of decimal digits, one digit long exactly below 10 |
| `NineJs.DecimalRoundTrip` | ninejs/main.py:177-178 | reading the decimal string back gives the number |
| `NineJs.DecimalStringInjective` | ninejs/main.py:177-178 | two numbers have the same decimal string exactly when they are equal |
| `NineJs.AxisKey` | ninejs/main.py:176-178 | the key is `axes_` followed by a digit string that reads back as k + 1 |
| `NineJs.IndexOf` | ninejs/main.py:176 | the first position holding the axis, or none exactly when the axis is absent (where `list.index` raises) |
| `NineJs.AxisKeyInjective` | ninejs/main.py:176-182 | `"axes_{j+1}"` and `"axes_{k+1}"` coincide exactly when j = k, so different axes never share an entry |
| `NineJs.ResolveAxis` | ninejs/main.py:157-158 | the given axis; without one, the figure's first axis, or the IndexError of `self.axes[0]` when the figure has none |
| `NineJs.Extended` | ninejs/main.py:166-167 | used for the labels here and for the groups at lines 171-172: succeeds exactly for a supported vector kind; the result is the converted items followed by the legend labels; otherwise the conversion error |
| `NineJs.DefaultGroups` | ninejs/main.py:168-169 | `list(range(n))`: n entries, the k-th being k |
| `NineJs.DefaultGroupsDistinct` | ninejs/main.py:168-169 | the default groups are 0..n-1 and pairwise distinct |
| `NineJs.AddTooltipSpec` | ninejs/main.py:154-183 | add_tooltip as a function of the old attributes: no attribute once set is unset and no axis entry is dropped; after success every tooltip attribute is set; after an exception the axis table has the same entries as before |
| `NineJs.AddTooltipSucceeds` | ninejs/main.py:154-183 | the shifts are always stored; the call succeeds exactly when the axis is in the figure (or, when not given, the figure has an axis) and every given vector is of a supported kind |
| `NineJs.AddTooltipLabels` | ninejs/main.py:159-167 | no labels gives an empty label list; given labels become the converted labels followed by the legend labels in legend order |
| `NineJs.AddTooltipGroups` | ninejs/main.py:168-172 | no groups gives `[0, ..., len(labels)-1]` over the extended labels, all distinct; given groups become the converted groups followed by the legend labels |
| `NineJs.AddTooltipEntry` | ninejs/main.py:174-183 | after success on the axis at position k, `axes_{k+1}` holds exactly the new labels and groups; the key set gains only that key; every other entry is unchanged |
| `NineJs.AddTooltipReplaces` | ninejs/main.py:174-183 | a second call on the same axis replaces that axis's entry with its own labels and groups and adds no key |
| `NineJs.AddTooltipTwoAxes` | ninejs/main.py:174-183 | calls on two different axes keep both entries; the first call's entry survives the second |
| `NineJs.ReadPlotData` | ninejs/main.py:191-197 | the document is built exactly when labels, groups, both shifts and the axis table are set, and then carries those values; otherwise an AttributeError |
| `NineJs.SetPlotDataSpec` | ninejs/main.py:187-197 | once labels are set the attributes are left alone; no attribute is unset; a built document is the one read from the attributes after the call; when a default add_tooltip fails, the axis table keeps its entries |
| `NineJs.ContractRoundTrip` | ninejs/main.py:187-197 | after a successful add_tooltip, the JSON document carries exactly the stored labels, groups, shifts and axis table |
| `NineJs.DefaultPlotData` | ninejs/main.py:187-197 | a plot never given a tooltip exports empty labels and groups, zero shifts and one empty entry `axes_1` |
| `NineJs.NoAxesPlotData` | ninejs/main.py:157-158 | with no tooltip yet and no axes, exporting fails with the IndexError of `self.axes[0]` |
| `NineJs.CssFrom` | ninejs/main.py:407-413 | a string wins over a dict and a dict over a file; with no source the content is left unset |
| `NineJs.InteractivePlot.constructor` | ninejs/main.py:97-108 | a new plot has its axes and parser script, empty extra CSS and JavaScript, and no tooltip attribute set |
| `NineJs.InteractivePlot.Create` | ninejs/main.py:97-108 | the stored parser script is the sanitised script, with the given axes, empty extra CSS and JavaScript, no tooltip attribute, no JSON document, favicon or title, and the invariant holding; construction fails with the same error when the class declaration is missing |
| `NineJs.InteractivePlot.AddTooltip` | ninejs/main.py:110-185 | the new attributes and the raised error are those of `AddTooltipSpec` on the old attributes; a JSON document built earlier keeps its labels, groups and shifts, but its `axes` is the updated live table (the shared dict of main.py:183 and 196); CSS, JavaScript, favicon and title are untouched |
| `NineJs.InteractivePlot.AssignTooltipAttributes` | ninejs/main.py:154-183 | the attribute assignments in source order: the attributes and error are those of `AddTooltipSpec`, and no other field changes |
| `NineJs.InteractivePlot.SetPlotDataJson` | ninejs/main.py:187-197 | runs a default add_tooltip when no labels were set, then stores the JSON document read from the attributes, or reports the error and keeps the old document; the document's `axes` stays the live table |
| `NineJs.InteractivePlot.AsHtml` | ninejs/main.py:199-240 | builds the document as `SetPlotDataJson` does; then raises AttributeError for `_favicon_path` (or `_document_title`) when `save` never set it, and succeeds otherwise |
| `NineJs.InteractivePlot.AddCss` | ninejs/main.py:282 | the extra CSS becomes the old extra CSS followed by the new text; nothing else changes |
| `NineJs.InteractivePlot.Save` | ninejs/main.py:285-324 | favicon and title are recorded, the JSON document is built, and the output path is the `.html` path of the argument; a build error is reported instead and the old JSON document is kept; CSS and JavaScript are untouched |
| `NineJs.Interactive.constructor` | ninejs/main.py:370-372 | the wrapper holds the given `_InteractivePlot` |
| `NineJs.Interactive.Add` | ninejs/main.py:374-380 | a css object appends its content (raising when it has none), a to_html object saves with the default favicon and title and stores the new JSON document (or keeps the old one on error), anything else changes nothing; extra JavaScript is never touched, and outside to_html the JSON document, favicon and title are kept |
| `PlotParser.Hover` | ninejs/static/PlotParser.js:60-66 | one element after the two passes: in the group it is `hovered` and not `not-hovered`; outside it is `not-hovered` and keeps its `hovered` status; other classes, `data-group` and the axis flag are kept |
| `PlotParser.SameGroup` | ninejs/static/PlotParser.js:59-63 | `tooltip_groups[j] === tooltip_groups[i]`: equal entries when both are in range, always when both are past the end, never when one is |
| `PlotParser.AfterMouseOver` | ninejs/static/PlotParser.js:59-66 | the selection after mouseover on i has the same length, and each element keeps its `data-group` and axis flag |
| `PlotParser.Unhover` | ninejs/static/PlotParser.js:75 | one element loses both hover classes and keeps everything else |
| `PlotParser.AfterMouseOut` | ninejs/static/PlotParser.js:74-76 | the selection after mouseout has the same length, and each element keeps its `data-group` and axis flag |
| `PlotParser.WithClasses` | ninejs/static/PlotParser.js:15 | the selection with every class attribute replaced by the given set; `data-group` and the axis flag are kept |
| `PlotParser.DataPaths` | ninejs/static/PlotParser.js:33-37 | the kept paths are no more than the given ones, and each is a given path outside every axis group |
| `PlotParser.DataPathsAppend` | ninejs/static/PlotParser.js:33-37 | filtering a concatenation is concatenating the filtered parts, so the order is kept |
| `PlotParser.DataPathsExact` | ninejs/static/PlotParser.js:33-37 | a path is kept exactly when it is selected and not inside a `matplotlib.axis` group |
| `PlotParser.MouseOverMarks` | ninejs/static/PlotParser.js:59-66 | after mouseover on i, an element whose group `===` i's group is `hovered` and not `not-hovered`; any other element is `not-hovered` and keeps its `hovered` status; other classes, `data-group` and position flag are unchanged |
| `PlotParser.HoveredElementIsHovered` | ninejs/static/PlotParser.js:62-66 | the hovered element itself is always `hovered` and never `not-hovered` |
| `PlotParser.MouseOverHighlightsGroup` | ninejs/static/PlotParser.js:59-66 | from a state without `hovered`, exactly the hovered group ends up `hovered` |
| `PlotParser.DistinctGroupsHighlightOne` | ninejs/static/PlotParser.js:62-66 | with pairwise distinct groups, from a cleared state, only the hovered element is `hovered` |
| `PlotParser.UndefinedGroupsHighlightTogether` | ninejs/static/PlotParser.js:59-63 | elements past the end of `tooltip_groups` all share the undefined group; with no groups, hovering highlights every element |
| `PlotParser.MouseOutClears` | ninejs/static/PlotParser.js:74-76 | after mouseout no element is `hovered` or `not-hovered`, whatever the state before; the other classes and `data-group` are kept |
| `PlotParser.MouseOutIdempotent` | ninejs/static/PlotParser.js:74-76 | doing mouseout twice equals doing it once |
| `PlotParser.MouseOverThenOut` | ninejs/static/PlotParser.js:55-77 | hovering and then leaving restores a selection that carried neither hover class |
| `PlotParser.SetClass` | ninejs/static/PlotParser.js:15 | every selected element's class attribute is replaced; nothing else about it changes |
| `PlotParser.PlotSVGParser.constructor` | ninejs/static/PlotParser.js:4-9 | the parser keeps the tooltip and the two shifts it is given |
| `PlotParser.PlotSVGParser.FindBars` | ninejs/static/PlotParser.js:11-17 | every selected path gets class `bar plot-element` and the same selection is returned |
| `PlotParser.PlotSVGParser.FindPoints` | ninejs/static/PlotParser.js:19-30 | the i-th point's `data-group` becomes `tooltip_groups[i]` (absent when undefined) and every point gets class `point plot-element` |
| `PlotParser.PlotSVGParser.FindLines` | ninejs/static/PlotParser.js:32-41 | the result is a new selection of the non-tick paths, in order, each with class `line plot-element` |
| `PlotParser.PlotSVGParser.FindAreas` | ninejs/static/PlotParser.js:43-50 | every selected path gets class `area plot-element` and the same selection is returned |
| `PlotParser.PlotSVGParser.SetHoverEffect` | ninejs/static/PlotParser.js:52-54 | the handlers are bound to this parser, the given selection, labels, groups and display value |
| `PlotParser.HoverEffect.constructor` | ninejs/static/PlotParser.js:52-54 | the handlers capture exactly the given parser, selection, labels, groups and display value |
| `PlotParser.HoverEffect.MouseOver` | ninejs/static/PlotParser.js:55-73 | the selection becomes `AfterMouseOver` of the old selection; the tooltip shows the display value at (pageX + x shift, pageY + y shift) with html `tooltip_labels[i]` (cleared when undefined); the shifts and arrays are untouched |
| `PlotParser.HoverEffect.MouseOut` | ninejs/static/PlotParser.js:74-77 | the selection becomes `AfterMouseOut` of the old selection; the tooltip keeps its position and html and its display becomes `none` |
| `EndToEnd.DefaultGroupsHighlightOne` | ninejs/main.py:168-169 | with groups left to their default, hovering a labelled element from a cleared state highlights that element alone |
| `EndToEnd.TwoPointScenario` | ninejs/main.py:154-197 | labels "A", "B" on a one-axis figure export groups 0 and 1, shifts 5 and one entry `axes_1`; hovering the second point shows "B" and highlights only it |

## Left out

- Rendering. `fig.savefig`, `gg.draw()`, `get_axes` and `get_legend_handles_labels` call into matplotlib and plotnine. The figure's axes are a constructor argument, and each axis carries its legend labels. The legend handles themselves are not modelled.
- I/O and templating. The model leaves out reading the default CSS and the parser file, the jinja2 rendering in `_set_html`, `uuid.uuid4()` and writing the HTML file. Only the pure results are kept: the sanitised script, the JSON document and the output path. `as_html` builds the JSON document as `_set_plot_data_json` does and then renders; the model keeps the document and the AttributeError of the render, and leaves out the HTML text itself.
- `is_numpy_array`, `is_into_series` and narwhals' `to_list` are replaced by the `VectorInput` kinds. A series carries the list its `to_list` returns. A multi-dimensional array, whose `list()` gives rows, is not distinguished.
- `NineJs.SanitizeJs` handles only the one pattern shape used, a literal text followed by `.*` under DOTALL. General regular expressions are not modelled.
- `NineJs.CssFrom`: `ninejs.style.from_dict` and `from_file` are not part of this model. They are passed in as functions.
- `interactive.__init__`'s extraction of tooltip and group columns from a ggplot mapping depends on plotnine objects and is not modelled. The `Interactive` constructor takes the finished `_InteractivePlot`.
- The `__main__` demo block.
- Python dict insertion order. `axes_tooltip` is a map, so the order of its keys in the JSON text is not modelled.
- Axes are compared by value (`Axis` id and legend) where Python compares the objects.
- Integers beyond 2^53 in magnitude. Python writes them exactly, but the page reads them as doubles, so `===` can equate two different integers. The model compares `Value`s exactly.
- A 0-d numpy array passes the array test, and `list()` then raises a TypeError rather than the named ValueError. `NdArray` always carries its elements and converts.
- Value types are limited to integers and strings. Floats, `None`/`null` and NaN (for which `===` is false) are not modelled. Stringification of the `data-group` attribute is also left out: the model stores the group value itself.
- d3 selector matching (`selectAll`), DOM event dispatch and `nodes().indexOf(this)` are left out. A selection is a given array, and the hovered index is a parameter of `MouseOver`.
- Object identity in Python. The one shared object that matters, the `axes_tooltip` dict inside a stored JSON document, is modelled by the invariant `Valid`. Beyond that, the lists stored in the document and in the axis table are values: none of them is changed after it is stored.
- Identity of DOM nodes across selections. A node is a record in an array, so two selections share nodes only when they are the same array. `FindLines` returns a fresh array of updated copies.
- Page coordinates are integers. The `"px"` suffix is presentation only and is dropped.
- Registering a handler on a node replaces any earlier handler on it. This is not modelled: each `SetHoverEffect` call yields its own `HoverEffect`.
