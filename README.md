# Plot core of qtlab, modelled in Dafny

qtlab's `plot.py` defines the abstract plots of a laboratory data-acquisition
program. A plot is bound to one or more data objects, redraws when they
announce new data, and leaves the drawing to a renderer subclass. This project
models the part of `plot.py` that makes decisions:

- the **redraw throttle** of `Plot.update`. A call redraws when it is forced,
  or when the plot's own `autoupdate` is not explicitly False, the global
  `auto-update` flag is on and more than `mintime` has passed since
  `_last_update`. A redraw stamps the clock first and then calls the renderer
  hook `_do_update`;
- the two **data callbacks**. The "new data point" handler swallows a failing
  redraw. The "new data block" handler lets the failure through;
- the **binding list** `_data`, and the default columns that `Plot2D.add_data`
  and `Plot3D.add_data` fill in. The coordinate columns default to `(0,)` and
  `(0, 1)`. The value column defaults to the number of coordinate columns,
  but at least 1 (2D) or 2 (3D);
- **label resolution**, the two `set_labels` methods. Each label the caller
  left empty is filled, binding after binding, from the data object's
  `format_label`. In 2D, a binding with a `right` or `top` option feeds the
  secondary axis. Afterwards the setters are called only for the labels that
  are non-empty.

Files and modules:

- `plot_types.dfy` (`PlotTypes`): optional keyword arguments, the outcome
  of a renderer call, the data object (an identity plus its numbers of
  coordinate and value columns), the binding record, and the recorded
  renderer calls.
- `throttle.dfy` (`Throttle`): the redraw decision as a predicate, and runs
  of successive updates, with the throttle's guarantees proved over any run.
- `dims.dfy` (`Dims`): the bindings that 2D and 3D `add_data` build.
- `labels.dfy` (`Labels`): label resolution as a fold over the bindings,
  the setter calls that follow it, and lemmas about both.
- `plots.dfy` (`Plots`): the classes `Plot`, `Plot2D` and `Plot3D`. Their
  methods change the plot's state as the Python methods do. Each method is
  proved against the functions above.

Modelling choices:

- Python's inheritance becomes composition. A `Plot2D` or `Plot3D` owns the
  `Plot` it extends, in the field `plot`.
- The clock is an integer parameter `now`. The global configuration flag is
  the parameter `cfgAutoUpdate`.
- The renderer hook's result is a parameter `hook`: `Pass`, or `Fail` when
  `_do_update` raises. A plot appends every call it makes to the renderer's
  extension points to its `calls` log.
- `format_label` is a function parameter `fmt`, and nothing is assumed
  about it. In particular it may return the empty string.

Notes on what the code does:

- `update`'s own default is `force=True` (plot.py:108), so `Plot.Update`'s
  `force` defaults to true. The data callbacks pass false.
- `Plot3D.set_labels` fills each still-empty label from every binding in
  turn (plot.py:260-267), as the 2D loop does.
  `Labels.Resolve3DIsFirstNonEmpty` states the exact behaviour.
- No column index is range-checked when a binding is added
  (plot.py:172-188, 240-252). The model has no "invalid dimension" error.

## Model

| member | source | states |
|---|---|---|
| `Throttle.Triggers` | plot.py:118-124 | `update` never redraws without a reason: only a forced call, or one with the global flag on and more than `mintime` elapsed, redraws. A plot with `autoupdate` explicitly False redraws only when forced. |
| `Throttle.Stamp` | plot.py:124-125 | `_last_update` either keeps its value or moves to the call's clock reading, so it stays between the old stamp and the reading. A non-forced call within `mintime` of the stamp leaves it alone. |
| `Throttle.ForcedUpdateTriggers` | plot.py:118-126 | A forced update redraws whatever `autoupdate`, the global flag and the elapsed time are. |
| `Throttle.DisabledUpdateNeverTriggers` | plot.py:120-121 | A non-forced update never redraws when `autoupdate` is explicitly False, whatever the global flag and the elapsed time. |
| `Throttle.UpdateTriggersIff` | plot.py:118-126 | With `autoupdate` unset or True, a non-forced update redraws if and only if the global flag is on and the elapsed time exceeds `mintime`. |
| `Throttle.RenderTimesAreTickTimes` | plot.py:124-126 | Over any run of updates, every redraw happens at the clock reading of one of the calls. |
| `Throttle.RenderTimesSpaced` | plot.py:118-126 | Over any run of non-forced updates with `mintime >= 0`, each redraw comes more than `mintime` after the stamp before the run, and any two redraws are more than `mintime` apart. |
| `Throttle.NoRenderWithinMinTime` | plot.py:118-126 | Non-forced updates whose clock readings are all within `mintime` of the last redraw do not redraw. |
| `Throttle.AtMostOneRenderPerWindow` | plot.py:118-126 | Any number of non-forced updates arriving within one window of length `mintime` redraw at most once. |
| `Throttle.TwoCloseUpdatesRenderAtMostOnce` | plot.py:118-126 | Two non-forced updates whose clock readings differ by at most `mintime` redraw at most once. |
| `Throttle.LastUpdateNeverDecreases` | plot.py:118-126 | With a clock that never goes back, `_last_update` after each call of a run is no lower than before, no higher than that call's reading, and never decreases from call to call. |
| `Throttle.DisabledRunNeverRenders` | plot.py:120-121 | A plot whose `autoupdate` is explicitly False never redraws and never moves `_last_update` over any run of non-forced updates. |
| `Throttle.ForcedRunRendersEach` | plot.py:124-126 | A run of forced updates redraws on every call, at that call's clock reading. |
| `Dims.DefaultValueDim` | plot.py:179-184 | The default value column is at least the floor and at least the number of coordinate columns, and it equals one of the two. |
| `Dims.Binding2D` | plot.py:172-188 | A 2D binding keeps the data object and the other options. Its coordinate columns are `(0,)` when `coorddim` is absent and `(coorddim,)` otherwise. Its value column is an explicit `valdim` unchanged (0 included), or else the number of coordinate columns floored at 1. |
| `Dims.Binding3D` | plot.py:240-252 | A 3D binding keeps the data object. Its coordinate columns are `(0, 1)` when absent and the given pair otherwise. Its value column is an explicit `valdim` unchanged, or else the number of coordinate columns floored at 2. |
| `Dims.Defaults2DAreDistinct` | plot.py:172-185 | With both dimensions left out, a 2D binding's value column is not its coordinate column, is at least 1, and is the number of coordinate columns when there is one. |
| `Dims.Defaults3DAreDistinct` | plot.py:240-250 | With both dimensions left out, a 3D binding's value column is neither coordinate column, is at least 2, and is the number of coordinate columns when there are at least two. |
| `Dims.Plot2DDefaultsExample` | plot.py:172-185 | A source with 3 coordinate and 2 value columns gets coordinate columns `(0,)` and value column 3 in 2D. |
| `Dims.Plot3DDefaultsExample` | plot.py:240-250 | A source with 1 coordinate and 1 value column gets coordinate columns `(0, 1)` and value column 2 in 3D. |
| `Labels.FirstNonEmpty` | plot.py:260-267 | The result is the given label when non-empty. Otherwise it is empty exactly when all candidates are empty, and else it is the first non-empty candidate. |
| `Labels.LabelCalls2D` | plot.py:203-210 | `set_xlabel` (left, and right as the secondary axis) and `set_ylabel` (bottom, and top as the secondary axis) are each called exactly when their label is non-empty. No other call is made, and no empty label is ever set. One call is made per non-empty label, so no call is repeated. |
| `Labels.Step2D` | plot.py:192-201 | One turn of the 2D loop keeps every non-empty label. A label that changes takes the binding's coordinate label (left, right) or value label (bottom, top). The right and top labels change only for a binding with that option, and the coordinate label fills at most one of left and right, the value label at most one of bottom and top. |
| `Labels.Resolve2D` | plot.py:191-201 | Over any bindings, the 2D loop never replaces a label that is non-empty, such as a non-empty argument. |
| `Labels.Resolve2DAppend` | plot.py:191-201 | Running the 2D loop over `a + b` is running it over `a` and then over `b`. |
| `Labels.Resolve2DSticky` | plot.py:191-201 | Once the 2D loop has made a label non-empty, later bindings do not overwrite it. |
| `Labels.Resolve2DProvenance` | plot.py:193-201 | Each resolved 2D label is either the argument or the formatted coordinate label (left, right) or value label (bottom, top) of some binding. The right and top labels only ever come from a binding carrying the `right` or `top` option. |
| `Labels.Resolve2DRight` | plot.py:193-194 | The right label is the argument when non-empty, and otherwise the first non-empty formatted coordinate label among the bindings carrying the `right` option, in order. |
| `Labels.Resolve2DTop` | plot.py:198-199 | The top label is the argument when non-empty, and otherwise the first non-empty formatted value label among the bindings carrying the `top` option, in order. |
| `Labels.Resolve2DPrimaryOnly` | plot.py:193-201 | Without `right` and `top` options, the right and top labels stay as given. The left and bottom labels are the argument, or else the first non-empty formatted coordinate or value label across the bindings. |
| `Labels.Resolve2DLeft` | plot.py:193-196 | The left label is the argument when non-empty, and otherwise the first non-empty coordinate label offered to it. While the right label is empty, a binding with the `right` option gives its label to the right label instead; after that it falls through to the left label, as every other binding does. |
| `Labels.Resolve2DBottom` | plot.py:198-201 | The bottom label is the same as the left label, with value labels and the `top` option and top label. |
| `Labels.CandidatesWhenSecondaryGiven` | plot.py:193-201 | Once the right (top) label is non-empty, every binding's coordinate (value) label is offered to the left (bottom) label. |
| `Labels.TwoRightBindingsExample` | plot.py:193-196 | Two bindings with the `right` option labelled "A" and "B", with every label empty: the right label becomes "A" and the left label becomes "B". |
| `Labels.NoBindings2D` | plot.py:190-210 | With no bindings, the 2D labels are exactly the arguments, so only the non-empty arguments are set. |
| `Labels.Step3D` | plot.py:261-267 | One turn of the 3D loop gives each axis the first non-empty label among its current label and the binding's formatted label for that axis. |
| `Labels.Resolve3D` | plot.py:260-267 | Over any bindings, the 3D loop never replaces a non-empty label. |
| `Labels.LabelCalls3D` | plot.py:269-274 | `set_xlabel`, `set_ylabel` and `set_zlabel` are each called exactly when their label is non-empty, and no empty label is ever set. One call is made per non-empty label, so no call is repeated. |
| `Labels.Resolve3DIsFirstNonEmpty` | plot.py:260-267 | Each resolved 3D label is the argument when non-empty, and otherwise the first non-empty formatted label, across the bindings in order, of the column that axis selects. |
| `Labels.Resolve3DAppend` | plot.py:260-267 | Running the 3D loop over `a + b` is running it over `a` and then over `b`. |
| `Labels.Resolve3DSticky` | plot.py:260-267 | Once the 3D loop has made a label non-empty, later bindings do not overwrite it. |
| `Labels.NoBindings3D` | plot.py:254-274 | With no bindings, the 3D labels are exactly the arguments. |
| `Plots.Plot.constructor` | plot.py:64-79 | A new plot has the given name and options, with defaults maxpoints 10000, maxtraces 5, mintime 1 and autoupdate None. It has no bindings, no renderer calls and `_last_update` 0. |
| `Plots.Plot.AddData` | plot.py:91-95 | Exactly one binding, holding the data object and the given options, is appended at the end. The earlier bindings and their order are unchanged. |
| `Plots.Plot.Update` | plot.py:108-126 | The new stamp and the renderer calls are those the throttle decides, and the bindings are unchanged. A forced call redraws once and stamps `now`. A non-forced call with `autoupdate` False changes nothing. Otherwise a non-forced call redraws if and only if the flag is on and more than `mintime` has elapsed. The hook's failure is returned only when it was called. |
| `Plots.Plot.NewDataPointCb` | plot.py:128-132 | Makes the same state change as a non-forced update, and returns normally whatever the hook's outcome. |
| `Plots.Plot.NewDataBlockCb` | plot.py:134-135 | Makes the same state change as a non-forced update, and returns the hook's failure whenever the hook was called and failed. |
| `Plots.Plot2D.constructor` | plot.py:81-84 | A new 2D plot with the given options, bound in order to each source through 2D `add_data` with the constructor's `coorddim` and `valdim`. |
| `Plots.Plot2D.AddData` | plot.py:159-188 | Appends exactly the binding that `Dims.Binding2D` describes, and keeps every binding in 2D shape. |
| `Plots.Plot2D.ResolveLabels` | plot.py:191-201 | The `if`/`elif` loop over the bindings yields exactly `Resolve2D` of the arguments, so every property proved of `Resolve2D` holds for the labels `set_labels` uses. The plot is not changed. |
| `Plots.Plot2D.SetLabels` | plot.py:190-210 | The setter calls made are `LabelCalls2D` of the labels the loop resolves from the arguments over all bindings. |
| `Plots.Plot3D.constructor` | plot.py:81-84 | A new 3D plot with the given options, bound in order to each source through 3D `add_data` with the constructor's `coorddims` and `valdim`. |
| `Plots.Plot3D.AddData` | plot.py:227-252 | Appends exactly the binding that `Dims.Binding3D` describes, and keeps every binding in 3D shape. |
| `Plots.Plot3D.ResolveLabels` | plot.py:260-267 | The loop over the bindings yields exactly `Resolve3D` of the arguments, and so the first non-empty formatted label for each axis left empty. The plot is not changed. |
| `Plots.Plot3D.SetLabels` | plot.py:254-274 | The setter calls made are `LabelCalls3D` of the labels the loop resolves from the arguments over all bindings. |

## Left out

- The plot registry (`_PlotList`, `new_item_name`, `add`, `get_named_list`, `get`) is left out. Its naming and uniqueness logic lives in `namedlist`, which is not part of this model. The constructors take the already resolved name. That two unnamed plots get distinct names is therefore not modelled.
- The signal wiring (`data.connect`) is left out. The callbacks are methods that the environment calls directly.
- Loading a data object from a file-name argument (`os.path.isfile`, `Data(arg)`) is left out, because it is file I/O into an external class. The constructors take data objects only.
- The base `Plot` constructor binds no positional data objects. `Plot` is abstract, and its subclasses' constructors, which dispatch to their own `add_data`, are modelled.
- Plot2D.constructor: has no `coorddims` option. In the source such an option is forwarded to 2D `add_data`, which overwrites it.
- Plot3D.constructor: has no `coorddim` option. In the source that option makes 3D `add_data` raise a TypeError.
- Plots.Plot3D.AddData: takes the coordinate columns as a pair. In the source a longer tuple also works, because `set_labels` reads only its first two entries (plot.py:263, 265); only a tuple shorter than two makes it raise an IndexError. Neither longer nor shorter tuples are modelled.
- Plots.Plot2D.SetLabels: requires every binding to have the shape 2D `add_data` gives it. A binding added through the base `add_data` without `coorddims` or `valdim` makes the source raise a KeyError, and that error is not modelled. The same holds for Plots.Plot3D.SetLabels.
- A binding keeps only the names of its extra keyword options. The core only tests whether `right` or `top` is present; the values are for the renderer.
- Plots.Plot.Update: takes one clock reading. The source reads the clock twice, for the elapsed time and for the stamp; the model takes both readings to be equal. Floating-point seconds become integers.
- Plots.Plot.Update: does not forward its extra keyword arguments to `_do_update`. The data callbacks pass none, and the recorded `Render` call carries no options.
- `autoupdate` is an optional boolean. Python treats any falsy value other than None as False.
- The `logging.info` notices about several coordinate or value columns, and the warning that the point callback logs for a swallowed failure, are left out. They are side effects only.
- The renderer extension points `set_title`, `add_legend`, `plotxy` and `plotxyz` are left out. They do nothing and the core never calls them. `_do_update` and the label setters appear only as recorded calls.
- `set_maxpoints` is left out, and `maxpoints` and `maxtraces` are constants: they are advisory and the core never reads them.
- Failures raised by `format_label` or by the label setters are not modelled.
