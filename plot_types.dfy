/** Values shared by the plotting core: optional keyword arguments, the
    outcome of the renderer's hooks, the data sources a plot is bound to,
    the binding records themselves and the calls a plot makes to its
    renderer. */
module PlotTypes {

  /** A keyword argument that may be absent (Python's `None` default). */
  datatype Option<+T> = None | Some(value: T)

  /** What a call into the renderer came back with: normally, or by raising. */
  datatype Outcome = Pass | Fail(reason: string)

  /** A data object as the plotting core sees it: an identity (sources are
      shared, not owned) and the number of coordinate and value columns. */
  datatype DataSource = DataSource(id: nat, ncoordinates: nat, nvalues: nat)

  /** One entry of a plot's binding list: the data object plus the keyword
      options it was added with. `coorddims` and `valdim` are absent when the
      caller of the base `add_data` left them out; `keys` holds the names of
      the remaining keyword options (such as "right" or "top"), whose values
      only the renderer reads. */
  datatype Binding = Binding(
    data: DataSource,
    coorddims: Option<seq<int>>,
    valdim: Option<int>,
    keys: set<string>)

  /** A binding as Plot2D.add_data builds it: one coordinate column and a value column. */
  predicate Is2D(b: Binding) {
    b.coorddims.Some? && |b.coorddims.value| == 1 && b.valdim.Some?
  }

  /** A binding as Plot3D.add_data builds it: two coordinate columns and a value column. */
  predicate Is3D(b: Binding) {
    b.coorddims.Some? && |b.coorddims.value| == 2 && b.valdim.Some?
  }

  /** A call a plot makes into its renderer: the redraw hook `_do_update`, or
      one of the axis-label setters (`secondary` is the `right=True` /
      `top=True` flag of set_xlabel / set_ylabel). */
  datatype Call =
    | Render
    | SetXLabel(text: string, secondary: bool)
    | SetYLabel(text: string, secondary: bool)
    | SetZLabel(text: string)
}
