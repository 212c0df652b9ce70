/** The binding records that `Plot2D.add_data` and `Plot3D.add_data` build:
    which coordinate columns and which value column of the data object feed
    the plot when the caller leaves them out. */
module Dims {
  import opened PlotTypes

  /** The least value column a 2D plot falls back to. */
  const MinValueDim2D: nat := 1
  /** The least value column a 3D plot falls back to. */
  const MinValueDim3D: nat := 2

  /** The default value column: the first column after the coordinates,
      but never below `floor`. */
  function DefaultValueDim(data: DataSource, floor: nat): (v: nat)
    ensures v >= floor && v >= data.ncoordinates
    ensures v == floor || v == data.ncoordinates
  {
    if data.ncoordinates < floor then floor else data.ncoordinates
  }

  /** The binding `Plot2D.add_data(data, coorddim, valdim, **kwargs)` appends;
      `keys` are the names of the other keyword options. */
  function Binding2D(data: DataSource, coorddim: Option<int>, valdim: Option<int>, keys: set<string>): (b: Binding)
    ensures Is2D(b) && b.data == data && b.keys == keys
    ensures coorddim.None? ==> b.coorddims == Some([0])
    ensures coorddim.Some? ==> b.coorddims == Some([coorddim.value])
    ensures valdim.Some? ==> b.valdim == valdim
    ensures valdim.None? ==> b.valdim == Some(DefaultValueDim(data, MinValueDim2D))
  {
    var coorddims := match coorddim case None => [0] case Some(c) => [c];
    var v := match valdim case None => DefaultValueDim(data, MinValueDim2D) case Some(v) => v;
    Binding(data, Some(coorddims), Some(v), keys)
  }

  /** The binding `Plot3D.add_data(data, coorddims, valdim)` appends. */
  function Binding3D(data: DataSource, coorddims: Option<(int, int)>, valdim: Option<int>): (b: Binding)
    ensures Is3D(b) && b.data == data && b.keys == {}
    ensures coorddims.None? ==> b.coorddims == Some([0, 1])
    ensures coorddims.Some? ==> b.coorddims == Some([coorddims.value.0, coorddims.value.1])
    ensures valdim.Some? ==> b.valdim == valdim
    ensures valdim.None? ==> b.valdim == Some(DefaultValueDim(data, MinValueDim3D))
  {
    var cs := match coorddims case None => [0, 1] case Some(p) => [p.0, p.1];
    var v := match valdim case None => DefaultValueDim(data, MinValueDim3D) case Some(v) => v;
    Binding(data, Some(cs), Some(v), {})
  }

  /** With both dimensions left to their defaults, a 2D binding's value column
      is never its coordinate column, and all columns of the data object
      before the value column are coordinates (or there are none). */
  lemma Defaults2DAreDistinct(data: DataSource)
    ensures var b := Binding2D(data, None, None, {});
      && b.valdim.value !in b.coorddims.value
      && b.valdim.value >= 1
      && (data.ncoordinates >= 1 ==> b.valdim.value == data.ncoordinates)
  {
  }

  /** With both dimensions left to their defaults, a 3D binding's value column
      is neither of its coordinate columns. */
  lemma Defaults3DAreDistinct(data: DataSource)
    ensures var b := Binding3D(data, None, None);
      && b.valdim.value !in b.coorddims.value
      && b.valdim.value >= 2
      && (data.ncoordinates >= 2 ==> b.valdim.value == data.ncoordinates)
  {
  }

  /** A source with 3 coordinate and 2 value columns, bound to a 2D plot with
      no explicit dimensions: coordinate column 0, value column 3. */
  lemma Plot2DDefaultsExample()
    ensures var b := Binding2D(DataSource(0, 3, 2), None, None, {});
      b.coorddims == Some([0]) && b.valdim == Some(3)
  {
  }

  /** A source with 1 coordinate and 1 value column, bound to a 3D plot with
      no explicit dimensions: coordinate columns 0 and 1, value column 2. */
  lemma Plot3DDefaultsExample()
    ensures var b := Binding3D(DataSource(0, 1, 1), None, None);
      b.coorddims == Some([0, 1]) && b.valdim == Some(2)
  {
  }
}
