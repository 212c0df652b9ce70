/** The plot objects: the base `Plot`, which holds the binding list and
    throttles redraws, and the 2D and 3D plots, which choose the columns a
    data object feeds and derive the axis labels. Python's subclassing is
    rendered as composition: a Plot2D or Plot3D owns the Plot it extends.
    The renderer's extension points (`_do_update` and the label setters)
    do nothing in the base classes; a plot records each call it makes to
    them in `calls`. */
module Plots {
  import opened PlotTypes
  import Throttle
  import Dims
  import Labels

  const DefaultMaxPoints := 10000
  const DefaultMaxTraces := 5
  const DefaultMinTime := 1

  class Plot {
    /** The plot's name, as the plot registry resolved it. */
    const name: string
    const maxpoints: int
    const maxtraces: int
    /** Least number of seconds between two redraws that are not forced. */
    const mintime: int
    /** None: follow the global auto-update flag; Some(false): never redraw unless forced. */
    const autoupdate: Option<bool>

    /** Clock reading of the last redraw (`_last_update`). */
    var lastUpdate: int
    /** The bound data objects with their options, in the order they were added (`_data`). */
    var bindings: seq<Binding>
    /** The calls made to the renderer's extension points, oldest first. */
    var calls: seq<Call>

    constructor (name: string, maxpoints: int := DefaultMaxPoints, maxtraces: int := DefaultMaxTraces,
                 mintime: int := DefaultMinTime, autoupdate: Option<bool> := None)
      ensures this.name == name && this.maxpoints == maxpoints && this.maxtraces == maxtraces
      ensures this.mintime == mintime && this.autoupdate == autoupdate
      ensures lastUpdate == 0 && bindings == [] && calls == []
    {
      this.name := name;
      this.maxpoints := maxpoints;
      this.maxtraces := maxtraces;
      this.mintime := mintime;
      this.autoupdate := autoupdate;
      lastUpdate := 0;
      bindings := [];
      calls := [];
    }

    /** Appends one binding, `data` with the given options, after the existing ones. */
    method AddData(data: DataSource, coorddims: Option<seq<int>> := None, valdim: Option<int> := None,
                   keys: set<string> := {})
      modifies this`bindings
      ensures bindings == old(bindings) + [Binding(data, coorddims, valdim, keys)]
    {
      bindings := bindings + [Binding(data, coorddims, valdim, keys)];
    }

    /** The state an update at clock reading `now` leaves behind: the stamp
        and the redraw call exactly when the throttle lets it through, and
        nothing else changed. */
    twostate predicate UpdatedAt(force: bool, cfgAutoUpdate: bool, now: int)
      reads this
    {
      var fired := Throttle.Triggers(force, autoupdate, cfgAutoUpdate, now - old(lastUpdate), mintime);
      && lastUpdate == Throttle.Stamp(autoupdate, mintime, old(lastUpdate), Throttle.Tick(force, cfgAutoUpdate, now))
      && calls == old(calls) + (if fired then [Render] else [])
      && bindings == old(bindings)
    }

    /** `update`: redraws if forced, or if the plot's `autoupdate` is not
        explicitly False, the global auto-update flag `cfgAutoUpdate` is on
        and more than `mintime` has passed since the last redraw. A redraw
        first stamps `now` and then calls the renderer, whose outcome `hook`
        is returned; a failing redraw keeps the new stamp. */
    method Update(now: int, cfgAutoUpdate: bool, hook: Outcome, force: bool := true) returns (o: Outcome)
      modifies this`lastUpdate, this`calls
      ensures UpdatedAt(force, cfgAutoUpdate, now)
      ensures o == if Throttle.Triggers(force, autoupdate, cfgAutoUpdate, now - old(lastUpdate), mintime) then hook else Pass
      ensures force ==> lastUpdate == now && calls == old(calls) + [Render]
      ensures !force && autoupdate == Some(false) ==> lastUpdate == old(lastUpdate) && calls == old(calls)
      ensures !force && autoupdate != Some(false) ==>
        (calls != old(calls) <==> cfgAutoUpdate && now - old(lastUpdate) > mintime)
    {
      var dt := now - lastUpdate;
      if !force && autoupdate.Some? && !autoupdate.value {
        return Pass;
      }
      var cfgau := cfgAutoUpdate;
      if force || (cfgau && dt > mintime) {
        lastUpdate := now;
        calls := calls + [Render];
        o := hook;
      } else {
        o := Pass;
      }
    }

    /** Handler of a data object's "new data point" notification: a
        non-forced update whose failure is reported and swallowed. */
    method NewDataPointCb(now: int, cfgAutoUpdate: bool, hook: Outcome)
      modifies this`lastUpdate, this`calls
      ensures UpdatedAt(false, cfgAutoUpdate, now)
    {
      var o := Update(now, cfgAutoUpdate, hook, force := false);
      // A failure is reported as a warning naming the plot; logging is not modelled.
    }

    /** Handler of a data object's "new data block" notification: a
        non-forced update whose failure propagates to the caller. */
    method NewDataBlockCb(now: int, cfgAutoUpdate: bool, hook: Outcome) returns (o: Outcome)
      modifies this`lastUpdate, this`calls
      ensures UpdatedAt(false, cfgAutoUpdate, now)
      ensures o == if Throttle.Triggers(false, autoupdate, cfgAutoUpdate, now - old(lastUpdate), mintime) then hook else Pass
    {
      o := Update(now, cfgAutoUpdate, hook, force := false);
    }
  }

  class Plot2D {
    const plot: Plot

    /** Every binding was built the way `add_data` of a 2D plot builds it. */
    predicate Valid()
      reads this, plot
    {
      Labels.All2D(plot.bindings)
    }

    /** A 2D plot bound to each of `sources` in turn, with the constructor's
        `coorddim` and `valdim` options. */
    constructor (name: string, sources: seq<DataSource> := [], coorddim: Option<int> := None,
                 valdim: Option<int> := None, maxpoints: int := DefaultMaxPoints,
                 maxtraces: int := DefaultMaxTraces, mintime: int := DefaultMinTime,
                 autoupdate: Option<bool> := None)
      ensures Valid() && fresh(plot)
      ensures plot.name == name && plot.maxpoints == maxpoints && plot.maxtraces == maxtraces
      ensures plot.mintime == mintime && plot.autoupdate == autoupdate
      ensures plot.lastUpdate == 0 && plot.calls == []
      ensures |plot.bindings| == |sources|
      ensures forall i :: 0 <= i < |sources| ==> plot.bindings[i] == Dims.Binding2D(sources[i], coorddim, valdim, {})
    {
      plot := new Plot(name, maxpoints, maxtraces, mintime, autoupdate);
      new;
      var i := 0;
      while i < |sources|
        invariant 0 <= i <= |sources|
        invariant Valid()
        invariant plot.lastUpdate == 0 && plot.calls == []
        invariant |plot.bindings| == i
        invariant forall k :: 0 <= k < i ==> plot.bindings[k] == Dims.Binding2D(sources[k], coorddim, valdim, {})
      {
        AddData(sources[i], coorddim, valdim);
        i := i + 1;
      }
    }

    /** `add_data` of a 2D plot: appends the binding with its coordinate
        column (0 unless given) and value column (the first column after the
        coordinates, at least 1, unless given); `keys` names the other options. */
    method AddData(data: DataSource, coorddim: Option<int> := None, valdim: Option<int> := None,
                   keys: set<string> := {})
      modifies plot`bindings
      ensures plot.bindings == old(plot.bindings) + [Dims.Binding2D(data, coorddim, valdim, keys)]
      ensures old(Valid()) ==> Valid()
    {
      var b := Dims.Binding2D(data, coorddim, valdim, keys);
      plot.AddData(data, b.coorddims, b.valdim, keys);
    }

    /** The loop of `set_labels`: goes over the bindings in order, filling
        each label that is still empty from the binding's formatted labels. */
    method ResolveLabels(fmt: Labels.Formatter, left: string, bottom: string, right: string, top: string)
      returns (resolved: Labels.Labels2D)
      requires Valid()
      ensures resolved == Labels.Resolve2D(plot.bindings, Labels.Labels2D(left, bottom, right, top), fmt)
    {
      var bs := plot.bindings;
      var l, b, r, t := left, bottom, right, top;
      var i := 0;
      while i < |bs|
        invariant 0 <= i <= |bs|
        invariant Labels.Resolve2D(bs[i..], Labels.Labels2D(l, b, r, t), fmt)
               == Labels.Resolve2D(bs, Labels.Labels2D(left, bottom, right, top), fmt)
      {
        var d := bs[i];
        ghost var before := Labels.Labels2D(l, b, r, t);
        if "right" in d.keys && r == "" {
          r := fmt(d.data, d.coorddims.value[0]);
        } else if l == "" {
          l := fmt(d.data, d.coorddims.value[0]);
        }
        if "top" in d.keys && t == "" {
          t := fmt(d.data, d.valdim.value);
        } else if b == "" {
          b := fmt(d.data, d.valdim.value);
        }
        assert Labels.Step2D(before, d, fmt) == Labels.Labels2D(l, b, r, t);
        assert bs[i..][0] == d && bs[i..][1..] == bs[i + 1..];
        i := i + 1;
      }
      resolved := Labels.Labels2D(l, b, r, t);
    }

    /** `set_labels`: resolves every label left empty from the bindings and
        then calls the setters for the labels that are non-empty. */
    method SetLabels(fmt: Labels.Formatter, left: string := "", bottom: string := "",
                     right: string := "", top: string := "")
      requires Valid()
      modifies plot`calls
      ensures plot.calls == old(plot.calls)
        + Labels.LabelCalls2D(Labels.Resolve2D(plot.bindings, Labels.Labels2D(left, bottom, right, top), fmt))
    {
      var labels := ResolveLabels(fmt, left, bottom, right, top);
      var cs: seq<Call> := [];
      if labels.left != "" {
        cs := cs + [SetXLabel(labels.left, false)];
      }
      assert cs == Labels.CallIf(labels.left, SetXLabel(labels.left, false));
      if labels.right != "" {
        cs := cs + [SetXLabel(labels.right, true)];
      }
      ghost var ab := cs;
      if labels.bottom != "" {
        cs := cs + [SetYLabel(labels.bottom, false)];
      }
      assert cs == ab + Labels.CallIf(labels.bottom, SetYLabel(labels.bottom, false));
      if labels.top != "" {
        cs := cs + [SetYLabel(labels.top, true)];
      }
      assert cs == Labels.LabelCalls2D(labels);
      plot.calls := plot.calls + cs;
    }
  }

  class Plot3D {
    const plot: Plot

    /** Every binding was built the way `add_data` of a 3D plot builds it. */
    predicate Valid()
      reads this, plot
    {
      Labels.All3D(plot.bindings)
    }

    /** A 3D plot bound to each of `sources` in turn, with the constructor's
        `coorddims` and `valdim` options. */
    constructor (name: string, sources: seq<DataSource> := [], coorddims: Option<(int, int)> := None,
                 valdim: Option<int> := None, maxpoints: int := DefaultMaxPoints,
                 maxtraces: int := DefaultMaxTraces, mintime: int := DefaultMinTime,
                 autoupdate: Option<bool> := None)
      ensures Valid() && fresh(plot)
      ensures plot.name == name && plot.maxpoints == maxpoints && plot.maxtraces == maxtraces
      ensures plot.mintime == mintime && plot.autoupdate == autoupdate
      ensures plot.lastUpdate == 0 && plot.calls == []
      ensures |plot.bindings| == |sources|
      ensures forall i :: 0 <= i < |sources| ==> plot.bindings[i] == Dims.Binding3D(sources[i], coorddims, valdim)
    {
      plot := new Plot(name, maxpoints, maxtraces, mintime, autoupdate);
      new;
      var i := 0;
      while i < |sources|
        invariant 0 <= i <= |sources|
        invariant Valid()
        invariant plot.lastUpdate == 0 && plot.calls == []
        invariant |plot.bindings| == i
        invariant forall k :: 0 <= k < i ==> plot.bindings[k] == Dims.Binding3D(sources[k], coorddims, valdim)
      {
        AddData(sources[i], coorddims, valdim);
        i := i + 1;
      }
    }

    /** `add_data` of a 3D plot: appends the binding with its coordinate
        columns ((0, 1) unless given) and value column (the first column
        after the coordinates, at least 2, unless given). */
    method AddData(data: DataSource, coorddims: Option<(int, int)> := None, valdim: Option<int> := None)
      modifies plot`bindings
      ensures plot.bindings == old(plot.bindings) + [Dims.Binding3D(data, coorddims, valdim)]
      ensures old(Valid()) ==> Valid()
    {
      var b := Dims.Binding3D(data, coorddims, valdim);
      plot.AddData(data, b.coorddims, b.valdim);
    }

    /** The loop of `set_labels`: goes over the bindings in order, filling
        each label that is still empty from the binding's formatted labels. */
    method ResolveLabels(fmt: Labels.Formatter, x: string, y: string, z: string) returns (resolved: Labels.Labels3D)
      requires Valid()
      ensures resolved == Labels.Resolve3D(plot.bindings, Labels.Labels3D(x, y, z), fmt)
    {
      var bs := plot.bindings;
      var lx, ly, lz := x, y, z;
      var i := 0;
      while i < |bs|
        invariant 0 <= i <= |bs|
        invariant Labels.Resolve3D(bs[i..], Labels.Labels3D(lx, ly, lz), fmt)
               == Labels.Resolve3D(bs, Labels.Labels3D(x, y, z), fmt)
      {
        var d := bs[i];
        if lx == "" {
          lx := fmt(d.data, d.coorddims.value[0]);
        }
        if ly == "" {
          ly := fmt(d.data, d.coorddims.value[1]);
        }
        if lz == "" {
          lz := fmt(d.data, d.valdim.value);
        }
        assert bs[i..][0] == d && bs[i..][1..] == bs[i + 1..];
        i := i + 1;
      }
      resolved := Labels.Labels3D(lx, ly, lz);
    }

    /** `set_labels`: resolves every label left empty from the bindings and
        then calls the setters for the labels that are non-empty. */
    method SetLabels(fmt: Labels.Formatter, x: string := "", y: string := "", z: string := "")
      requires Valid()
      modifies plot`calls
      ensures plot.calls == old(plot.calls)
        + Labels.LabelCalls3D(Labels.Resolve3D(plot.bindings, Labels.Labels3D(x, y, z), fmt))
    {
      var labels := ResolveLabels(fmt, x, y, z);
      var cs: seq<Call> := [];
      if labels.x != "" {
        cs := cs + [SetXLabel(labels.x, false)];
      }
      assert cs == Labels.CallIf(labels.x, SetXLabel(labels.x, false));
      if labels.y != "" {
        cs := cs + [SetYLabel(labels.y, false)];
      }
      ghost var xy := cs;
      if labels.z != "" {
        cs := cs + [SetZLabel(labels.z)];
      }
      assert cs == xy + Labels.CallIf(labels.z, SetZLabel(labels.z));
      assert cs == Labels.LabelCalls3D(labels);
      plot.calls := plot.calls + cs;
    }
  }
}
