/** Axis-label resolution of `Plot2D.set_labels` and `Plot3D.set_labels`:
    each label left empty by the caller is filled from the bindings, one
    binding after the other, with the data object's formatted label of the
    selected column; afterwards only the non-empty labels reach the
    renderer's setters. The data object's `format_label` is the parameter
    `fmt`, about which nothing is assumed. */
module Labels {
  import opened PlotTypes

  type Formatter = (DataSource, int) -> string

  /** The first non-empty string among `given` and then `candidates`, or
      the empty string when there is none. */
  function FirstNonEmpty(given: string, candidates: seq<string>): (r: string)
    ensures given != "" ==> r == given
    ensures given == "" ==> (r == "" <==> forall k :: 0 <= k < |candidates| ==> candidates[k] == "")
    ensures given == "" && r != "" ==>
      exists k :: 0 <= k < |candidates| && r == candidates[k] && forall j :: 0 <= j < k ==> candidates[j] == ""
    decreases |candidates|
  {
    if given != "" || candidates == [] then given
    else
      var r := FirstNonEmpty(candidates[0], candidates[1..]);
      assert forall k :: 0 <= k < |candidates[1..]| ==> candidates[1..][k] == candidates[k + 1];
      assert r != "" && candidates[0] == "" ==> exists k :: 0 < k < |candidates| && r == candidates[k] && forall j :: 0 <= j < k ==> candidates[j] == "";
      r
  }

  /** Taking the first candidate in place of an empty given label does not
      change the first non-empty one. */
  lemma FirstNonEmptyStep(given: string, candidates: seq<string>)
    requires candidates != []
    ensures FirstNonEmpty(given, candidates)
         == FirstNonEmpty(if given == "" then candidates[0] else given, candidates[1..])
  {
  }

  /** The formatted labels of column `coorddims[k]` of each binding, in order. */
  function CoordLabels(bs: seq<Binding>, k: nat, fmt: Formatter): (cs: seq<string>)
    requires forall i :: 0 <= i < |bs| ==> bs[i].coorddims.Some? && k < |bs[i].coorddims.value|
    ensures |cs| == |bs|
    ensures forall i :: 0 <= i < |bs| ==> cs[i] == fmt(bs[i].data, bs[i].coorddims.value[k])
    decreases |bs|
  {
    if bs == [] then [] else [fmt(bs[0].data, bs[0].coorddims.value[k])] + CoordLabels(bs[1..], k, fmt)
  }

  /** The formatted labels of the value column of each binding, in order. */
  function ValueLabels(bs: seq<Binding>, fmt: Formatter): (cs: seq<string>)
    requires forall i :: 0 <= i < |bs| ==> bs[i].valdim.Some?
    ensures |cs| == |bs|
    ensures forall i :: 0 <= i < |bs| ==> cs[i] == fmt(bs[i].data, bs[i].valdim.value)
    decreases |bs|
  {
    if bs == [] then [] else [fmt(bs[0].data, bs[0].valdim.value)] + ValueLabels(bs[1..], fmt)
  }

  predicate All2D(bs: seq<Binding>) {
    forall i :: 0 <= i < |bs| ==> Is2D(bs[i])
  }

  predicate All3D(bs: seq<Binding>) {
    forall i :: 0 <= i < |bs| ==> Is3D(bs[i])
  }

  // ---------------------------------------------------------------- 2D

  datatype Labels2D = Labels2D(left: string, bottom: string, right: string, top: string)

  /** One turn of the 2D loop. A binding with a "right" option fills the
      right label while that is still empty, and otherwise the left label if
      that is empty; a "top" option does the same for the top and bottom
      labels with the value column. */
  function Step2D(l: Labels2D, b: Binding, fmt: Formatter): (r: Labels2D)
    requires Is2D(b)
    // a label that is already non-empty is kept
    ensures l.left != "" ==> r.left == l.left
    ensures l.bottom != "" ==> r.bottom == l.bottom
    ensures l.right != "" ==> r.right == l.right
    ensures l.top != "" ==> r.top == l.top
    // a label that changes takes the binding's coordinate (left, right) or value (bottom, top) label
    ensures r.left == l.left || r.left == fmt(b.data, b.coorddims.value[0])
    ensures r.right == l.right || r.right == fmt(b.data, b.coorddims.value[0])
    ensures r.bottom == l.bottom || r.bottom == fmt(b.data, b.valdim.value)
    ensures r.top == l.top || r.top == fmt(b.data, b.valdim.value)
    // the secondary labels change only for a binding with that option, and
    // the coordinate label fills at most one of left and right
    ensures r.right != l.right ==> "right" in b.keys
    ensures r.top != l.top ==> "top" in b.keys
    ensures r.left == l.left || r.right == l.right
    ensures r.bottom == l.bottom || r.top == l.top
  {
    var coord := fmt(b.data, b.coorddims.value[0]);
    var value := fmt(b.data, b.valdim.value);
    var l1 :=
      if "right" in b.keys && l.right == "" then l.(right := coord)
      else if l.left == "" then l.(left := coord)
      else l;
    if "top" in b.keys && l1.top == "" then l1.(top := value)
    else if l1.bottom == "" then l1.(bottom := value)
    else l1
  }

  /** The labels after the 2D loop has gone over all of `bs`, starting from
      `l`. A label that is non-empty, such as a non-empty argument, is never
      replaced, whatever the bindings. */
  function Resolve2D(bs: seq<Binding>, l: Labels2D, fmt: Formatter): (r: Labels2D)
    requires All2D(bs)
    ensures l.left != "" ==> r.left == l.left
    ensures l.bottom != "" ==> r.bottom == l.bottom
    ensures l.right != "" ==> r.right == l.right
    ensures l.top != "" ==> r.top == l.top
    decreases |bs|
  {
    if bs == [] then l else Resolve2D(bs[1..], Step2D(l, bs[0], fmt), fmt)
  }

  /** A label-setter call with a non-empty label. */
  predicate SetsText(c: Call) {
    !c.Render? && c.text != ""
  }

  /** The one call `c` when its label `text` is non-empty, and none otherwise. */
  function CallIf(text: string, c: Call): seq<Call> {
    if text != "" then [c] else []
  }

  /** The setter calls made for resolved 2D labels: `set_xlabel` for left and
      (as the secondary axis) right, `set_ylabel` for bottom and (as the
      secondary axis) top, in that order; each exactly when its label is
      non-empty, and no other call. */
  function LabelCalls2D(l: Labels2D): (cs: seq<Call>)
    // one call per non-empty label, so no call is made twice
    ensures |cs| == (if l.left != "" then 1 else 0) + (if l.right != "" then 1 else 0)
                  + (if l.bottom != "" then 1 else 0) + (if l.top != "" then 1 else 0)
    ensures SetXLabel(l.left, false) in cs <==> l.left != ""
    ensures SetXLabel(l.right, true) in cs <==> l.right != ""
    ensures SetYLabel(l.bottom, false) in cs <==> l.bottom != ""
    ensures SetYLabel(l.top, true) in cs <==> l.top != ""
    ensures forall c :: c in cs ==> (SetsText(c) &&
      (c == SetXLabel(l.left, false) || c == SetXLabel(l.right, true) || c == SetYLabel(l.bottom, false) || c == SetYLabel(l.top, true)))
  {
    var a, b, c, d := CallIf(l.left, SetXLabel(l.left, false)), CallIf(l.right, SetXLabel(l.right, true)),
      CallIf(l.bottom, SetYLabel(l.bottom, false)), CallIf(l.top, SetYLabel(l.top, true));
    assert forall x :: x in a + b + c + d <==> x in a || x in b || x in c || x in d;
    a + b + c + d
  }

  /** Going over `a` and then `b` is going over `a + b`. */
  lemma {:induction false} Resolve2DAppend(a: seq<Binding>, b: seq<Binding>, l: Labels2D, fmt: Formatter)
    requires All2D(a) && All2D(b)
    ensures All2D(a + b)
    ensures Resolve2D(a + b, l, fmt) == Resolve2D(b, Resolve2D(a, l, fmt), fmt)
    decreases |a|
  {
    if a != [] {
      assert (a + b)[0] == a[0] && (a + b)[1..] == a[1..] + b;
      Resolve2DAppend(a[1..], b, Step2D(l, a[0], fmt), fmt);
    } else {
      assert a + b == b;
    }
  }

  /** Once the loop has made a label non-empty, later bindings do not overwrite it. */
  lemma Resolve2DSticky(a: seq<Binding>, b: seq<Binding>, l: Labels2D, fmt: Formatter)
    requires All2D(a) && All2D(b)
    ensures All2D(a + b)
    ensures var m := Resolve2D(a, l, fmt); var r := Resolve2D(a + b, l, fmt);
      && (m.left != "" ==> r.left == m.left)
      && (m.bottom != "" ==> r.bottom == m.bottom)
      && (m.right != "" ==> r.right == m.right)
      && (m.top != "" ==> r.top == m.top)
  {
    Resolve2DAppend(a, b, l, fmt);
  }

  /** Where each resolved 2D label comes from: the argument, or the
      formatted label of some binding's coordinate column (left, right) or
      value column (bottom, top); the secondary labels only ever from a
      binding that carries the "right" or "top" option. */
  lemma {:induction false} Resolve2DProvenance(bs: seq<Binding>, l: Labels2D, fmt: Formatter)
    requires All2D(bs)
    ensures var r := Resolve2D(bs, l, fmt);
      && (r.left == l.left || exists i :: 0 <= i < |bs| && r.left == fmt(bs[i].data, bs[i].coorddims.value[0]))
      && (r.right == l.right || exists i :: 0 <= i < |bs| && "right" in bs[i].keys && r.right == fmt(bs[i].data, bs[i].coorddims.value[0]))
      && (r.bottom == l.bottom || exists i :: 0 <= i < |bs| && r.bottom == fmt(bs[i].data, bs[i].valdim.value))
      && (r.top == l.top || exists i :: 0 <= i < |bs| && "top" in bs[i].keys && r.top == fmt(bs[i].data, bs[i].valdim.value))
    decreases |bs|
  {
    if bs != [] {
      var l1 := Step2D(l, bs[0], fmt);
      var tail := bs[1..];
      Resolve2DProvenance(tail, l1, fmt);
      assert forall i :: 0 <= i < |tail| ==> tail[i] == bs[i + 1];
    }
  }

  /** Without "right" and "top" options the secondary labels stay as given,
      and each primary label is the given one or else the first non-empty
      formatted label of the bindings' coordinate (left) or value (bottom)
      columns. */
  lemma {:induction false} Resolve2DPrimaryOnly(bs: seq<Binding>, l: Labels2D, fmt: Formatter)
    requires All2D(bs)
    requires forall i :: 0 <= i < |bs| ==> "right" !in bs[i].keys && "top" !in bs[i].keys
    ensures var r := Resolve2D(bs, l, fmt);
      && r.right == l.right && r.top == l.top
      && r.left == FirstNonEmpty(l.left, CoordLabels(bs, 0, fmt))
      && r.bottom == FirstNonEmpty(l.bottom, ValueLabels(bs, fmt))
    decreases |bs|
  {
    if bs != [] {
      var tail := bs[1..];
      assert forall i :: 0 <= i < |tail| ==> tail[i] == bs[i + 1];
      var xs, ys := CoordLabels(bs, 0, fmt), ValueLabels(bs, fmt);
      assert Step2D(l, bs[0], fmt) == Labels2D(
        if l.left == "" then xs[0] else l.left,
        if l.bottom == "" then ys[0] else l.bottom,
        l.right, l.top);
      Resolve2DPrimaryOnly(tail, Step2D(l, bs[0], fmt), fmt);
      assert xs[1..] == CoordLabels(tail, 0, fmt);
      assert ys[1..] == ValueLabels(tail, fmt);
      FirstNonEmptyStep(l.left, xs);
      FirstNonEmptyStep(l.bottom, ys);
    }
  }

  /** The bindings of `bs` that carry the keyword option `key`, in order. */
  function Keyed(bs: seq<Binding>, key: string): (ks: seq<Binding>)
    ensures |ks| <= |bs|
    ensures forall i :: 0 <= i < |ks| ==> key in ks[i].keys && ks[i] in bs
    ensures All2D(bs) ==> All2D(ks)
    decreases |bs|
  {
    if bs == [] then []
    else
      var rest := Keyed(bs[1..], key);
      assert forall i :: 0 <= i < |bs[1..]| ==> bs[1..][i] == bs[i + 1];
      (if key in bs[0].keys then [bs[0]] else []) + rest
  }

  /** The right label: when empty, it takes the first non-empty coordinate
      label among the bindings that carry the "right" option, in order. */
  lemma {:induction false} Resolve2DRight(bs: seq<Binding>, l: Labels2D, fmt: Formatter)
    requires All2D(bs)
    ensures Resolve2D(bs, l, fmt).right == FirstNonEmpty(l.right, CoordLabels(Keyed(bs, "right"), 0, fmt))
    decreases |bs|
  {
    if bs != [] {
      var b, tail := bs[0], bs[1..];
      assert forall i :: 0 <= i < |tail| ==> tail[i] == bs[i + 1];
      var l1 := Step2D(l, b, fmt);
      Resolve2DRight(tail, l1, fmt);
      var rs := Keyed(bs, "right");
      if "right" in b.keys {
        assert rs == [b] + Keyed(tail, "right");
        var xs := CoordLabels(rs, 0, fmt);
        assert xs[1..] == CoordLabels(Keyed(tail, "right"), 0, fmt);
        assert l1.right == if l.right == "" then xs[0] else l.right;
        FirstNonEmptyStep(l.right, xs);
      } else {
        assert rs == Keyed(tail, "right");
      }
    }
  }

  /** The top label: when empty, it takes the first non-empty value label
      among the bindings that carry the "top" option, in order. */
  lemma {:induction false} Resolve2DTop(bs: seq<Binding>, l: Labels2D, fmt: Formatter)
    requires All2D(bs)
    ensures Resolve2D(bs, l, fmt).top == FirstNonEmpty(l.top, ValueLabels(Keyed(bs, "top"), fmt))
    decreases |bs|
  {
    if bs != [] {
      var b, tail := bs[0], bs[1..];
      assert forall i :: 0 <= i < |tail| ==> tail[i] == bs[i + 1];
      var l1 := Step2D(l, b, fmt);
      Resolve2DTop(tail, l1, fmt);
      var ts := Keyed(bs, "top");
      if "top" in b.keys {
        assert ts == [b] + Keyed(tail, "top");
        var ys := ValueLabels(ts, fmt);
        assert ys[1..] == ValueLabels(Keyed(tail, "top"), fmt);
        assert l1.top == if l.top == "" then ys[0] else l.top;
        FirstNonEmptyStep(l.top, ys);
      } else {
        assert ts == Keyed(tail, "top");
      }
    }
  }

  /** The coordinate labels the `elif` branch offers to the left label, in
      order, while the right label is `right`: a binding with the "right"
      option gives its label to the right label as long as that is empty,
      and every other binding offers it to the left label. */
  function LeftCandidates(bs: seq<Binding>, right: string, fmt: Formatter): (cs: seq<string>)
    requires All2D(bs)
    ensures |cs| <= |bs|
    decreases |bs|
  {
    if bs == [] then []
    else
      var b, tail := bs[0], bs[1..];
      assert forall i :: 0 <= i < |tail| ==> tail[i] == bs[i + 1];
      var c := fmt(b.data, b.coorddims.value[0]);
      if "right" in b.keys && right == "" then LeftCandidates(tail, c, fmt)
      else [c] + LeftCandidates(tail, right, fmt)
  }

  /** The value labels offered to the bottom label while the top label is
      `top`, as `LeftCandidates` does for the left label. */
  function BottomCandidates(bs: seq<Binding>, top: string, fmt: Formatter): (cs: seq<string>)
    requires All2D(bs)
    ensures |cs| <= |bs|
    decreases |bs|
  {
    if bs == [] then []
    else
      var b, tail := bs[0], bs[1..];
      assert forall i :: 0 <= i < |tail| ==> tail[i] == bs[i + 1];
      var v := fmt(b.data, b.valdim.value);
      if "top" in b.keys && top == "" then BottomCandidates(tail, v, fmt)
      else [v] + BottomCandidates(tail, top, fmt)
  }

  /** The left label: the argument when non-empty, and otherwise the first
      non-empty coordinate label offered to it, including those of bindings
      with the "right" option once the right label is filled. */
  lemma {:induction false} Resolve2DLeft(bs: seq<Binding>, l: Labels2D, fmt: Formatter)
    requires All2D(bs)
    ensures Resolve2D(bs, l, fmt).left == FirstNonEmpty(l.left, LeftCandidates(bs, l.right, fmt))
    decreases |bs|
  {
    if bs != [] {
      var b, tail := bs[0], bs[1..];
      assert forall i :: 0 <= i < |tail| ==> tail[i] == bs[i + 1];
      var l1 := Step2D(l, b, fmt);
      var c := fmt(b.data, b.coorddims.value[0]);
      Resolve2DLeft(tail, l1, fmt);
      if "right" in b.keys && l.right == "" {
        assert l1.left == l.left && l1.right == c;
      } else {
        assert l1.right == l.right && l1.left == if l.left == "" then c else l.left;
        FirstNonEmptyStep(l.left, LeftCandidates(bs, l.right, fmt));
      }
    }
  }

  /** The bottom label: the argument when non-empty, and otherwise the first
      non-empty value label offered to it, including those of bindings with
      the "top" option once the top label is filled. */
  lemma {:induction false} Resolve2DBottom(bs: seq<Binding>, l: Labels2D, fmt: Formatter)
    requires All2D(bs)
    ensures Resolve2D(bs, l, fmt).bottom == FirstNonEmpty(l.bottom, BottomCandidates(bs, l.top, fmt))
    decreases |bs|
  {
    if bs != [] {
      var b, tail := bs[0], bs[1..];
      assert forall i :: 0 <= i < |tail| ==> tail[i] == bs[i + 1];
      var l1 := Step2D(l, b, fmt);
      var v := fmt(b.data, b.valdim.value);
      Resolve2DBottom(tail, l1, fmt);
      if "top" in b.keys && l.top == "" {
        assert l1.bottom == l.bottom && l1.top == v;
      } else {
        assert l1.top == l.top && l1.bottom == if l.bottom == "" then v else l.bottom;
        FirstNonEmptyStep(l.bottom, BottomCandidates(bs, l.top, fmt));
      }
    }
  }

  /** Once the right (top) label is non-empty, every binding offers its
      label to the left (bottom) label. */
  lemma {:induction false} CandidatesWhenSecondaryGiven(bs: seq<Binding>, right: string, top: string, fmt: Formatter)
    requires All2D(bs)
    ensures right != "" ==> LeftCandidates(bs, right, fmt) == CoordLabels(bs, 0, fmt)
    ensures top != "" ==> BottomCandidates(bs, top, fmt) == ValueLabels(bs, fmt)
    decreases |bs|
  {
    if bs != [] {
      var tail := bs[1..];
      assert forall i :: 0 <= i < |tail| ==> tail[i] == bs[i + 1];
      CandidatesWhenSecondaryGiven(tail, right, top, fmt);
      assert CoordLabels(bs, 0, fmt) == [CoordLabels(bs, 0, fmt)[0]] + CoordLabels(tail, 0, fmt);
      assert ValueLabels(bs, fmt) == [ValueLabels(bs, fmt)[0]] + ValueLabels(tail, fmt);
    }
  }

  /** Two bindings that both carry the "right" option, labelled "A" and "B",
      with every label left empty: the first fills the right label, the
      second then falls through to the left label. */
  lemma TwoRightBindingsExample()
    ensures var fmt: Formatter := (d: DataSource, k: int) => if d.id == 0 then "A" else "B";
      var bs := [Binding(DataSource(0, 1, 1), Some([0]), Some(1), {"right"}),
                 Binding(DataSource(1, 1, 1), Some([0]), Some(1), {"right"})];
      All2D(bs) && Resolve2D(bs, Labels2D("", "", "", ""), fmt).right == "A"
        && Resolve2D(bs, Labels2D("", "", "", ""), fmt).left == "B"
  {
  }

  /** With no bindings, the labels are exactly the arguments. */
  lemma NoBindings2D(l: Labels2D, fmt: Formatter)
    ensures Resolve2D([], l, fmt) == l
  {
  }

  // ---------------------------------------------------------------- 3D

  datatype Labels3D = Labels3D(x: string, y: string, z: string)

  /** One turn of the 3D loop: each label still empty takes the formatted
      label of the binding's first coordinate (x), second coordinate (y) or
      value (z) column. */
  function Step3D(l: Labels3D, b: Binding, fmt: Formatter): (r: Labels3D)
    requires Is3D(b)
    ensures r.x == FirstNonEmpty(l.x, [fmt(b.data, b.coorddims.value[0])])
    ensures r.y == FirstNonEmpty(l.y, [fmt(b.data, b.coorddims.value[1])])
    ensures r.z == FirstNonEmpty(l.z, [fmt(b.data, b.valdim.value)])
  {
    Labels3D(
      if l.x == "" then fmt(b.data, b.coorddims.value[0]) else l.x,
      if l.y == "" then fmt(b.data, b.coorddims.value[1]) else l.y,
      if l.z == "" then fmt(b.data, b.valdim.value) else l.z)
  }

  /** The labels after the 3D loop has gone over all of `bs`, starting from
      `l`. A non-empty label is never replaced, and a label ends empty only
      if it started empty. */
  function Resolve3D(bs: seq<Binding>, l: Labels3D, fmt: Formatter): (r: Labels3D)
    requires All3D(bs)
    ensures l.x != "" ==> r.x == l.x
    ensures l.y != "" ==> r.y == l.y
    ensures l.z != "" ==> r.z == l.z
    decreases |bs|
  {
    if bs == [] then l else Resolve3D(bs[1..], Step3D(l, bs[0], fmt), fmt)
  }

  /** The setter calls made for resolved 3D labels, x, y and z in that
      order; each exactly when its label is non-empty, and no other call. */
  function LabelCalls3D(l: Labels3D): (cs: seq<Call>)
    // one call per non-empty label, so no call is made twice
    ensures |cs| == (if l.x != "" then 1 else 0) + (if l.y != "" then 1 else 0) + (if l.z != "" then 1 else 0)
    ensures SetXLabel(l.x, false) in cs <==> l.x != ""
    ensures SetYLabel(l.y, false) in cs <==> l.y != ""
    ensures SetZLabel(l.z) in cs <==> l.z != ""
    ensures forall c :: c in cs ==> SetsText(c) && (c == SetXLabel(l.x, false) || c == SetYLabel(l.y, false) || c == SetZLabel(l.z))
  {
    var a, b, c := CallIf(l.x, SetXLabel(l.x, false)), CallIf(l.y, SetYLabel(l.y, false)), CallIf(l.z, SetZLabel(l.z));
    assert forall x :: x in a + b + c <==> x in a || x in b || x in c;
    a + b + c
  }

  /** Each resolved 3D label is the argument when non-empty, and otherwise
      the first non-empty formatted label, across the bindings in order, of
      the column that axis selects. */
  lemma {:induction false} Resolve3DIsFirstNonEmpty(bs: seq<Binding>, l: Labels3D, fmt: Formatter)
    requires All3D(bs)
    ensures Resolve3D(bs, l, fmt) == Labels3D(
      FirstNonEmpty(l.x, CoordLabels(bs, 0, fmt)),
      FirstNonEmpty(l.y, CoordLabels(bs, 1, fmt)),
      FirstNonEmpty(l.z, ValueLabels(bs, fmt)))
    decreases |bs|
  {
    if bs != [] {
      var tail := bs[1..];
      assert forall i :: 0 <= i < |tail| ==> tail[i] == bs[i + 1];
      Resolve3DIsFirstNonEmpty(tail, Step3D(l, bs[0], fmt), fmt);
      var xs, ys, zs := CoordLabels(bs, 0, fmt), CoordLabels(bs, 1, fmt), ValueLabels(bs, fmt);
      assert xs[1..] == CoordLabels(tail, 0, fmt);
      assert ys[1..] == CoordLabels(tail, 1, fmt);
      assert zs[1..] == ValueLabels(tail, fmt);
      FirstNonEmptyStep(l.x, xs);
      FirstNonEmptyStep(l.y, ys);
      FirstNonEmptyStep(l.z, zs);
    }
  }

  /** Going over `a` and then `b` is going over `a + b`. */
  lemma {:induction false} Resolve3DAppend(a: seq<Binding>, b: seq<Binding>, l: Labels3D, fmt: Formatter)
    requires All3D(a) && All3D(b)
    ensures All3D(a + b)
    ensures Resolve3D(a + b, l, fmt) == Resolve3D(b, Resolve3D(a, l, fmt), fmt)
    decreases |a|
  {
    if a != [] {
      assert (a + b)[0] == a[0] && (a + b)[1..] == a[1..] + b;
      Resolve3DAppend(a[1..], b, Step3D(l, a[0], fmt), fmt);
    } else {
      assert a + b == b;
    }
  }

  /** Once a 3D label is non-empty, later bindings do not overwrite it;
      in particular a non-empty argument is never replaced. */
  lemma Resolve3DSticky(a: seq<Binding>, b: seq<Binding>, l: Labels3D, fmt: Formatter)
    requires All3D(a) && All3D(b)
    ensures All3D(a + b)
    ensures var m := Resolve3D(a, l, fmt); var r := Resolve3D(a + b, l, fmt);
      && (m.x != "" ==> r.x == m.x)
      && (m.y != "" ==> r.y == m.y)
      && (m.z != "" ==> r.z == m.z)
  {
    Resolve3DAppend(a, b, l, fmt);
    Resolve3DIsFirstNonEmpty(b, Resolve3D(a, l, fmt), fmt);
  }

  /** With no bindings, the labels are exactly the arguments. */
  lemma NoBindings3D(l: Labels3D, fmt: Formatter)
    ensures Resolve3D([], l, fmt) == l
  {
  }
}
