/** The redraw throttle of `Plot.update`: whether a call redraws, what it
    stamps as the time of the last update, and what that means over a run
    of calls (the data callbacks call `update` once per notification). */
module Throttle {
  import opened PlotTypes

  /** Whether `update` redraws. A non-forced call is dropped outright when
      the plot's own `autoupdate` is explicitly False; otherwise it redraws
      when forced, or when the global auto-update flag is on and more than
      `mintime` has elapsed since the last redraw. */
  predicate Triggers(force: bool, autoupdate: Option<bool>, cfgAutoUpdate: bool, elapsed: int, mintime: int): (r: bool)
    // no redraw without a reason: a forced call, or the flag on and the time due
    ensures r ==> force || (cfgAutoUpdate && elapsed > mintime)
    // a plot with autoupdate explicitly False only redraws when forced
    ensures r && autoupdate == Some(false) ==> force
  {
    if !force && autoupdate == Some(false) then false
    else force || (cfgAutoUpdate && elapsed > mintime)
  }

  /** One call of `update`: its `force` argument, the global auto-update
      flag it reads and the clock reading it takes. */
  datatype Tick = Tick(force: bool, cfgAutoUpdate: bool, now: int)

  /** The value of `_last_update` after the call `t`, given its value `last` before. */
  function Stamp(autoupdate: Option<bool>, mintime: int, last: int, t: Tick): (s: int)
    // the stamp either stays or moves to the call's clock reading
    ensures s == last || s == t.now
    ensures last <= t.now ==> last <= s <= t.now
    // a non-forced call within `mintime` of the stamp leaves it alone
    ensures !t.force && t.now - last <= mintime ==> s == last
  {
    if Triggers(t.force, autoupdate, t.cfgAutoUpdate, t.now - last, mintime) then t.now else last
  }

  /** The clock readings of the calls in `ticks` that redraw, in order. */
  function RenderTimes(autoupdate: Option<bool>, mintime: int, last: int, ticks: seq<Tick>): seq<int>
    decreases |ticks|
  {
    if ticks == [] then []
    else
      var t := ticks[0];
      var rest := RenderTimes(autoupdate, mintime, Stamp(autoupdate, mintime, last, t), ticks[1..]);
      if Triggers(t.force, autoupdate, t.cfgAutoUpdate, t.now - last, mintime) then [t.now] + rest else rest
  }

  /** The value of `_last_update` after each of the calls in `ticks`. */
  function LastUpdates(autoupdate: Option<bool>, mintime: int, last: int, ticks: seq<Tick>): (s: seq<int>)
    ensures |s| == |ticks|
    decreases |ticks|
  {
    if ticks == [] then []
    else
      var l := Stamp(autoupdate, mintime, last, ticks[0]);
      [l] + LastUpdates(autoupdate, mintime, l, ticks[1..])
  }

  predicate NoneForced(ticks: seq<Tick>) {
    forall i :: 0 <= i < |ticks| ==> !ticks[i].force
  }

  /** The clock never goes back, neither during the run nor behind `last`. */
  predicate ClockFrom(last: int, ticks: seq<Tick>) {
    && (forall i :: 0 <= i < |ticks| ==> last <= ticks[i].now)
    && (forall i, j :: 0 <= i < j < |ticks| ==> ticks[i].now <= ticks[j].now)
  }

  /** A forced update always redraws, whatever the flags and the elapsed time. */
  lemma ForcedUpdateTriggers(autoupdate: Option<bool>, cfgAutoUpdate: bool, elapsed: int, mintime: int)
    ensures Triggers(true, autoupdate, cfgAutoUpdate, elapsed, mintime)
  {
  }

  /** A non-forced update of a plot whose `autoupdate` is explicitly False never redraws. */
  lemma DisabledUpdateNeverTriggers(cfgAutoUpdate: bool, elapsed: int, mintime: int)
    ensures !Triggers(false, Some(false), cfgAutoUpdate, elapsed, mintime)
  {
  }

  /** With `autoupdate` unset or True, a non-forced update redraws exactly
      when the global flag is on and more than `mintime` has elapsed. */
  lemma UpdateTriggersIff(autoupdate: Option<bool>, cfgAutoUpdate: bool, elapsed: int, mintime: int)
    requires autoupdate != Some(false)
    ensures Triggers(false, autoupdate, cfgAutoUpdate, elapsed, mintime) <==> cfgAutoUpdate && elapsed > mintime
  {
  }

  /** Every redraw happens at the clock reading of one of the calls. */
  lemma {:induction false} RenderTimesAreTickTimes(autoupdate: Option<bool>, mintime: int, last: int, ticks: seq<Tick>)
    ensures forall k :: 0 <= k < |RenderTimes(autoupdate, mintime, last, ticks)| ==>
      exists i :: 0 <= i < |ticks| && RenderTimes(autoupdate, mintime, last, ticks)[k] == ticks[i].now
    decreases |ticks|
  {
    if ticks != [] {
      var t := ticks[0];
      var l := Stamp(autoupdate, mintime, last, t);
      RenderTimesAreTickTimes(autoupdate, mintime, l, ticks[1..]);
      var rest := RenderTimes(autoupdate, mintime, l, ticks[1..]);
      var r := RenderTimes(autoupdate, mintime, last, ticks);
      forall k | 0 <= k < |r|
        ensures exists i :: 0 <= i < |ticks| && r[k] == ticks[i].now
      {
        if Triggers(t.force, autoupdate, t.cfgAutoUpdate, t.now - last, mintime) {
          if k == 0 {
            assert r[0] == ticks[0].now;
          } else {
            var i :| 0 <= i < |ticks[1..]| && rest[k - 1] == ticks[1..][i].now;
            assert r[k] == ticks[i + 1].now;
          }
        } else {
          var i :| 0 <= i < |ticks[1..]| && rest[k] == ticks[1..][i].now;
          assert r[k] == ticks[i + 1].now;
        }
      }
    }
  }

  /** Over any run of non-forced updates, each redraw comes more than
      `mintime` after the previous one (and after the last update before
      the run), so any two redraws are more than `mintime` apart. No
      assumption about the clock is needed: a non-forced call only redraws
      when its reading is past the stamp by more than `mintime`. */
  lemma {:induction false} RenderTimesSpaced(autoupdate: Option<bool>, mintime: int, last: int, ticks: seq<Tick>)
    requires mintime >= 0
    requires NoneForced(ticks)
    ensures forall k :: 0 <= k < |RenderTimes(autoupdate, mintime, last, ticks)| ==>
      RenderTimes(autoupdate, mintime, last, ticks)[k] > last + mintime
    ensures forall i, j :: 0 <= i < j < |RenderTimes(autoupdate, mintime, last, ticks)| ==>
      RenderTimes(autoupdate, mintime, last, ticks)[j] > RenderTimes(autoupdate, mintime, last, ticks)[i] + mintime
    decreases |ticks|
  {
    if ticks != [] {
      var t := ticks[0];
      var l := Stamp(autoupdate, mintime, last, t);
      assert NoneForced(ticks[1..]) by {
        forall i | 0 <= i < |ticks[1..]| ensures !ticks[1..][i].force {
          assert ticks[1..][i] == ticks[i + 1];
        }
      }
      RenderTimesSpaced(autoupdate, mintime, l, ticks[1..]);
      if Triggers(t.force, autoupdate, t.cfgAutoUpdate, t.now - last, mintime) {
        assert l == t.now && t.now > last + mintime;
      }
    }
  }

  /** Non-forced updates that all come within `mintime` of the last
      redraw do not redraw. */
  lemma {:induction false} NoRenderWithinMinTime(autoupdate: Option<bool>, mintime: int, last: int, ticks: seq<Tick>)
    requires NoneForced(ticks)
    requires forall i :: 0 <= i < |ticks| ==> ticks[i].now <= last + mintime
    ensures RenderTimes(autoupdate, mintime, last, ticks) == []
    decreases |ticks|
  {
    if ticks != [] {
      assert forall i :: 0 <= i < |ticks[1..]| ==> ticks[1..][i] == ticks[i + 1];
      NoRenderWithinMinTime(autoupdate, mintime, last, ticks[1..]);
    }
  }

  /** However many non-forced updates arrive within one window of length
      `mintime`, at most one of them redraws. */
  lemma {:induction false} AtMostOneRenderPerWindow(autoupdate: Option<bool>, mintime: int, last: int, ticks: seq<Tick>, start: int)
    requires NoneForced(ticks)
    requires forall i :: 0 <= i < |ticks| ==> start <= ticks[i].now <= start + mintime
    ensures |RenderTimes(autoupdate, mintime, last, ticks)| <= 1
    decreases |ticks|
  {
    if ticks != [] {
      var t := ticks[0];
      assert forall i :: 0 <= i < |ticks[1..]| ==> ticks[1..][i] == ticks[i + 1];
      if Triggers(t.force, autoupdate, t.cfgAutoUpdate, t.now - last, mintime) {
        NoRenderWithinMinTime(autoupdate, mintime, t.now, ticks[1..]);
      } else {
        AtMostOneRenderPerWindow(autoupdate, mintime, last, ticks[1..], start);
      }
    }
  }

  /** Two non-forced updates whose clock readings differ by at most
      `mintime` redraw at most once between them. */
  lemma TwoCloseUpdatesRenderAtMostOnce(autoupdate: Option<bool>, mintime: int, last: int, t1: Tick, t2: Tick)
    requires !t1.force && !t2.force
    requires t1.now <= t2.now <= t1.now + mintime
    ensures |RenderTimes(autoupdate, mintime, last, [t1, t2])| <= 1
  {
    AtMostOneRenderPerWindow(autoupdate, mintime, last, [t1, t2], t1.now);
  }

  /** With a clock that never goes back, `_last_update` never decreases. */
  lemma {:induction false} LastUpdateNeverDecreases(autoupdate: Option<bool>, mintime: int, last: int, ticks: seq<Tick>)
    requires ClockFrom(last, ticks)
    ensures forall i :: 0 <= i < |ticks| ==>
      last <= LastUpdates(autoupdate, mintime, last, ticks)[i] <= ticks[i].now
    ensures forall i, j :: 0 <= i < j < |ticks| ==>
      LastUpdates(autoupdate, mintime, last, ticks)[i] <= LastUpdates(autoupdate, mintime, last, ticks)[j]
    decreases |ticks|
  {
    if ticks != [] {
      var l := Stamp(autoupdate, mintime, last, ticks[0]);
      assert last <= l <= ticks[0].now;
      assert ClockFrom(l, ticks[1..]) by {
        forall i | 0 <= i < |ticks[1..]| ensures l <= ticks[1..][i].now {
          assert ticks[1..][i] == ticks[i + 1];
        }
        forall i, j | 0 <= i < j < |ticks[1..]| ensures ticks[1..][i].now <= ticks[1..][j].now {
          assert ticks[1..][i] == ticks[i + 1] && ticks[1..][j] == ticks[j + 1];
        }
      }
      LastUpdateNeverDecreases(autoupdate, mintime, l, ticks[1..]);
      var s := LastUpdates(autoupdate, mintime, last, ticks);
      var s' := LastUpdates(autoupdate, mintime, l, ticks[1..]);
      assert forall i :: 0 < i < |s| ==> s[i] == s'[i - 1];
    }
  }

  /** A plot whose `autoupdate` is explicitly False never redraws and
      never moves `_last_update` on non-forced updates. */
  lemma {:induction false} DisabledRunNeverRenders(mintime: int, last: int, ticks: seq<Tick>)
    requires NoneForced(ticks)
    ensures RenderTimes(Some(false), mintime, last, ticks) == []
    ensures forall i :: 0 <= i < |ticks| ==> LastUpdates(Some(false), mintime, last, ticks)[i] == last
    decreases |ticks|
  {
    if ticks != [] {
      assert NoneForced(ticks[1..]) by {
        forall i | 0 <= i < |ticks[1..]| ensures !ticks[1..][i].force {
          assert ticks[1..][i] == ticks[i + 1];
        }
      }
      DisabledRunNeverRenders(mintime, last, ticks[1..]);
      var s := LastUpdates(Some(false), mintime, last, ticks);
      assert forall i :: 0 < i < |s| ==> s[i] == LastUpdates(Some(false), mintime, last, ticks[1..])[i - 1];
    }
  }

  /** A run of forced updates redraws on every call, at its clock reading. */
  lemma {:induction false} ForcedRunRendersEach(autoupdate: Option<bool>, mintime: int, last: int, ticks: seq<Tick>)
    requires forall i :: 0 <= i < |ticks| ==> ticks[i].force
    ensures |RenderTimes(autoupdate, mintime, last, ticks)| == |ticks|
    ensures forall i :: 0 <= i < |ticks| ==> RenderTimes(autoupdate, mintime, last, ticks)[i] == ticks[i].now
    decreases |ticks|
  {
    if ticks != [] {
      var l := Stamp(autoupdate, mintime, last, ticks[0]);
      assert forall i :: 0 <= i < |ticks[1..]| ==> ticks[1..][i] == ticks[i + 1];
      ForcedRunRendersEach(autoupdate, mintime, l, ticks[1..]);
    }
  }
}
