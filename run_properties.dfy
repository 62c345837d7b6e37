/**
 * What `Runner.run` (src/runner/runner.py:35-69) promises about the MPL
 * sweep, the hook calls around it, and the records it leaves behind.
 */
module RunProperties {
  import opened Wrappers
  import opened Text
  import opened Stats
  import opened DbSystems
  import opened Runners
  import Constants

  // ---------------------------------------------------------------------
  // The sweep

  /**
   * The MPLs a trial runs: `count(start=lo, step=inc)` up to the last value
   * not above `max`. A sweep that starts within the bound needs `inc >= 1`
   * to end.
   */
  function Sweep(lo: int, inc: int, max: int): seq<int>
    requires lo <= max ==> inc >= 1
    decreases if lo <= max then max - lo + 1 else 0
  {
    if lo > max then [] else [lo] + Sweep(lo + inc, inc, max)
  }

  /**
   * The sweep's i-th MPL is `lo + i * inc`, all of them within `max`, and
   * the next value is above `max`: so it has floor((max - lo) / inc) + 1
   * MPLs when it starts within the bound, and none otherwise.
   */
  lemma {:induction false} SweepShape(lo: int, inc: int, max: int)
    requires lo <= max ==> inc >= 1
    ensures lo > max <==> |Sweep(lo, inc, max)| == 0
    ensures forall i :: 0 <= i < |Sweep(lo, inc, max)| ==> Sweep(lo, inc, max)[i] == lo + i * inc <= max
    ensures lo + |Sweep(lo, inc, max)| * inc > max
    decreases if lo <= max then max - lo + 1 else 0
  {
    if lo <= max {
      var rest := Sweep(lo + inc, inc, max);
      SweepShape(lo + inc, inc, max);
      forall i | 0 <= i < |Sweep(lo, inc, max)|
        ensures Sweep(lo, inc, max)[i] == lo + i * inc <= max
      {
        if i > 0 {
          MulStep(i - 1, inc);
          assert Sweep(lo, inc, max)[i] == rest[i - 1];
        }
      }
      MulStep(|rest|, inc);
      assert |Sweep(lo, inc, max)| == |rest| + 1;
    }
  }

  lemma MulStep(a: int, b: int)
    ensures (a + 1) * b == a * b + b
  {
  }

  /** With the defaults (min 1, max 25, inc 4) a trial runs at MPLs 1, 5, 9, 13, 17, 21 and 25. */
  lemma DefaultSweep()
    ensures Sweep(1, 4, 25) == [1, 5, 9, 13, 17, 21, 25]
  {
    SweepShape(1, 4, 25);
  }

  // ---------------------------------------------------------------------
  // Stamped records

  /** The record was stamped with trial `trial` and MPL `mpl`. */
  predicate Carries(r: Record, trial: int, mpl: int) {
    "mpl" in r.stats && r.stats["mpl"] == I(mpl) && "trial" in r.stats && r.stats["trial"] == I(trial)
  }

  /** The records carry, one by one, the (trial, MPL) pairs `marks`. */
  predicate Marked(recs: seq<Record>, marks: seq<(int, int)>) {
    |recs| == |marks| && forall i :: 0 <= i < |recs| ==> Carries(recs[i], marks[i].0, marks[i].1)
  }

  lemma MarkedAppend(r1: seq<Record>, m1: seq<(int, int)>, r2: seq<Record>, m2: seq<(int, int)>)
    requires Marked(r1, m1) && Marked(r2, m2)
    ensures Marked(r1 + r2, m1 + m2)
  {
    forall i | 0 <= i < |r1 + r2|
      ensures Carries((r1 + r2)[i], (m1 + m2)[i].0, (m1 + m2)[i].1)
    {
      if i >= |r1| {
        assert (r1 + r2)[i] == r2[i - |r1|] && (m1 + m2)[i] == m2[i - |r1|];
      }
    }
  }

  /** The steps of one trial, in MPL order. */
  function Row(trial: int, mpls: seq<int>): (r: seq<(int, int)>)
    ensures |r| == |mpls| && forall i :: 0 <= i < |r| ==> r[i] == (trial, mpls[i])
  {
    seq(|mpls|, i requires 0 <= i < |mpls| => (trial, mpls[i]))
  }

  /** The steps of trials `trial`..`n`: trial-major, MPL-minor. */
  function Grid(trial: int, n: int, mpls: seq<int>): seq<(int, int)>
    decreases if trial <= n then n - trial + 1 else 0
  {
    if trial > n then [] else Row(trial, mpls) + Grid(trial + 1, n, mpls)
  }

  lemma {:induction false} GridLength(trial: int, n: int, mpls: seq<int>)
    ensures |Grid(trial, n, mpls)| == (if trial > n then 0 else n - trial + 1) * |mpls|
    decreases if trial <= n then n - trial + 1 else 0
  {
    if trial <= n {
      GridLength(trial + 1, n, mpls);
      MulStep(n - trial, |mpls|);
    }
  }

  /** Entry `i * |mpls| + j` of the grid is trial `trial + i` at MPL `mpls[j]`. */
  lemma {:induction false} GridEntry(trial: int, n: int, mpls: seq<int>, i: nat, j: int)
    requires trial + i <= n && 0 <= j < |mpls|
    ensures i * |mpls| + j < |Grid(trial, n, mpls)| && Grid(trial, n, mpls)[i * |mpls| + j] == (trial + i, mpls[j])
    decreases i
  {
    var m := |mpls|;
    if i == 0 {
      assert Grid(trial, n, mpls)[j] == Row(trial, mpls)[j];
    } else {
      GridEntry(trial + 1, n, mpls, i - 1, j);
      MulStep(i - 1, m);
      var k := (i - 1) * m + j;
      assert Grid(trial, n, mpls)[m + k] == Grid(trial + 1, n, mpls)[k];
    }
  }

  /** The grid has one row per trial, in trial order: entry `i * |mpls| + j` is trial `trial + i` at MPL `mpls[j]`. */
  lemma GridShape(trial: int, n: int, mpls: seq<int>)
    ensures |Grid(trial, n, mpls)| == (if trial > n then 0 else n - trial + 1) * |mpls|
    ensures forall i: nat, j :: trial + i <= n && 0 <= j < |mpls| ==>
      i * |mpls| + j < |Grid(trial, n, mpls)| && Grid(trial, n, mpls)[i * |mpls| + j] == (trial + i, mpls[j])
  {
    GridLength(trial, n, mpls);
    forall i: nat, j | trial + i <= n && 0 <= j < |mpls|
      ensures i * |mpls| + j < |Grid(trial, n, mpls)| && Grid(trial, n, mpls)[i * |mpls| + j] == (trial + i, mpls[j])
    {
      GridEntry(trial, n, mpls, i, j);
    }
  }

  /** A finished step appended exactly one record, stamped with its trial and MPL. */
  lemma StepMarks(v: View, w: World, t: nat, trial: int, mpl: int)
    ensures StepSpec(v, w, t, trial, mpl).err.None? ==> Marked(StepSpec(v, w, t, trial, mpl).recs, [(trial, mpl)])
  {
    Constants.StatRulesTracked();
    assert "mpl" in Constants.TrackedStats && "trial" in Constants.TrackedStats;
  }

  /** Every finished step of trial `trial` appended one record stamped with that trial and its MPL. */
  ghost predicate StepsMark(steps: (int, int) -> Out, trial: int) {
    forall mpl :: steps(trial, mpl).err.None? ==> Marked(steps(trial, mpl).recs, [(trial, mpl)])
  }

  /** A sweep that finished appended one stamped record per MPL of `Sweep`, in order. */
  lemma {:induction false} MplOverMarks(hooks: Hooks, max: int, inc: int, steps: (int, int) -> Out, t: nat, trial: int, mpl: int)
    requires mpl <= max ==> inc >= 1
    requires StepsMark(steps, trial)
    requires MplOver(hooks, Ok(max), inc, steps, t, trial, mpl).err.None?
    ensures Marked(MplOver(hooks, Ok(max), inc, steps, t, trial, mpl).recs, Row(trial, Sweep(mpl, inc, max)))
    decreases if mpl <= max then max - mpl + 1 else 0
  {
    if mpl <= max {
      var s := steps(trial, mpl);
      var rest := MplOver(hooks, Ok(max), inc, steps, t, trial, mpl + inc);
      MplOverRecs(hooks, max, inc, steps, t, trial, mpl);
      MplOverMarks(hooks, max, inc, steps, t, trial, mpl + inc);
      MarkedAppend(s.recs, [(trial, mpl)], rest.recs, Row(trial, Sweep(mpl + inc, inc, max)));
      RowCons(trial, mpl, inc, max);
    }
  }

  /** A row of a sweep within the bound: its first MPL, then the row of the rest. */
  lemma RowCons(trial: int, mpl: int, inc: int, max: int)
    requires mpl <= max && inc >= 1
    ensures Row(trial, Sweep(mpl, inc, max)) == [(trial, mpl)] + Row(trial, Sweep(mpl + inc, inc, max))
  {
    var rest := Sweep(mpl + inc, inc, max);
    assert Sweep(mpl, inc, max) == [mpl] + rest;
    assert Row(trial, Sweep(mpl, inc, max)) == [(trial, mpl)] + Row(trial, rest);
  }

  /** A round within the bound that finished: its step's records, then those of the rest of the sweep. */
  lemma MplOverRecs(hooks: Hooks, max: int, inc: int, steps: (int, int) -> Out, t: nat, trial: int, mpl: int)
    requires mpl <= max && inc >= 1
    requires MplOver(hooks, Ok(max), inc, steps, t, trial, mpl).err.None?
    ensures steps(trial, mpl).err.None? && MplOver(hooks, Ok(max), inc, steps, t, trial, mpl + inc).err.None?
    ensures MplOver(hooks, Ok(max), inc, steps, t, trial, mpl).recs ==
      steps(trial, mpl).recs + MplOver(hooks, Ok(max), inc, steps, t, trial, mpl + inc).recs
  {
    var r := MplRound(hooks, Ok(max), steps, t, trial, mpl);
    assert MplOver(hooks, Ok(max), inc, steps, t, trial, mpl) == Then(r, MplOver(hooks, Ok(max), inc, steps, t, trial, mpl + inc));
    assert r.err.None? && r.recs == steps(trial, mpl).recs + [];
  }

  /** A trial that finished appended one stamped record per MPL of the sweep. */
  lemma TrialMarks(hooks: Hooks, v: View, steps: (int, int) -> Out, t: nat, trial: int, lo: int, inc: int, max: int)
    requires Ends(v) && v.count == Ok((lo, inc)) && v.maxMpl == Ok(max) && StepsMark(steps, trial)
    requires TrialOver(hooks, v, steps, t, trial).err.None?
    ensures Marked(TrialOver(hooks, v, steps, t, trial).recs, Row(trial, Sweep(lo, inc, max)))
  {
    var pre := Emit(HookEvents(hooks, "PRE_TRIAL", [IntArg(trial), DbArg(t)]));
    var post := Emit(HookEvents(hooks, "POST_TRIAL", [IntArg(trial), DbArg(t)]));
    var sweep := MplOver(hooks, Ok(max), inc, steps, t, trial, lo);
    assert TrialOver(hooks, v, steps, t, trial) == Then(pre, Then(sweep, post));
    MplOverMarks(hooks, max, inc, steps, t, trial, lo);
    assert sweep.recs + [] == sweep.recs;
  }

  /** Trials that all finished appended their records trial by trial. */
  lemma {:induction false} TrialsMarks(trials: int -> Out, trial: int, n: int, mpls: seq<int>)
    requires forall k :: trials(k).err.None? ==> Marked(trials(k).recs, Row(k, mpls))
    requires TrialsOver(trials, trial, n).err.None?
    ensures Marked(TrialsOver(trials, trial, n).recs, Grid(trial, n, mpls))
    decreases if trial <= n then n - trial + 1 else 0
  {
    if trial <= n {
      TrialsMarks(trials, trial + 1, n, mpls);
      MarkedAppend(trials(trial).recs, Row(trial, mpls), TrialsOver(trials, trial + 1, n).recs, Grid(trial + 1, n, mpls));
    }
  }

  // ---------------------------------------------------------------------
  // Hook calls around the steps

  /** How many hook calls at location `loc` the events hold. */
  function Fired(es: seq<Event>, loc: string): nat {
    if es == [] then 0
    else Fired(es[..|es| - 1], loc) + (if es[|es| - 1].HookCall? && es[|es| - 1].loc == loc then 1 else 0)
  }

  lemma {:induction false} FiredAppend(a: seq<Event>, b: seq<Event>, loc: string)
    ensures Fired(a + b, loc) == Fired(a, loc) + Fired(b, loc)
  {
    if b == [] {
      assert a + b == a;
    } else {
      var b' := b[..|b| - 1];
      assert (a + b)[..|a + b| - 1] == a + b';
      assert (a + b)[|a + b| - 1] == b[|b| - 1];
      FiredAppend(a, b', loc);
      assert Fired(b, loc) == Fired(b', loc) + (if b[|b| - 1].HookCall? && b[|b| - 1].loc == loc then 1 else 0);
    }
  }

  /** Events that are all calls at one location `at` count fully there and not at all elsewhere. */
  lemma {:induction false} FiredUniform(es: seq<Event>, at: string, loc: string)
    requires forall i :: 0 <= i < |es| ==> es[i].HookCall? && es[i].loc == at
    ensures Fired(es, loc) == if at == loc then |es| else 0
  {
    if es != [] {
      FiredUniform(es[..|es| - 1], at, loc);
    }
  }

  /** The events hold no hook call. */
  predicate Quiet(es: seq<Event>) {
    forall i :: 0 <= i < |es| ==> !es[i].HookCall?
  }

  lemma {:induction false} FiredQuiet(es: seq<Event>, loc: string)
    requires Quiet(es)
    ensures Fired(es, loc) == 0
  {
    if es != [] {
      FiredQuiet(es[..|es| - 1], loc);
    }
  }

  /** How many hooks a location has. */
  function Calls(hooks: Hooks, loc: string): nat {
    if loc in hooks then |hooks[loc]| else 0
  }

  /** `__run_hooks(location, ...)` calls the hooks of the upper-cased location and no others. */
  lemma HookEventsFired(hooks: Hooks, location: string, args: seq<HookArg>, loc: string)
    ensures Fired(HookEvents(hooks, location, args), loc) == if Upper(location) == loc then Calls(hooks, loc) else 0
  {
    var es := HookEvents(hooks, location, args);
    if Upper(location) in hooks {
      FiredUniform(es, Upper(location), loc);
    }
  }

  /** A step calls no hook. */
  lemma StepQuiet(v: View, w: World, t: nat, trial: int, mpl: int)
    ensures Quiet(StepSpec(v, w, t, trial, mpl).events)
  {
  }

  ghost predicate StepsQuiet(steps: (int, int) -> Out, trial: int) {
    forall mpl :: Quiet(steps(trial, mpl).events)
  }


  /** `es` ends with `tail`. */
  predicate EndsWith(es: seq<Event>, tail: seq<Event>) {
    |tail| <= |es| && es[|es| - |tail|..] == tail
  }

  lemma EndsWithAppend(a: seq<Event>, b: seq<Event>, tail: seq<Event>)
    requires EndsWith(b, tail)
    ensures EndsWith(a + b, tail)
  {
    assert (a + b)[|a + b| - |tail|..] == b[|b| - |tail|..];
  }

  /** The hooks of `PRE_MPL` at location `loc`. */
  function PreCalls(hooks: Hooks, loc: string): nat {
    if loc == "PRE_MPL" then Calls(hooks, loc) else 0
  }

  function PostCalls(hooks: Hooks, loc: string): nat {
    if loc == "POST_MPL" then Calls(hooks, loc) else 0
  }

  lemma MplHooksFired(hooks: Hooks, t: nat, trial: int, mpl: int, loc: string)
    ensures Fired(PreMpl(hooks, t, trial, mpl).events, loc) == PreCalls(hooks, loc)
    ensures Fired(PostMpl(hooks, t, trial, mpl).events, loc) == PostCalls(hooks, loc)
  {
    assert Upper("PRE_MPL") == "PRE_MPL" && Upper("POST_MPL") == "POST_MPL";
    HookEventsFired(hooks, "PRE_MPL", [IntArg(mpl), IntArg(trial), DbArg(t)], loc);
    HookEventsFired(hooks, "POST_MPL", [IntArg(mpl), IntArg(trial), DbArg(t)], loc);
  }

  /** A round within the bound, and the rest of the sweep. */
  lemma MplOverUnfold(hooks: Hooks, max: int, inc: int, steps: (int, int) -> Out, t: nat, trial: int, mpl: int)
    requires mpl <= max && inc >= 1
    requires MplOver(hooks, Ok(max), inc, steps, t, trial, mpl).err.None?
    ensures MplOver(hooks, Ok(max), inc, steps, t, trial, mpl + inc).err.None?
    ensures MplOver(hooks, Ok(max), inc, steps, t, trial, mpl).events ==
      PreMpl(hooks, t, trial, mpl).events + steps(trial, mpl).events + PostMpl(hooks, t, trial, mpl).events +
      MplOver(hooks, Ok(max), inc, steps, t, trial, mpl + inc).events
  {
    var r := MplRound(hooks, Ok(max), steps, t, trial, mpl);
    assert MplOver(hooks, Ok(max), inc, steps, t, trial, mpl) == Then(r, MplOver(hooks, Ok(max), inc, steps, t, trial, mpl + inc));
  }

  /** In a sweep that finished, each location fires its `PRE_MPL` hooks once per MPL and once more, and its `POST_MPL` hooks once per MPL. */
  lemma {:induction false} MplOverFired(hooks: Hooks, max: int, inc: int, steps: (int, int) -> Out, t: nat, trial: int, mpl: int, loc: string)
    requires mpl <= max ==> inc >= 1
    requires StepsQuiet(steps, trial)
    requires MplOver(hooks, Ok(max), inc, steps, t, trial, mpl).err.None?
    ensures var n := |Sweep(mpl, inc, max)|;
      Fired(MplOver(hooks, Ok(max), inc, steps, t, trial, mpl).events, loc) == (n + 1) * PreCalls(hooks, loc) + n * PostCalls(hooks, loc)
    decreases if mpl <= max then max - mpl + 1 else 0
  {
    MplHooksFired(hooks, t, trial, mpl, loc);
    if mpl <= max {
      var pre, s, post := PreMpl(hooks, t, trial, mpl).events, steps(trial, mpl).events, PostMpl(hooks, t, trial, mpl).events;
      var rest := MplOver(hooks, Ok(max), inc, steps, t, trial, mpl + inc).events;
      MplOverUnfold(hooks, max, inc, steps, t, trial, mpl);
      FiredQuiet(s, loc);
      MplOverFired(hooks, max, inc, steps, t, trial, mpl + inc, loc);
      FiredAppend(pre, s, loc);
      FiredAppend(pre + s, post, loc);
      FiredAppend(pre + s + post, rest, loc);
      var n' := |Sweep(mpl + inc, inc, max)|;
      assert |Sweep(mpl, inc, max)| == n' + 1;
      MulStep(n', PostCalls(hooks, loc));
      MulStep(n' + 1, PreCalls(hooks, loc));
    }
  }

  /** The MPL at which the sweep stops: the first one above `max`. */
  function Beyond(lo: int, inc: int, max: int): (r: int)
    requires lo <= max ==> inc >= 1
    decreases if lo <= max then max - lo + 1 else 0
  {
    if lo > max then lo else Beyond(lo + inc, inc, max)
  }

  /** The stopping MPL lies `|Sweep|` increments past `lo`, and above `max`. */
  lemma {:induction false} BeyondValue(lo: int, inc: int, max: int)
    requires lo <= max ==> inc >= 1
    ensures Beyond(lo, inc, max) == lo + |Sweep(lo, inc, max)| * inc
    ensures Beyond(lo, inc, max) > max
    decreases if lo <= max then max - lo + 1 else 0
  {
    if lo <= max {
      BeyondValue(lo + inc, inc, max);
      MulStep(|Sweep(lo + inc, inc, max)|, inc);
    }
  }

  /** A sweep that finished ends with the `PRE_MPL` hooks of the first MPL above `max_mpl`. */
  lemma {:induction false} MplOverLast(hooks: Hooks, max: int, inc: int, steps: (int, int) -> Out, t: nat, trial: int, mpl: int)
    requires mpl <= max ==> inc >= 1
    requires MplOver(hooks, Ok(max), inc, steps, t, trial, mpl).err.None?
    ensures EndsWith(MplOver(hooks, Ok(max), inc, steps, t, trial, mpl).events, PreMpl(hooks, t, trial, Beyond(mpl, inc, max)).events)
    decreases if mpl <= max then max - mpl + 1 else 0
  {
    var es := MplOver(hooks, Ok(max), inc, steps, t, trial, mpl).events;
    if mpl <= max {
      var pre, s, post := PreMpl(hooks, t, trial, mpl).events, steps(trial, mpl).events, PostMpl(hooks, t, trial, mpl).events;
      var rest := MplOver(hooks, Ok(max), inc, steps, t, trial, mpl + inc).events;
      MplOverUnfold(hooks, max, inc, steps, t, trial, mpl);
      MplOverLast(hooks, max, inc, steps, t, trial, mpl + inc);
      EndsWithAppend(pre + s + post, rest, PreMpl(hooks, t, trial, Beyond(mpl + inc, inc, max)).events);
    } else {
      assert es == PreMpl(hooks, t, trial, mpl).events;
      assert es[|es| - |es|..] == es;
    }
  }

  /**
   * In a sweep that finished, `PRE_MPL` fires once per MPL of the sweep
   * and once more (the bound check comes after it), and `POST_MPL` once
   * per MPL.
   */
  lemma MplOverCounts(hooks: Hooks, max: int, inc: int, steps: (int, int) -> Out, t: nat, trial: int, mpl: int)
    requires mpl <= max ==> inc >= 1
    requires StepsQuiet(steps, trial)
    requires MplOver(hooks, Ok(max), inc, steps, t, trial, mpl).err.None?
    ensures var es, n := MplOver(hooks, Ok(max), inc, steps, t, trial, mpl).events, |Sweep(mpl, inc, max)|;
      Fired(es, "PRE_MPL") == (n + 1) * Calls(hooks, "PRE_MPL") && Fired(es, "POST_MPL") == n * Calls(hooks, "POST_MPL")
  {
    var n := |Sweep(mpl, inc, max)|;
    assert "PRE_MPL"[1] != "POST_MPL"[1];
    MplOverFired(hooks, max, inc, steps, t, trial, mpl, "PRE_MPL");
    MplOverFired(hooks, max, inc, steps, t, trial, mpl, "POST_MPL");
    assert PreCalls(hooks, "PRE_MPL") == Calls(hooks, "PRE_MPL") && PostCalls(hooks, "PRE_MPL") == 0;
    assert PreCalls(hooks, "POST_MPL") == 0 && PostCalls(hooks, "POST_MPL") == Calls(hooks, "POST_MPL");
    assert n * 0 == 0 && (n + 1) * 0 == 0;
  }

  /** Every trial of a sweep that finished: what `MplOverHooks` says, for the sweep of a real target. */
  lemma StepsOfQuiet(views: seq<View>, w: World, t: nat, trial: int)
    ensures StepsQuiet(StepsOf(views, w)(t), trial)
  {
    forall mpl ensures Quiet(StepsOf(views, w)(t)(trial, mpl).events) {
      if t < |views| {
        assert StepsOf(views, w)(t)(trial, mpl) == StepSpec(views[t], w, t, trial, mpl);
        StepQuiet(views[t], w, t, trial, mpl);
      } else {
        assert StepsOf(views, w)(t)(trial, mpl) == Emit([]);
      }
    }
  }

  // ---------------------------------------------------------------------
  // The whole run

  /** A run of targets that finished finished every target. */
  lemma {:induction false} TargetsOk(outs: nat -> Out, a: nat, n: nat)
    requires TargetsOver(outs, a, n).err.None?
    ensures forall t :: a <= t < n ==> outs(t).err.None?
    decreases n - a
  {
    if a < n {
      TargetsOk(outs, a + 1, n);
    }
  }

  /** When every target before `t` finished, the run reaches `t`. */
  lemma {:induction false} ClearAll(outs: nat -> Out, t: nat)
    requires forall u :: 0 <= u < t ==> outs(u).err.None?
    ensures Clear(outs, t)
  {
    if t > 0 {
      ClearAll(outs, t - 1);
    }
  }

  lemma StepsOfMark(views: seq<View>, w: World, t: nat, trial: int)
    requires t < |views|
    ensures StepsMark(StepsOf(views, w)(t), trial)
  {
    forall mpl | StepsOf(views, w)(t)(trial, mpl).err.None?
      ensures Marked(StepsOf(views, w)(t)(trial, mpl).recs, [(trial, mpl)])
    {
      assert StepsOf(views, w)(t)(trial, mpl) == StepSpec(views[t], w, t, trial, mpl);
      StepMarks(views[t], w, t, trial, mpl);
    }
  }

  lemma TrialsOfMark(hooks: Hooks, views: seq<View>, w: World, t: nat, n: int, lo: int, inc: int, max: int)
    requires AllEnd(views) && t < |views| && views[t].count == Ok((lo, inc)) && views[t].maxMpl == Ok(max)
    requires TrialsOver(TrialsOf(hooks, views, w)(t), 1, n).err.None?
    ensures Marked(TrialsOver(TrialsOf(hooks, views, w)(t), 1, n).recs, Grid(1, n, Sweep(lo, inc, max)))
  {
    var v := views[t];
    assert Ends(v);
    forall k | TrialsOf(hooks, views, w)(t)(k).err.None?
      ensures Marked(TrialsOf(hooks, views, w)(t)(k).recs, Row(k, Sweep(lo, inc, max)))
    {
      assert TrialsOf(hooks, views, w)(t)(k) == TrialOver(hooks, v, StepsOf(views, w)(t), t, k);
      StepsOfMark(views, w, t, k);
      TrialMarks(hooks, v, StepsOf(views, w)(t), t, k, lo, inc, max);
    }
    TrialsMarks(TrialsOf(hooks, views, w)(t), 1, n, Sweep(lo, inc, max));
  }

  /** A target that finished appended the records of its trials and no others. */
  lemma TargetRecs(hooks: Hooks, v: View, t: nat, trials: int -> Out)
    requires TargetOver(hooks, v, t, trials).err.None?
    ensures v.trials.Ok? && TrialsOver(trials, 1, v.trials.value).err.None?
    ensures TargetOver(hooks, v, t, trials).recs == TrialsOver(trials, 1, v.trials.value).recs
  {
    var body := TrialsOver(trials, 1, v.trials.value);
    assert body.recs + [] == body.recs;
  }

  /**
   * A target whose output has no exporter fails right after its trials
   * with the lookup's error: its records stay, but there is no export, no
   * cleanup and no `POST_DB` (src/runner/dbsystem.py:252).
   */
  lemma BodyExportFails(hooks: Hooks, v: View, t: nat, trials: int -> Out)
    requires v.trials.Ok? && TrialsOver(trials, 1, v.trials.value).err.None? && v.exporter.Err?
    ensures var done := TrialsOver(trials, 1, v.trials.value);
      BodyOver(hooks, v, t, trials) == Out(done.events, done.recs, Some(DbFailure(v.exporter.error)))
  {
    var done := TrialsOver(trials, 1, v.trials.value);
    assert done.events + [] == done.events && done.recs + [] == done.recs;
  }

  /** In a run that finished, every target's exporter lookup succeeded. */
  lemma RunExported(hooks: Hooks, views: seq<View>, w: World, t: nat)
    requires AllEnd(views) && t < |views| && RunSpec(hooks, views, w).err.None?
    ensures views[t].exporter.Ok?
  {
    var outs := TargetsOf(hooks, views, w);
    TargetsOk(outs, 0, |views|);
    assert outs(t) == TargetOver(hooks, views[t], t, TrialsOf(hooks, views, w)(t));
  }

  /**
   * In a run that finished, target `t`'s records are, in order, one per
   * trial 1..trials and, within a trial, one per MPL of the sweep, each
   * stamped with its trial and MPL (src/runner/runner.py:42-62).
   */
  lemma RunMarks(hooks: Hooks, views: seq<View>, w: World, t: nat, n: int, lo: int, inc: int, max: int)
    requires AllEnd(views) && t < |views| && RunSpec(hooks, views, w).err.None?
    requires views[t].trials == Ok(n) && views[t].count == Ok((lo, inc)) && views[t].maxMpl == Ok(max)
    ensures Marked(RecsOf(TargetsOf(hooks, views, w), t), Grid(1, n, Sweep(lo, inc, max)))
  {
    var outs := TargetsOf(hooks, views, w);
    var v := views[t];
    assert Ends(v);
    TargetsOk(outs, 0, |views|);
    ClearAll(outs, t);
    assert outs(t) == TargetOver(hooks, v, t, TrialsOf(hooks, views, w)(t));
    TargetRecs(hooks, v, t, TrialsOf(hooks, views, w)(t));
    TrialsOfMark(hooks, views, w, t, n, lo, inc, max);
  }

  // ---------------------------------------------------------------------
  // The sweep as written, without a bound on `inc_mpl`

  /** The k-th value `count(start=lo, step=inc)` yields. */
  function Count(lo: int, inc: int, k: nat): int {
    if k == 0 then lo else Count(lo, inc, k - 1) + inc
  }

  /**
   * With `inc_mpl <= 0` and `min_mpl <= max_mpl`, which the configuration
   * checks accept, no value of the count is above `max_mpl`: the `break`
   * of src/runner/runner.py:47-48 is never taken, and the loop runs one
   * step after another for ever.
   */
  lemma {:induction false} CountNeverPassesMax(lo: int, inc: int, max: int, k: nat)
    requires inc <= 0 && lo <= max
    ensures Count(lo, inc, k) <= lo <= max
  {
    if k > 0 {
      CountNeverPassesMax(lo, inc, max, k - 1);
    }
  }

  /** With `inc_mpl >= 1` the count yields exactly the sweep and then the first value above `max_mpl`. */
  lemma {:induction false} CountIsSweep(lo: int, inc: int, max: int, k: nat)
    requires inc >= 1 && k <= |Sweep(lo, inc, max)|
    ensures k < |Sweep(lo, inc, max)| ==> Count(lo, inc, k) == Sweep(lo, inc, max)[k]
    ensures k == |Sweep(lo, inc, max)| ==> Count(lo, inc, k) == Beyond(lo, inc, max) > max
  {
    SweepShape(lo, inc, max);
    BeyondValue(lo, inc, max);
    CountValue(lo, inc, k);
  }

  lemma {:induction false} CountValue(lo: int, inc: int, k: nat)
    ensures Count(lo, inc, k) == lo + k * inc
  {
    if k > 0 {
      CountValue(lo, inc, k - 1);
      MulStep(k - 1, inc);
    }
  }

  // ---------------------------------------------------------------------
  // A target whose name is not all lower case

  /**
   * A target whose `dbname` passes the lower-cased check but is not a
   * `SUPPORTED_DBS` key as written is cleaned in its first step, which
   * then fails with KeyError naming it before anything is loaded.
   */
  lemma MixedCaseStepFails(db: DbSystem, cwd: string, v: View, w: World, t: nat, trial: int, mpl: int)
    requires db.AttrStr("dbname").Ok? && db.AttrStr("dbname").value !in Constants.SupportedDbs
    requires v.ycsb == YcsbParts(db, cwd) && v.clean.Ok? && w.exit(t, trial, mpl) == 0
    ensures StepSpec(v, w, t, trial, mpl) ==
      Out([Cleaned(t, v.clean.value.1)], [], Some(DbFailure(KeyError(db.AttrStr("dbname").value))))
  {
  }
}
