/**
 * The host power jobs: when each may run (can_run) and the steps each
 * issues. Each job sees `outlets`, the outlets associated with its host
 * (host.outlets.all()).
 */
module PowerJobs {
  import opened Wrappers
  import opened Outlets

  /** any([o.has_power for o in outlets]): some outlet is on (None counts as false). */
  predicate AnyOn(outlets: seq<Outlet>) {
    exists i :: 0 <= i < |outlets| && outlets[i].hasPower == Some(true)
  }

  /** PoweronHostJob.can_run: at least one outlet, all known, none on. */
  predicate PoweronCanRun(outlets: seq<Outlet>) {
    |outlets| > 0 && AllOutletsKnown(outlets) && !AnyOn(outlets)
  }

  /** PoweroffHostJob.can_run: at least one outlet, all known, some on. */
  predicate PoweroffCanRun(outlets: seq<Outlet>) {
    |outlets| > 0 && AllOutletsKnown(outlets) && AnyOn(outlets)
  }

  /** PowercycleHostJob.can_run: at least one outlet, whatever their state. */
  predicate PowercycleCanRun(outlets: seq<Outlet>) {
    |outlets| > 0
  }

  /**
   * Power on and power off are never offered together; with a known state
   * exactly one of them is; either implies power cycle.
   */
  lemma CanRunRelations(outlets: seq<Outlet>)
    ensures !(PoweronCanRun(outlets) && PoweroffCanRun(outlets))
    ensures |outlets| > 0 && AllOutletsKnown(outlets) ==> PoweronCanRun(outlets) != PoweroffCanRun(outlets)
    ensures PoweronCanRun(outlets) || PoweroffCanRun(outlets) ==> PowercycleCanRun(outlets)
    ensures PoweronCanRun(outlets) <==> |outlets| > 0 && forall i :: 0 <= i < |outlets| ==> outlets[i].hasPower == Some(false)
  {
    if PoweronCanRun(outlets) {
      forall i | 0 <= i < |outlets| ensures outlets[i].hasPower == Some(false) {
        assert Known(outlets[i]);
        assert !AnyOn(outlets);
        assert outlets[i].hasPower != Some(true);
        var v := outlets[i].hasPower.value;
        assert outlets[i].hasPower == Some(v) && !v;
      }
    }
  }

  datatype ToggleState = On | Off

  /** (TogglePduOutletStateStep, {'outlets': outlets, 'toggle_state': ...}) */
  datatype Step = TogglePduOutletState(outlets: seq<Outlet>, toggle: ToggleState)

  function PoweronSteps(outlets: seq<Outlet>): (r: seq<Step>)
    ensures |r| == 1 && r[0].toggle == On && r[0].outlets == outlets
  {
    [TogglePduOutletState(outlets, On)]
  }

  function PoweroffSteps(outlets: seq<Outlet>): (r: seq<Step>)
    ensures |r| == 1 && r[0].toggle == Off && r[0].outlets == outlets
  {
    [TogglePduOutletState(outlets, Off)]
  }

  /** Power cycle switches all outlets off together, then all on together. */
  function PowercycleSteps(outlets: seq<Outlet>): (r: seq<Step>)
    ensures r == PoweroffSteps(outlets) + PoweronSteps(outlets)
    ensures |r| == 2 && r[0].toggle == Off && r[1].toggle == On
    ensures r[0].outlets == r[1].outlets == outlets
  {
    var outlets_off_step := TogglePduOutletState(outlets, Off);
    var outlets_on_step := TogglePduOutletState(outlets, On);
    [outlets_off_step, outlets_on_step]
  }

  /**
   * The intended effect of a toggle step on the host's outlets, assuming the
   * power-control device obeys: every outlet of the step reports the new state.
   */
  function Toggled(outlets: seq<Outlet>, toggle: ToggleState): (r: seq<Outlet>)
    ensures |r| == |outlets|
    ensures forall i :: 0 <= i < |r| ==> r[i] == outlets[i].(hasPower := Some(toggle == On))
  {
    seq(|outlets|, i requires 0 <= i < |outlets| => outlets[i].(hasPower := Some(toggle == On)))
  }

  function RunSteps(steps: seq<Step>, outlets: seq<Outlet>): seq<Outlet>
    decreases |steps|
  {
    if steps == [] then outlets else RunSteps(steps[1..], Toggled(outlets, steps[0].toggle))
  }

  /**
   * Each job leaves the host where the opposite job may run: after power on
   * only power off is possible, after power off only power on, and power
   * cycle always ends with every outlet on and known.
   */
  lemma StepsReachOppositeJob(outlets: seq<Outlet>)
    requires |outlets| > 0
    ensures PoweroffCanRun(RunSteps(PoweronSteps(outlets), outlets))
    ensures PoweronCanRun(RunSteps(PoweroffSteps(outlets), outlets))
    ensures var after := RunSteps(PowercycleSteps(outlets), outlets);
      PoweroffCanRun(after) && !PoweronCanRun(after)
      && forall i :: 0 <= i < |after| ==> after[i].hasPower == Some(true)
  {
    var on := RunSteps(PoweronSteps(outlets), outlets);
    assert on == RunSteps([], Toggled(outlets, On)) by {
      assert PoweronSteps(outlets)[1..] == [];
    }
    assert on[0].hasPower == Some(true);
    var off := RunSteps(PoweroffSteps(outlets), outlets);
    assert off == RunSteps([], Toggled(outlets, Off)) by {
      assert PoweroffSteps(outlets)[1..] == [];
    }
    var cycled := RunSteps(PowercycleSteps(outlets), outlets);
    assert cycled == RunSteps([], Toggled(Toggled(outlets, Off), On)) by {
      var steps := PowercycleSteps(outlets);
      assert steps[1..] == PoweronSteps(outlets);
      assert RunSteps(steps, outlets) == RunSteps(PoweronSteps(outlets), Toggled(outlets, Off));
      assert PoweronSteps(outlets)[1..] == [];
    }
    assert cycled[0].hasPower == Some(true);
  }
}
