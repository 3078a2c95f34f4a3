/**
 * The registry of running simulations (`pmu_threads`) and the start and
 * stop buttons of the front end.  The simulation threads themselves are
 * not part of this model: the registry holds the names it has registered.
 */
module Simulations {
  import opened Wrappers
  import opened ImportRules
  import opened ProfileUi
  import opened Profiles

  /** The running-simulation registry (`pmu_threads`): the names of the
      profiles whose simulation thread is registered. */
  class Registry {
    var running: set<string>

    constructor ()
      ensures running == {}
    {
      running := {};
    }

    /** `start_selected_pmu` over the tree selection, given the names of
        the stored profiles. */
    method Start(profiles: set<string>, selected: seq<string>) returns (outcome: StartOutcome)
      modifies this
      ensures selected == [] ==> outcome == NothingSelected && running == old(running)
      ensures selected != [] ==>
        var r := StartSpec(old(running), profiles, selected);
        running == r.running &&
        outcome == if r.raised then StartRaised(r.started) else StartReport(r.started, r.already)
    {
      if selected == [] {
        return NothingSelected;
      }
      ghost var before := running;
      var started, already := [], [];
      for i := 0 to |selected|
        invariant StartSpec(before, profiles, selected[..i]) == StartRun(running, started, already, false)
      {
        assert selected[..i + 1][..i] == selected[..i];
        var name := selected[i];
        if name in running {
          already := already + [name];
        } else if name !in profiles {
          StartStopsAtRaise(before, profiles, selected, i + 1);
          return StartRaised(started);
        } else {
          running := running + {name};
          started := started + [name];
        }
      }
      assert selected[..|selected|] == selected;
      return StartReport(started, already);
    }

    /** `stop_selected_pmu` on the focused tree item: its registration is
        removed; the thread is not told to stop. */
    method Stop(focus: Option<string>) returns (outcome: StopOutcome)
      modifies this
      ensures focus.None? ==> outcome == NoneFocused && running == old(running)
      ensures focus.Some? && focus.value !in old(running) ==> outcome == NotRunning && running == old(running)
      ensures focus.Some? && focus.value in old(running) ==> outcome == Stopped && running == old(running) - {focus.value}
    {
      match focus
      case None =>
        return NoneFocused;
      case Some(name) =>
        if name !in running {
          return NotRunning;
        }
        running := running - {name};
        return Stopped;
    }
  }

  datatype StartOutcome =
    | NothingSelected
    | StartReport(started: seq<string>, alreadyRunning: seq<string>)
    | StartRaised(started: seq<string>)

  datatype StopOutcome = NoneFocused | NotRunning | Stopped

  /** Where the starting loop over a selection stands. */
  datatype StartRun = StartRun(running: set<string>, started: seq<string>, already: seq<string>, raised: bool)

  /** The starting loop over the selection: names already registered are
      reported as running; others are registered, unless they name no
      profile, which raises `KeyError` and ends the loop. */
  function StartSpec(running: set<string>, known: set<string>, selected: seq<string>): (r: StartRun)
    ensures forall n :: n in r.running <==> n in running || n in r.started
    ensures forall n :: n in r.started ==> n in selected && n !in running && n in known
    ensures forall n :: n in r.already ==> n in selected && n in r.running
    ensures !r.raised ==> forall n :: n in selected ==> n in r.running
  {
    if selected == [] then StartRun(running, [], [], false)
    else
      var n := |selected| - 1;
      var r := StartSpec(running, known, selected[..n]);
      var name := selected[n];
      assert selected == selected[..n] + [name];
      if r.raised then r
      else if name in r.running then r.(already := r.already + [name])
      else if name !in known then r.(raised := true)
      else StartRun(r.running + {name}, r.started + [name], r.already, false)
  }

  /** The loop raises exactly when some selected name is neither running
      nor a profile. */
  lemma {:induction false} StartRaisesIff(running: set<string>, known: set<string>, selected: seq<string>)
    ensures StartSpec(running, known, selected).raised <==> exists n :: n in selected && n !in known && n !in running
  {
    if selected != [] {
      var n := |selected| - 1;
      assert selected == selected[..n] + [selected[n]];
      StartRaisesIff(running, known, selected[..n]);
    }
  }

  /** With a selection of different names (a tree selection), the report
      splits it exactly: the names that were running, and the rest. */
  lemma {:induction false} StartSplitsSelection(running: set<string>, known: set<string>, selected: seq<string>)
    requires NoRepeats(selected)
    requires forall n :: n in selected ==> n in known
    ensures var r := StartSpec(running, known, selected);
      !r.raised && r.started == Select(selected, running, false) && r.already == Select(selected, running, true)
  {
    if selected != [] {
      var n := |selected| - 1;
      var front := selected[..n];
      assert selected == front + [selected[n]];
      assert NoRepeats(front) by {
        assert forall i :: 0 <= i < n ==> front[i] == selected[i];
      }
      StartSplitsSelection(running, known, front);
      assert selected[n] !in front;
    }
  }

  /** Once the loop has raised, the later names change nothing. */
  lemma {:induction false} StartStopsAtRaise(running: set<string>, known: set<string>, selected: seq<string>, j: nat)
    requires j <= |selected|
    requires StartSpec(running, known, selected[..j]).raised
    ensures StartSpec(running, known, selected) == StartSpec(running, known, selected[..j])
    decreases |selected| - j
  {
    if j == |selected| {
      assert selected[..j] == selected;
    } else {
      assert selected[..j + 1][..j] == selected[..j];
      StartStopsAtRaise(running, known, selected, j + 1);
    }
  }

  /** Stopping a profile that a start registered gives back the registry
      as it was before. */
  lemma StopUndoesStart(running: set<string>, known: set<string>, name: string)
    requires name in known && name !in running
    ensures StartSpec(running, known, [name]) == StartRun(running + {name}, [name], [], false)
    ensures StartSpec(running, known, [name]).running - {name} == running
  {
    assert [name][..0] == [];
  }

  /** Stopping, one by one, every name a start registered gives back the
      registry as it was before, whatever the selection. */
  lemma StoppingStartedRestores(running: set<string>, known: set<string>, selected: seq<string>)
    ensures var r := StartSpec(running, known, selected);
      r.running - (set n | n in r.started) == running
  {
  }
}
