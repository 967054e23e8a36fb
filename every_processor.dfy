/** The "every" processor: every n-th step it applies a set of events to the
    generator's output and to the following transition, and runs a list of
    generator-modifier functions. */
module EveryProcessor {
  import opened Wrappers
  import opened Parameter
  import opened Events

  /** Events to apply through one tag filter, and the filter mode. The
      events are held solidified; solidifying a source event is done by the
      event module, which is not part of this model. */
  datatype FilterGroup = FilterGroup(filter: seq<string>, mode: bool, evs: seq<StaticEvent>)

  /** One period with what it applies. */
  datatype Entry = Entry(step: Parameter, filtered: seq<FilterGroup>, genMods: seq<GenModCall>)

  /** The solidified events of one filter, as recorded for the transition. */
  datatype StaticGroup = StaticGroup(filter: seq<string>, evs: seq<StaticEvent>)

  /** A period that fired in the last event step, with its events. */
  datatype Fired = Fired(period: nat, groups: seq<StaticGroup>)

  /** The period a step value stands for: truncated to an integer and
      kept below 101. */
  function Period(x: real): (n: nat)
    ensures n < 101
  {
    AsUsize(x) % 101
  }

  /** Applies the overrides in order to every sound event; control events
      are left alone. */
  function ApplyAll(events: seq<InterpretableEvent>, ovs: seq<Override>): (r: seq<InterpretableEvent>)
    ensures |r| == |events|
  {
    seq(|events|, i requires 0 <= i < |events| =>
      if events[i].Sound? then Sound(events[i].s.(applied := events[i].s.applied + ovs)) else events[i])
  }

  lemma ApplyAllTwice(events: seq<InterpretableEvent>, a: seq<Override>, b: seq<Override>)
    ensures ApplyAll(ApplyAll(events, a), b) == ApplyAll(events, a + b)
  {
    var l, r := ApplyAll(ApplyAll(events, a), b), ApplyAll(events, a + b);
    forall i | 0 <= i < |events| ensures l[i] == r[i] {
      if events[i].Sound? {
        assert events[i].s.applied + a + b == events[i].s.applied + (a + b);
      }
    }
  }

  lemma ApplyAllNone(events: seq<InterpretableEvent>)
    ensures ApplyAll(events, []) == events
  {
    forall i | 0 <= i < |events| ensures ApplyAll(events, [])[i] == events[i] {
      if events[i].Sound? {
        assert events[i].s.applied + [] == events[i].s.applied;
      }
    }
  }

  /** The overrides of one filter group, in order. */
  function GroupOverrides(g: FilterGroup): (r: seq<Override>)
    ensures |r| == |g.evs|
  {
    seq(|g.evs|, i requires 0 <= i < |g.evs| => Override(g.evs[i], g.filter, g.mode))
  }

  /** The overrides of a list of filter groups, group after group. */
  function Overrides(groups: seq<FilterGroup>): seq<Override>
  {
    if groups == [] then [] else Overrides(groups[..|groups| - 1]) + GroupOverrides(groups[|groups| - 1])
  }

  function StaticGroups(groups: seq<FilterGroup>): (r: seq<StaticGroup>)
    ensures |r| == |groups|
  {
    seq(|groups|, i requires 0 <= i < |groups| => StaticGroup(groups[i].filter, groups[i].evs))
  }

  /** Applies one event to every sound event of the list. */
  method ApplyToSounds(events: seq<InterpretableEvent>, ev: StaticEvent, filter: seq<string>, mode: bool)
    returns (events': seq<InterpretableEvent>)
    ensures events' == ApplyAll(events, [Override(ev, filter, mode)])
  {
    events' := events;
    for i := 0 to |events|
      invariant |events'| == |events|
      invariant forall k :: 0 <= k < i ==> events'[k] == ApplyAll(events, [Override(ev, filter, mode)])[k]
      invariant forall k :: i <= k < |events| ==> events'[k] == events[k]
    {
      match events'[i]
      case Sound(s) => events' := events'[i := Sound(Apply(s, ev, filter, mode))];
      case Control(_) =>
    }
  }

  /** Applies the events of one filter group, in order, to the sound events. */
  method ApplyGroup(events: seq<InterpretableEvent>, group: FilterGroup) returns (events': seq<InterpretableEvent>)
    ensures events' == ApplyAll(events, GroupOverrides(group))
  {
    events' := events;
    ApplyAllNone(events);
    assert GroupOverrides(group)[..0] == [];
    for e := 0 to |group.evs|
      invariant events' == ApplyAll(events, GroupOverrides(group)[..e])
    {
      var o := Override(group.evs[e], group.filter, group.mode);
      events' := ApplyToSounds(events', group.evs[e], group.filter, group.mode);
      ApplyAllTwice(events, GroupOverrides(group)[..e], [o]);
      assert GroupOverrides(group)[..e + 1] == GroupOverrides(group)[..e] + [o];
    }
    assert GroupOverrides(group)[..|group.evs|] == GroupOverrides(group);
  }

  /** Applies every event of every filter group to the sound events, and
      returns the groups' events as recorded for the transition. */
  method ApplyGroups(events: seq<InterpretableEvent>, groups: seq<FilterGroup>)
    returns (events': seq<InterpretableEvent>, statEvs: seq<StaticGroup>)
    ensures events' == ApplyAll(events, Overrides(groups))
    ensures statEvs == StaticGroups(groups)
  {
    events', statEvs := events, [];
    assert groups[..0] == [];
    ApplyAllNone(events);
    for g := 0 to |groups|
      invariant events' == ApplyAll(events, Overrides(groups[..g]))
      invariant statEvs == StaticGroups(groups[..g])
    {
      assert groups[..g + 1][..g] == groups[..g];
      var group := groups[g];
      events' := ApplyGroup(events', group);
      ApplyAllTwice(events, Overrides(groups[..g]), GroupOverrides(group));
      statEvs := statEvs + [StaticGroup(group.filter, group.evs)];
    }
    assert groups[..|groups|] == groups;
  }

  /** The modulus test as the source writes it: `stepCount % period == 0`
      on an unsigned integer, which panics when the period is zero. A
      period is zero whenever the step value truncates to a multiple of 101,
      so a step of 101 (or 0) stops the program. */
  function FiresAsWritten(stepCount: nat, period: nat): (r: Result<bool>)
    ensures r.Panic? <==> period == 0
    ensures r.Ok? ==> (r.value <==> stepCount % period == 0)
  {
    if period == 0 then Panic("attempt to calculate the remainder with a divisor of zero")
    else Ok(stepCount % period == 0)
  }

  /** A step value of 101 gives a zero period, on which the source panics. */
  lemma ZeroPeriodPanics(stepCount: nat)
    ensures Period(101.0) == 0 && Period(0.0) == 0
    ensures FiresAsWritten(stepCount, Period(101.0)).Panic?
  {
    assert AsUsize(101.0) == 101;
    assert AsUsize(0.0) == 0;
  }

  /** Whether a period fires at a step: the step count is a multiple of it.
      A zero period never fires; this is the test the model uses. */
  predicate Fires(stepCount: nat, period: nat)
  {
    period != 0 && stepCount % period == 0
  }

  /** The corrected test never panics: a zero period never fires, the
      period 1 fires at every step, and wherever the source does not panic
      the two tests agree. */
  lemma FiresCorrected(stepCount: nat, period: nat)
    ensures !Fires(stepCount, 0) && Fires(stepCount, 1)
    ensures period != 0 ==> FiresAsWritten(stepCount, period) == Ok(Fires(stepCount, period))
  {
  }

  /** What one entry records in the event step: its period and events when
      the period fires, nothing otherwise. */
  ghost function EntryFired(e: Entry, stepCount: nat): seq<Fired>
  {
    if Fires(stepCount, Period(Evaluated(e.step)))
    then [Fired(Period(Evaluated(e.step)), StaticGroups(e.filtered))] else []
  }

  /** What one entry applies to the sound events in the event step. */
  ghost function EntryOverrides(e: Entry, stepCount: nat): seq<Override>
  {
    if Fires(stepCount, Period(Evaluated(e.step))) then Overrides(e.filtered) else []
  }

  /** What the event step records: one entry per firing period, in order. */
  ghost function FiredList(things: seq<Entry>, stepCount: nat): seq<Fired>
  {
    if things == [] then []
    else
      FiredList(things[..|things| - 1], stepCount) + EntryFired(things[|things| - 1], stepCount)
  }

  /** Every period recorded by the event step is non-zero. */
  lemma {:induction false} FiredListPeriods(things: seq<Entry>, stepCount: nat)
    ensures forall i :: 0 <= i < |FiredList(things, stepCount)| ==> FiredList(things, stepCount)[i].period != 0
  {
    if things != [] {
      FiredListPeriods(things[..|things| - 1], stepCount);
    }
  }

  /** The overrides the event step applies to the sound events, in order. */
  ghost function FiredOverrides(things: seq<Entry>, stepCount: nat): seq<Override>
  {
    if things == [] then []
    else
      FiredOverrides(things[..|things| - 1], stepCount) + EntryOverrides(things[|things| - 1], stepCount)
  }

  /** One entry of the event step: evaluates its period and, when it fires,
      applies its events to the sound events. */
  method FireEntry(e: Entry, stepCount: nat, events: seq<InterpretableEvent>)
    returns (step': Parameter, events': seq<InterpretableEvent>, fired: seq<Fired>)
    ensures step' == AfterEvaluation(e.step)
    ensures fired == EntryFired(e, stepCount)
    ensures events' == ApplyAll(events, EntryOverrides(e, stepCount))
  {
    var x;
    x, step' := EvaluateNumerical(e.step);
    var curStep := Period(x);
    if Fires(stepCount, curStep) {
      var groups;
      events', groups := ApplyGroups(events, e.filtered);
      fired := [Fired(curStep, groups)];
    } else {
      events', fired := events, [];
      ApplyAllNone(events);
    }
  }

  /** The generator-modifier calls due at a step, judged on the snapshots. */
  function DueGenMods(things: seq<Entry>, stepCount: nat): seq<GenModCall>
  {
    if things == [] then []
    else
      var last := things[|things| - 1];
      DueGenMods(things[..|things| - 1], stepCount) +
        (if Fires(stepCount, Period(last.step.staticVal)) then last.genMods else [])
  }

  /** The overrides the transition step applies: every event recorded for a
      period that divides the step count, always in filter mode `true`. */
  function TransitionOverrides(fired: seq<Fired>, stepCount: nat): seq<Override>
  {
    if fired == [] then []
    else
      var last := fired[|fired| - 1];
      TransitionOverrides(fired[..|fired| - 1], stepCount) +
        (if Fires(stepCount, last.period) then StaticOverrides(last.groups) else [])
  }

  /** The overrides of one recorded group, in order, in filter mode `true`. */
  function GroupOverridesStatic(g: StaticGroup): (r: seq<Override>)
    ensures |r| == |g.evs|
    ensures forall i :: 0 <= i < |g.evs| ==> r[i] == Override(g.evs[i], g.filter, true)
  {
    seq(|g.evs|, i requires 0 <= i < |g.evs| => Override(g.evs[i], g.filter, true))
  }

  /** The overrides of recorded groups, group by group. */
  function StaticOverrides(groups: seq<StaticGroup>): seq<Override>
  {
    if groups == [] then []
    else StaticOverrides(groups[..|groups| - 1]) + GroupOverridesStatic(groups[|groups| - 1])
  }

  /** Applies the events of one recorded group to a transition, in filter
      mode `true`. */
  method ApplyStaticGroup(trans: StaticEvent, g: StaticGroup) returns (trans': StaticEvent)
    ensures trans' == trans.(applied := trans.applied + GroupOverridesStatic(g))
  {
    trans' := trans;
    for e := 0 to |g.evs|
      invariant trans' == trans.(applied := trans.applied + GroupOverridesStatic(g)[..e])
    {
      assert GroupOverridesStatic(g)[..e + 1] == GroupOverridesStatic(g)[..e] + [Override(g.evs[e], g.filter, true)];
      trans' := Apply(trans', g.evs[e], g.filter, true);
    }
    assert GroupOverridesStatic(g)[..|g.evs|] == GroupOverridesStatic(g);
  }

  /** Applies the events of recorded groups to a transition, group by group. */
  method ApplyStaticGroups(trans: StaticEvent, groups: seq<StaticGroup>) returns (trans': StaticEvent)
    ensures trans' == trans.(applied := trans.applied + StaticOverrides(groups))
  {
    trans' := trans;
    for g := 0 to |groups|
      invariant trans' == trans.(applied := trans.applied + StaticOverrides(groups[..g]))
    {
      assert groups[..g + 1][..g] == groups[..g];
      trans' := ApplyStaticGroup(trans', groups[g]);
    }
    assert groups[..|groups|] == groups;
  }

  class EveryProcessor {
    var stepCount: nat
    var things: seq<Entry>
    var lastStatic: seq<Fired>

    ghost predicate Valid()
      reads this
    {
      forall i :: 0 <= i < |lastStatic| ==> lastStatic[i].period != 0
    }

    constructor ()
      ensures Valid()
      ensures stepCount == 1 && things == [] && lastStatic == []
    {
      stepCount := 1;
      things := [];
      lastStatic := [];
    }

    /** A copy with the same counter, entries and record. */
    method Clone() returns (c: EveryProcessor)
      ensures fresh(c)
      ensures c.stepCount == stepCount && c.things == things && c.lastStatic == lastStatic
    {
      c := new EveryProcessor();
      c.stepCount, c.things, c.lastStatic := stepCount, things, lastStatic;
    }

    /** The event step: evaluates every period, applies the events of the
      firing ones to the sound events, and records them for the transition. */
    method ProcessEvents(events: seq<InterpretableEvent>) returns (events': seq<InterpretableEvent>)
      modifies this`things, this`lastStatic
      ensures Valid()
      ensures |things| == |old(things)| && forall i :: 0 <= i < |things| ==>
        things[i] == old(things[i]).(step := AfterEvaluation(old(things[i]).step))
      ensures lastStatic == FiredList(old(things), stepCount)
      ensures events' == ApplyAll(events, FiredOverrides(old(things), stepCount))
    {
      lastStatic := [];
      events' := events;
      ghost var things0 := things;
      assert things0[..0] == [];
      ApplyAllNone(events);
      for i := 0 to |things|
        invariant |things| == |things0|
        invariant forall k :: 0 <= k < i ==> things[k] == things0[k].(step := AfterEvaluation(things0[k].step))
        invariant forall k :: i <= k < |things| ==> things[k] == things0[k]
        invariant lastStatic == FiredList(things0[..i], stepCount)
        invariant events' == ApplyAll(events, FiredOverrides(things0[..i], stepCount))
        invariant Valid()
      {
        assert things0[..i + 1][..i] == things0[..i];
        var step', fired;
        step', events', fired := FireEntry(things[i], stepCount, events');
        ApplyAllTwice(events, FiredOverrides(things0[..i], stepCount), EntryOverrides(things0[i], stepCount));
        things := things[i := things[i].(step := step')];
        lastStatic := lastStatic + fired;
      }
      assert things0[..|things0|] == things0;
      assert forall k :: 0 <= k < |things| ==> things[k].step == AfterEvaluation(things0[k].step);
    }

    /** The generator step: collects the generator-modifier calls of the
      periods that fire, judged on the snapshots, then advances the step
      counter by one. */
    method ProcessGenerator() returns (calls: seq<GenModCall>)
      modifies this`stepCount
      ensures stepCount == old(stepCount) + 1
      ensures calls == DueGenMods(things, old(stepCount))
    {
      calls := [];
      for i := 0 to |things|
        invariant calls == DueGenMods(things[..i], stepCount)
      {
        assert things[..i + 1][..i] == things[..i];
        var curStep := Period(things[i].step.staticVal);
        if Fires(stepCount, curStep) {
          calls := calls + things[i].genMods;
        }
      }
      assert things[..|things|] == things;
      stepCount := stepCount + 1;
    }

    /** The transition step: applies, in filter mode `true`, the recorded
      events of every period that divides the current step count. */
    method ProcessTransition(trans: StaticEvent) returns (trans': StaticEvent)
      ensures trans' == trans.(applied := trans.applied + TransitionOverrides(lastStatic, stepCount))
    {
      trans' := trans;
      for i := 0 to |lastStatic|
        invariant trans' == trans.(applied := trans.applied + TransitionOverrides(lastStatic[..i], stepCount))
      {
        assert lastStatic[..i + 1][..i] == lastStatic[..i];
        var fired := lastStatic[i];
        if Fires(stepCount, fired.period) {
          trans' := ApplyStaticGroups(trans', fired.groups);
        }
      }
      assert lastStatic[..|lastStatic|] == lastStatic;
    }
  }

  /** A period fires exactly on the multiples of itself: with period 4 the
      steps from 1 to 20 that fire are 4, 8, 12, 16 and 20. */
  lemma EveryFourthStep()
    ensures forall n :: 1 <= n <= 20 ==> (Fires(n, Period(4.0)) <==> n in {4, 8, 12, 16, 20})
  {
    assert Period(4.0) == 4;
  }
}
