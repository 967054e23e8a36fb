/** The global parameters shared by the session: a map from a fixed set of
    keys to configuration values. */
module Globals {
  import opened Wrappers
  import opened Parameter
  import opened Events

  datatype GlobalKey = LifemodelGlobalResources | GlobalTimeModifier | GlobalLatency | DefaultDuration

  /** The duration a generator falls back to when none is set. */
  const DEFAULT_DURATION: real := 200.0

  class GlobalParameters {
    var entries: map<GlobalKey, ConfigParameter>

    /** The default duration, when set, is a number. */
    ghost predicate Valid()
      reads this
    {
      DefaultDuration in entries ==> entries[DefaultDuration].Numeric?
    }

    constructor ()
      ensures Valid() && entries == map[]
    {
      entries := map[];
    }

    /** The default duration, set to 200 first when it is missing. */
    method DefaultDurationOrInsert() returns (d: real)
      requires Valid()
      modifies this
      ensures Valid()
      ensures DefaultDuration in old(entries) ==> d == old(entries)[DefaultDuration].n && entries == old(entries)
      ensures DefaultDuration !in old(entries) ==>
        d == DEFAULT_DURATION && entries == old(entries)[DefaultDuration := Numeric(DEFAULT_DURATION)]
    {
      if DefaultDuration !in entries {
        entries := entries[DefaultDuration := Numeric(DEFAULT_DURATION)];
      }
      d := entries[DefaultDuration].n;
    }

    /** Sets the global time modifier, replacing any earlier one. */
    method SetGlobalTmod(p: Parameter)
      requires Valid()
      modifies this
      ensures Valid()
      ensures entries == old(entries)[GlobalTimeModifier := Dynamic(p)]
    {
      entries := entries[GlobalTimeModifier := Dynamic(p)];
    }

    /** Sets the global latency, replacing any earlier one. */
    method SetGlobalLatency(p: Parameter)
      requires Valid()
      modifies this
      ensures Valid()
      ensures entries == old(entries)[GlobalLatency := Dynamic(p)]
    {
      entries := entries[GlobalLatency := Dynamic(p)];
    }

    /** Sets the default duration, replacing any earlier one. */
    method SetDefaultDuration(n: real)
      requires Valid()
      modifies this
      ensures Valid()
      ensures entries == old(entries)[DefaultDuration := Numeric(n)]
    {
      entries := entries[DefaultDuration := Numeric(n)];
    }

    /** Sets the global resources of the lifemodel processors, replacing any
        earlier value. */
    method SetGlobalLifemodelResources(v: real)
      requires Valid()
      modifies this
      ensures Valid()
      ensures entries == old(entries)[LifemodelGlobalResources := Numeric(v)]
    {
      entries := entries[LifemodelGlobalResources := Numeric(v)];
    }
  }
}
