/*
 * The App Engine visit manager (gearshift/visit/aevisit.py): visits are
 * datastore entities named "VISIT:" + key holding an expiry. There is no
 * background thread: a live visit is extended by writing it directly,
 * unless `tools.visit.extend_timeout` is off.
 */
module AeVisit {
  import opened Common
  import opened VisitApi

  const EntityPrefix: Str := "VISIT:"

  /** The datastore key name of a visit. */
  function EntityName(visitKey: Str): (r: Str)
    ensures |r| == |EntityPrefix| + |visitKey| && r[..|EntityPrefix|] == EntityPrefix
    ensures r[|EntityPrefix|..] == visitKey
  {
    EntityPrefix + visitKey
  }

  /** Distinct visit keys name distinct entities. */
  lemma EntityNameInjective(a: Str, b: Str)
    requires EntityName(a) == EntityName(b)
    ensures a == b
  {
    assert a == EntityName(a)[|EntityPrefix|..];
  }

  /** `AppEngineVisitManager`: the entities by key name, each with its expiry. */
  class AeVisitManager {
    const timeout: int
    var entities: map<Str, int>

    /** `__init__`: the timeout, over the datastore's visit entities. */
    constructor (timeout: int, entities: map<Str, int>)
      ensures this.timeout == timeout && this.entities == entities
    {
      this.timeout := timeout;
      this.entities := entities;
    }

    /** `lookup_visit` followed by the expiry test: the visit exists and has not expired. */
    predicate Live(visitKey: Str, now: int)
      reads this
    {
      EntityName(visitKey) in entities && entities[EntityName(visitKey)] >= now
    }

    /** `new_visit_with_key`: the entity is put, replacing one with the same name. */
    method NewVisitWithKey(visitKey: Str, now: int) returns (v: Visit)
      modifies this
      ensures v == Visit(visitKey, true)
      ensures entities == old(entities)[EntityName(visitKey) := now + timeout]
    {
      entities := entities[EntityName(visitKey) := now + timeout];
      return Visit(visitKey, true);
    }

    /**
     * `visit_for_key`: None for a missing or expired visit; a live one is
     * returned as not new and, when extending is on, its expiry is written as
     * `timeout` from now. `extendTimeout` is `tools.visit.extend_timeout` as
     * configured at the time of the call, None when unset (extending on).
     */
    method VisitForKey(visitKey: Str, now: int, extendTimeout: Option<bool>) returns (v: Option<Visit>)
      modifies this
      ensures !old(Live(visitKey, now)) ==> v.None? && entities == old(entities)
      ensures old(Live(visitKey, now)) ==> v == Some(Visit(visitKey, false))
      ensures old(Live(visitKey, now)) && extendTimeout.GetOr(true) ==>
                entities == old(entities)[EntityName(visitKey) := now + timeout]
      ensures old(Live(visitKey, now)) && !extendTimeout.GetOr(true) ==> entities == old(entities)
    {
      var name := EntityName(visitKey);
      if name !in entities || entities[name] < now {
        return None;
      }
      if extendTimeout.GetOr(true) {
        entities := entities[name := now + timeout];
      }
      return Some(Visit(visitKey, false));
    }
  }

  /**
   * With extending on and a non-negative timeout, a visit found live stays
   * live for a full timeout after each lookup, and no other visit changes.
   */
  lemma ExtendedVisitLive(entities: map<Str, int>, visitKey: Str, other: Str, now: int, timeout: int, t: int)
    requires now <= t <= now + timeout
    requires other != visitKey
    ensures var e := entities[EntityName(visitKey) := now + timeout];
            EntityName(visitKey) in e && e[EntityName(visitKey)] >= t &&
            (EntityName(other) in entities ==> e[EntityName(other)] == entities[EntityName(other)])
  {
    if EntityName(other) == EntityName(visitKey) {
      EntityNameInjective(other, visitKey);
    }
  }
}
