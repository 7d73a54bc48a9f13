/*
 * The SQLObject visit manager (gearshift/visit/sovisit.py): the visit table
 * keyed by visit key (unique), new visits, the lookup that extends a live
 * visit through the manager's queue, and the batch update of expiries the
 * background thread runs.
 *
 * Times are whole seconds and `now` is a parameter. The table holds each
 * visit's expiry; its `created` column is not modelled.
 */
module SoVisit {
  import opened Common
  import opened VisitApi

  /** A visit is live at `now` when it exists and has not expired before `now`. */
  predicate Live(expiries: map<Str, int>, key: Str, now: int)
  {
    key in expiries && expiries[key] >= now
  }

  /** The table after the UPDATE statements of a batch: existing rows take the batch's expiry. */
  function Flush(table: map<Str, int>, batch: map<Str, int>): (r: map<Str, int>)
    ensures r.Keys == table.Keys
    ensures forall k :: k in table && k in batch ==> r[k] == batch[k]
    ensures forall k :: k in table && k !in batch ==> r[k] == table[k]
  {
    map k | k in table :: if k in batch then batch[k] else table[k]
  }

  /** `SqlObjectVisitManager`. */
  class SoVisitManager {
    const timeout: int
    const queue: VisitQueue
    var expiries: map<Str, int>

    constructor (timeout: int, expiries: map<Str, int>)
      ensures this.timeout == timeout && this.expiries == expiries
      ensures fresh(queue) && queue.queue == map[]
    {
      this.timeout := timeout;
      this.expiries := expiries;
      queue := new VisitQueue();
    }

    /**
     * `new_visit_with_key`: a row expiring `timeout` from now; the key is an
     * alternate id, so inserting an existing key fails.
     */
    method NewVisitWithKey(visitKey: Str, now: int) returns (r: Result<Visit>)
      modifies this`expiries
      ensures visitKey in old(expiries) ==> r == Err(IntegrityError) && expiries == old(expiries)
      ensures visitKey !in old(expiries) ==>
                r == Ok(Visit(visitKey, true)) && expiries == old(expiries)[visitKey := now + timeout]
    {
      if visitKey in expiries {
        return Err(IntegrityError);
      }
      expiries := expiries[visitKey := now + timeout];
      return Ok(Visit(visitKey, true));
    }

    /**
     * `visit_for_key`: None for a missing or expired visit; a live one is
     * returned as not new and its extension to `timeout` from now is queued,
     * not written.
     */
    method VisitForKey(visitKey: Str, now: int) returns (v: Option<Visit>)
      modifies queue
      ensures !Live(expiries, visitKey, now) ==> v.None? && queue.queue == old(queue.queue)
      ensures Live(expiries, visitKey, now) ==>
                v == Some(Visit(visitKey, false)) && queue.queue == old(queue.queue)[visitKey := now + timeout]
    {
      if visitKey !in expiries || expiries[visitKey] < now {
        return None;
      }
      queue.UpdateVisit(visitKey, now + timeout);
      return Some(Visit(visitKey, false));
    }

    /**
     * `update_queued_visits`: nothing without a database hub; otherwise every
     * existing row named in the batch takes the batch's expiry, all in one
     * transaction: a failing statement rolls everything back and re-raises.
     */
    method UpdateQueuedVisits(batch: map<Str, int>, hubPresent: bool, dbFailure: Option<Exc>)
      returns (r: Result<()>)
      modifies this`expiries
      ensures !hubPresent ==> r.Ok? && expiries == old(expiries)
      ensures hubPresent && dbFailure.Some? ==> r == Err(dbFailure.value) && expiries == old(expiries)
      ensures hubPresent && dbFailure.None? ==> r.Ok? && expiries == Flush(old(expiries), batch)
    {
      if !hubPresent {
        return Ok(());
      }
      if dbFailure.Some? {
        return Err(dbFailure.value);
      }
      var keys := batch.Keys;
      var updated := expiries;
      while keys != {}
        invariant keys <= batch.Keys
        invariant updated.Keys == expiries.Keys
        invariant forall k :: k in expiries && k in batch && k !in keys ==> updated[k] == batch[k]
        invariant forall k :: k in expiries && (k !in batch || k in keys) ==> updated[k] == expiries[k]
        decreases |keys|
      {
        var k :| k in keys;
        if k in updated {
          updated := updated[k := batch[k]];
        }
        keys := keys - {k};
      }
      expiries := updated;
      return Ok(());
    }

    /**
     * One turn of the background thread: the queue is drained and a
     * non-empty copy flushed to the table.
     */
    method RunOnce(hubPresent: bool, dbFailure: Option<Exc>) returns (r: Result<()>)
      modifies queue, this`expiries
      ensures queue.queue == map[]
      ensures old(queue.queue) == map[] ==> r.Ok? && expiries == old(expiries)
      ensures old(queue.queue) != map[] && hubPresent && dbFailure.None? ==>
                r.Ok? && expiries == Flush(old(expiries), old(queue.queue))
      ensures r.Err? ==> expiries == old(expiries)
    {
      var batch := queue.Drain();
      if batch.None? {
        return Ok(());
      }
      r := UpdateQueuedVisits(batch.value, hubPresent, dbFailure);
    }
  }

  /** A new visit stays live for the whole timeout. */
  lemma NewVisitLive(expiries: map<Str, int>, key: Str, now: int, timeout: int, t: int)
    requires now <= t <= now + timeout
    ensures Live(expiries[key := now + timeout], key, t)
  {
  }

  /**
   * A live visit found at `now` and flushed afterwards is live until
   * `timeout` from `now`, and its lookup changed no other visit.
   */
  lemma {:induction false} ExtensionApplied(expiries: map<Str, int>, key: Str, now: int, timeout: int,
                                            pending: map<Str, int>, t: int)
    requires Live(expiries, key, now)
    requires now <= t <= now + timeout
    ensures Live(Flush(expiries, pending[key := now + timeout]), key, t)
    ensures forall k :: k in expiries && k != key && k !in pending ==>
              Flush(expiries, pending[key := now + timeout])[k] == expiries[k]
  {
    var f := Flush(expiries, pending[key := now + timeout]);
    assert f[key] == now + timeout;
  }

  /** Flushing never creates or deletes a visit, and flushing twice is flushing once. */
  lemma FlushIdempotent(table: map<Str, int>, batch: map<Str, int>)
    ensures Flush(Flush(table, batch), batch) == Flush(table, batch)
  {
  }
}
