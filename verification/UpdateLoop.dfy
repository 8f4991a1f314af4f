/** holdset.Update, run against an object that others change meanwhile. */
module UpdateLoop {
  import opened Options
  import opened HoldSet
  import opened Admission
  import opened CompareAndSwap

  datatype Outcome =
    | Persisted(change: Change)
    | LeftAlone(change: Change)
    | ObjectAbsent
    | ConflictExhausted

  class Cell {
    var store: Option<Object>
    var clock: nat
    ghost const init: Option<Object>
    ghost var log: seq<Event>

    ghost predicate Valid()
      reads this
    {
      && Fresh(init)
      && store == Replay(init, log)
      && (store.Some? ==> store.value.version == |log|)
    }

    /** The server assigns one more version than it ever assigned. */
    ghost predicate Ticking()
      reads this
    {
      Valid() && clock == |log|
    }

    constructor (initial: Option<Object>)
      requires Fresh(initial)
      ensures Ticking() && store == initial && log == []
    {
      store, init, log, clock := initial, initial, [], 0;
    }

    /** One event committed by another client, if the object allows it. */
    method Interfere(e: Event)
      requires Ticking()
      modifies this
      ensures Ticking()
      ensures old(log) <= log
      ensures log == old(log) ==> store == old(store)
    {
      var enabled := if e.Commit? then Write(store, e.request).Some? else (e.Create? <==> store.None?);
      if enabled {
        ReplaySnoc(init, log, e);
        store := Exec(store, e, clock + 1);
        log := log + [e];
        clock := clock + 1;
      }
    }

    method InterfereAll(es: seq<Event>)
      requires Ticking()
      modifies this
      ensures Ticking()
      ensures old(log) <= log
      ensures log == old(log) ==> store == old(store)
    {
      for i := 0 to |es|
        invariant Ticking() && old(log) <= log
        invariant log == old(log) ==> store == old(store)
      {
        Interfere(es[i]);
      }
    }

    /** The guarded save of a decided change. */
    method Save(r: Request, snapshot: Option<Object>, change: Change) returns (saved: bool)
      requires Ticking() && Decide(r.operation, snapshot, r.now) == Some(change) && change.changed
      requires SaveSucceeds(r.target, snapshot, store) ==> snapshot == Visible(r.target, store)
      modifies this
      ensures Ticking()
      ensures saved <==> SaveSucceeds(r.target, snapshot, old(store))
      ensures !saved ==> log == old(log)
      ensures saved ==>
        && log == old(log) + [Commit(r)]
        && Decide(r.operation, Visible(r.target, At(init, log, |log| - 1)), r.now) == Some(change)
        && store.Some? && store.value.state == change.state
    {
      if !SaveSucceeds(r.target, snapshot, store) {
        return false;
      }
      AtEnd(init, log);
      ReplaySnoc(init, log, Commit(r));
      assert Write(store, r) == Some(change.state);
      store := Some(Stored(store, clock + 1, change.state));
      log := log + [Commit(r)];
      clock := clock + 1;
      assert log[..|log| - 1] == old(log);
      saved := true;
    }

    /**
     Update: reload and re-decide until the guarded save succeeds. others[i] is
     what other clients commit between this client's i-th load and save.
     A persisted result is this request executed atomically as the last event;
     an unchanged one is what the change decides at a position inside the call;
     an absent object was absent at one; an exhausted call met a foreign event in
     every attempt.
     */
    method Update(r: Request, attempts: nat, others: seq<seq<Event>>) returns (outcome: Outcome)
      requires Ticking()
      modifies this
      ensures Ticking() && old(log) <= log
      ensures outcome.Persisted? ==>
        && |old(log)| < |log| && log[|log| - 1] == Commit(r)
        && Decide(r.operation, Visible(r.target, At(init, log, |log| - 1)), r.now) == Some(outcome.change)
        && outcome.change.changed
        && store.Some? && store.value.state == outcome.change.state
      ensures outcome.LeftAlone? ==>
        && !outcome.change.changed
        && exists at :: |old(log)| <= at <= |log|
             && Decide(r.operation, Visible(r.target, At(init, log, at)), r.now) == Some(outcome.change)
      ensures outcome.ObjectAbsent? ==>
        exists at :: |old(log)| <= at <= |log| && Visible(r.target, At(init, log, at)).None?
      ensures outcome.ConflictExhausted? ==> |log| >= |old(log)| + attempts
    {
      var tried := 0;
      while tried < attempts
        invariant tried <= attempts
        invariant Ticking() && old(log) <= log
        invariant |log| >= |old(log)| + tried
      {
        var loaded := store;
        ghost var at := |log|;
        AtEnd(init, log);
        var snapshot := Visible(r.target, loaded);
        var decision := Decide(r.operation, snapshot, r.now);
        if decision.None? {
          assert Visible(r.target, At(init, log, at)).None?;
          return ObjectAbsent;
        }
        if !decision.value.changed {
          assert |old(log)| <= at <= |log|
            && Decide(r.operation, Visible(r.target, At(init, log, at)), r.now) == decision;
          return LeftAlone(decision.value);
        }
        if snapshot.None? && r.target.AnnotationStore? {
          assert Visible(r.target, At(init, log, at)).None?;
          return ObjectAbsent;
        }
        if tried < |others| {
          InterfereAll(others[tried]);
        }
        assert SaveSucceeds(r.target, snapshot, store) ==> snapshot == Visible(r.target, store);
        var saved := Save(r, snapshot, decision.value);
        if saved {
          return Persisted(decision.value);
        }
        tried := tried + 1;
      }
      return ConflictExhausted;
    }
  }
}
