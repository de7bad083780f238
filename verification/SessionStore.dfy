/** The in-memory session store and the client code that runs staged turns on it.

    Each method of StagedTurn is one critical section, written with the store's own operations and
    proved to be exactly the protocol step Lease.Act. */
module SessionStore {
  import opened Lease

  datatype Outcome<+T> = Ok(value: T) | NotFound | Busy | Cancelled

  class InMemorySessionStore {
    var byID: map<string, Session>
    /** Ids of the sessions whose mutex is taken. */
    var locked: set<string>

    constructor ()
      ensures byID == map[] && locked == {}
    {
      byID := map[];
      locked := {};
    }

    method AppendUserMessage(id: string, message: Message) returns (r: Outcome<nat>)
      modifies this
      ensures locked == old(locked)
      ensures id !in old(byID) ==> r == NotFound && byID == old(byID)
      ensures id in old(byID) && id in old(locked) ==> r == Busy && byID == old(byID)
      ensures id in old(byID) && id !in old(locked) ==>
                && byID == old(byID)[id := AppendedByUser(old(byID)[id], message)]
                && r == Ok(byID[id].revision)
    {
      if id !in byID { return NotFound; }
      if id in locked { return Busy; }
      var session := byID[id];
      session := session.(messages := session.messages + [message]);
      session := session.(revision := session.revision + 1);
      byID := byID[id := session];
      return Ok(session.revision);
    }

    /** One attempt of the TryLock loop; Busy means the caller sleeps and tries again. */
    method LoadForExecution(id: string, cancelled: bool) returns (r: Outcome<Session>)
      modifies this
      ensures byID == old(byID)
      ensures r.Ok? <==> id in byID && !cancelled && id !in old(locked)
      ensures r.Ok? ==> r.value == byID[id] && locked == old(locked) + {id}
      ensures !r.Ok? ==> locked == old(locked)
    {
      if id !in byID { return NotFound; }
      if cancelled { return Cancelled; }
      if id in locked { return Busy; }
      locked := locked + {id};
      return Ok(byID[id]);
    }

    method Unlock(id: string)
      modifies this`locked
      ensures locked == old(locked) - {id}
    {
      locked := locked - {id};
    }

    /** Replaces the stored session by the caller's clone, one revision on. The store does not check
        that the caller holds the lock. */
    method Save(id: string, session: Session) returns (r: Outcome<Session>)
      modifies this`byID
      ensures id !in old(byID) ==> r == NotFound && byID == old(byID)
      ensures id in old(byID) ==>
                && r == Ok(Saved(old(byID)[id], session))
                && byID == old(byID)[id := r.value]
    {
      if id !in byID { return NotFound; }
      var current := byID[id];
      var cloned := session.(revision := current.revision + 1);
      byID := byID[id := cloned];
      return Ok(cloned);
    }
  }

  class StagedTurn {
    const store: InMemorySessionStore
    const id: string
    /** The lease and the turn's locals. The lease is open exactly when HasLease(turn). */
    var turn: Turn

    constructor (store: InMemorySessionStore, id: string)
      ensures this.store == store && this.id == id && turn == Idle
    {
      this.store := store;
      this.id := id;
      turn := Idle;
    }

    ghost predicate Valid()
      reads this, store
    {
      && id in store.byID
      && (HasLease(turn) ==> id in store.locked)
      && TurnOk(store.byID[id], turn)
    }

    /** This client took action `a` as one step of the protocol and touched nothing else. */
    ghost predicate Performed(byID: map<string, Session>, locked: set<string>, t: Turn, a: Action)
      requires id in byID && Ready(t, a)
      reads this, store
    {
      var r := Act(byID[id], t, a);
      && store.byID == byID[id := r.stored]
      && turn == r.turn
      && store.locked == if HasLease(r.turn) then locked + {id} else if HasLease(t) then locked - {id} else locked
    }

    method Close()
      requires Valid()
      modifies this, store
      ensures Valid() && Performed(old(store.byID), old(store.locked), old(turn), Abandon)
    {
      if HasLease(turn) {
        store.Unlock(id);
      }
      turn := Idle;
    }

    method Load(cancelled: bool) returns (ok: bool)
      requires Valid() && turn.Idle?
      modifies this, store
      ensures Valid() && ok == (!cancelled && id !in old(store.locked))
      ensures ok ==> Performed(old(store.byID), old(store.locked), old(turn), Acquire)
      ensures !ok ==> turn == old(turn) && store.byID == old(store.byID) && store.locked == old(store.locked)
    {
      var r := store.LoadForExecution(id, cancelled);
      ok := r.Ok?;
      if ok {
        turn := Held(r.value, false);
      }
    }

    /** sessionLease.reload after the lock was let go: the turn goes on with a fresh clone. */
    method Reload(cancelled: bool) returns (ok: bool)
      requires Valid() && Ready(turn, Action.Reload)
      modifies this, store
      ensures Valid() && ok == (!cancelled && id !in old(store.locked))
      ensures ok ==> Performed(old(store.byID), old(store.locked), old(turn), Action.Reload)
      ensures !ok ==> turn == old(turn) && store.byID == old(store.byID) && store.locked == old(store.locked)
    {
      var r := store.LoadForExecution(id, cancelled);
      ok := r.Ok?;
      if ok {
        match turn {
          case Building(seed) => turn := Rechecking(seed, r.value);
          case Calling(seed) => turn := Answering(seed, r.value);
          case RunningTools(pending) => turn := Delivering(pending, r.value);
        }
      }
    }

    method PrepareTurnSeed(steer: seq<Message>)
      requires Valid() && Ready(turn, Begin(steer))
      modifies this, store
      ensures Valid() && Performed(old(store.byID), old(store.locked), old(turn), Begin(steer))
      ensures store.byID[id].messages == old(store.byID[id]).messages + steer
      ensures store.byID == old(store.byID) <==> steer == []
      ensures turn == Building(store.byID[id])
    {
      var session := turn.clone;
      if steer != [] {
        session := session.(messages := session.messages + steer);
        var saved := store.Save(id, session);
        session := saved.value;
      }
      store.Unlock(id);
      turn := Building(session);
    }

    method CommitCandidate(cancelled: bool, needsCompaction: bool, compacted: seq<Message>, context: string)
      returns (conflicted: bool)
      requires Valid() && turn.Rechecking?
      modifies this, store
      ensures Valid()
      ensures var recheck := Recheck(cancelled, needsCompaction, compacted, context);
              Performed(old(store.byID), old(store.locked), old(turn), recheck)
      ensures conflicted <==> !turn.Calling?
    {
      var seed, before := turn.seed, turn.clone;
      conflicted := cancelled || before.revision != seed.revision;
      if !conflicted && needsCompaction {
        var session := before.(messages := compacted, context := context);
        if session != before {
          var _ := store.Save(id, session);
          conflicted := true;
        }
      }
      store.Unlock(id);
      turn := if conflicted then Idle else Calling(seed);
    }

    method FinishTurn(cancelled: bool, reply: Reply) returns (retry: bool)
      requires Valid() && turn.Answering?
      modifies this, store
      ensures Valid() && Performed(old(store.byID), old(store.locked), old(turn), Answer(cancelled, reply))
      ensures retry <==> cancelled || old(store.byID[id]).revision != old(turn).seed.revision
      ensures retry ==> store.byID == old(store.byID)
      ensures !retry ==> store.byID[id].messages == old(store.byID[id]).messages + Committed(reply)
    {
      var seed, session := turn.seed, turn.clone;
      retry := cancelled || session.revision != seed.revision;
      if retry || reply.Nothing? {
        turn := Held(session, false);
        return;
      }
      var message := if reply.Text? then reply.text else reply.calls;
      session := session.(messages := session.messages + [message]);
      var saved := store.Save(id, session);
      if reply.Text? {
        turn := Held(saved.value, false);
      } else {
        store.Unlock(id);
        turn := RunningTools(Pending(message, saved.value));
      }
    }

    method CommitToolResults(cancelled: bool, results: seq<Message>) returns (retry: bool)
      requires Valid() && turn.Delivering?
      modifies this, store
      ensures Valid() && Performed(old(store.byID), old(store.locked), old(turn), Deliver(cancelled, results))
      ensures retry <==> cancelled || old(store.byID[id]).revision != old(turn).pending.base.revision
      ensures retry ==> store.byID == old(store.byID)
      ensures !retry ==> store.byID[id].messages == old(store.byID[id]).messages + results
    {
      var pending, session := turn.pending, turn.clone;
      retry := cancelled || session.revision != pending.base.revision;
      if retry {
        turn := Held(session, false);
        return;
      }
      var i := 0;
      while i < |results|
        invariant i <= |results|
        invariant session == Append(turn.clone, results[..i])
        invariant turn == old(turn) && store.byID == old(store.byID) && store.locked == old(store.locked)
      {
        session := session.(messages := session.messages + [results[i]]);
        i := i + 1;
      }
      assert results[..i] == results;
      var saved := store.Save(id, session);
      turn := Held(saved.value, false);
    }

    method MergeBatchMessages(messages: seq<Message>) returns (retry: bool)
      requires Valid() && turn.Rechecking?
      modifies this, store
      ensures Valid() && Performed(old(store.byID), old(store.locked), old(turn), MergeBatch(messages))
      ensures retry <==> old(store.byID[id]).revision != old(turn).seed.revision
      ensures retry ==> store.byID == old(store.byID)
      ensures !retry ==> store.byID[id].messages == old(store.byID[id]).messages + messages
    {
      var seed, session := turn.seed, turn.clone;
      retry := session.revision != seed.revision;
      if !retry && messages != [] {
        session := session.(messages := session.messages + messages);
        var saved := store.Save(id, session);
        session := saved.value;
      }
      turn := Held(session, false);
    }

    /** A run that waited for approval takes the lease again and checks the revision it stored. */
    method ResumePendingTools(waiting: bool, cancelled: bool) returns (ok: bool)
      requires Valid() && turn.Parked?
      modifies this, store
      ensures Valid() && ok == (!cancelled && id !in old(store.locked))
      ensures ok ==> Performed(old(store.byID), old(store.locked), old(turn), Resume(waiting))
      ensures !ok ==> turn == old(turn) && store.byID == old(store.byID) && store.locked == old(store.locked)
    {
      var r := store.LoadForExecution(id, cancelled);
      ok := r.Ok?;
      if !ok { return; }
      var pending := turn.pending;
      if r.value.revision != pending.base.revision {
        turn := Held(r.value, false);
        return;
      }
      store.Unlock(id);
      if !waiting {
        turn := RunningTools(pending);
      }
    }
  }
}
