/** Fences, writers, leases and batches over whole runs. */
module TurnSafety {
  import opened Basics
  import opened TurnTypes
  import opened TurnThreads
  import opened TurnBatches
  import opened TurnAdmissions
  import opened TurnInvariants
  import opened TurnEvolution
  import opened TurnMachine

  // ---- fences ----

  lemma FenceLater(a: Db, b: Db, k: RunKey)
    requires Rooted(a.contexts, a.admissions, a.fences, a.runs) && Rooted(b.contexts, b.admissions, b.fences, b.runs)
    requires Fenced(b.admissions, b.fences) && TurnsAdvance(a.admissions, b.admissions, b.contexts)
    requires k in a.admissions
    ensures CheckFence(b, k.context, a.admissions[k].fence) <==> k in b.admissions && Active(b.admissions[k])
  {
  }

  /** The token given to a run passes the fence check exactly while that run is active. */
  lemma FenceExact(states: seq<Db>, ops: seq<Op>, i: nat, j: nat, k: RunKey)
    requires IsRun(states, ops) && i <= j < |states| && k in states[i].admissions
    ensures CheckFence(states[j], k.context, states[i].admissions[k].fence)
            <==> k in states[j].admissions && Active(states[j].admissions[k])
  {
    hide IsRun, Rooted, Fenced, TurnsAdvance, CheckFence;
    Forward(states, ops, i, j);
    FenceLater(states[i], states[j], k);
  }

  lemma FenceAbove(a: Db, b: Db, h: RunKey, k: RunKey)
    requires Rooted(a.contexts, a.admissions, a.fences, a.runs) && Fenced(a.admissions, a.fences)
    requires FencesFresh(a.fences, a.admissions, b.admissions)
    requires h in a.admissions && k in b.admissions && k !in a.admissions && h.context == k.context
    ensures a.admissions[h].fence < b.admissions[k].fence
  {
  }

  /** Tokens strictly increase from one admission of a context to the next. */
  lemma FencesIncrease(states: seq<Db>, ops: seq<Op>, i: nat, j: nat, h: RunKey, k: RunKey)
    requires IsRun(states, ops) && i <= j < |states|
    requires h in states[i].admissions && k in states[j].admissions && k !in states[i].admissions
    requires h.context == k.context
    ensures states[i].admissions[h].fence < states[j].admissions[k].fence
  {
    hide IsRun, Rooted, Fenced, FencesFresh;
    Forward(states, ops, i, j);
    FenceAbove(states[i], states[j], h, k);
  }

  lemma FenceLost(a: Db, b: Db, d: Db, c: ContextId, token: nat)
    requires Rooted(a.contexts, a.admissions, a.fences, a.runs) && Rooted(d.contexts, d.admissions, d.fences, d.runs)
    requires ContextsAge(a.contexts, b.contexts, b.threads) && ThreadsGrow(b.threads, d.threads)
    requires FencesGrow(a.fences, b.fences, b.contexts) && FencesGrow(b.fences, d.fences, d.contexts)
    requires CurrentOnly(d.threads, d.contexts)
    requires CheckFence(a, c, token) && !CheckFence(b, c, token)
    ensures !CheckFence(d, c, token)
  {
  }

  /** A token that stopped being current never is again, rotations included. */
  lemma FenceNeverReturns(states: seq<Db>, ops: seq<Op>, i: nat, j: nat, l: nat, c: ContextId, token: nat)
    requires IsRun(states, ops) && i <= j <= l < |states|
    requires CheckFence(states[i], c, token) && !CheckFence(states[j], c, token)
    ensures !CheckFence(states[l], c, token)
  {
    hide IsRun, Rooted, ContextsAge, ThreadsGrow, FencesGrow, CurrentOnly, CheckFence;
    Forward(states, ops, i, j);
    Forward(states, ops, j, l);
    FenceLost(states[i], states[j], states[l], c, token);
  }

  // ---- one writer per thread ----

  /** At most one context, one active turn and one unconsumed batch; never both at once. */
  ghost predicate OneWriter(db: Db, t: ThreadKey) {
    && (forall c, d :: c in db.contexts && d in db.contexts && c.thread == t && d.thread == t ==> c == d)
    && (forall j, k | j in db.admissions && k in db.admissions && j.context.thread == t && k.context.thread == t
                      && Active(db.admissions[j]) && Active(db.admissions[k]) :: j == k)
    && (forall j, k | j in db.batches && k in db.batches && j.context.thread == t && k.context.thread == t
                      && Unconsumed(db.batches[j]) && Unconsumed(db.batches[k]) :: j == k)
    && (forall j, k | j in db.batches && k in db.admissions && j.context.thread == t && k.context.thread == t
                      && Unconsumed(db.batches[j]) :: !Active(db.admissions[k]))
  }

  lemma OneWriterOf(db: Db, t: ThreadKey)
    requires CurrentOnly(db.threads, db.contexts) && Rooted(db.contexts, db.admissions, db.fences, db.runs)
    requires Fenced(db.admissions, db.fences) && OneBatch(db.batches, db.admissions)
    requires Earned(db.batches, db.admissions)
    ensures OneWriter(db, t)
  {
  }

  lemma OneWriterAlways(states: seq<Db>, ops: seq<Op>, i: nat, t: ThreadKey)
    requires IsRun(states, ops) && i < |states|
    ensures OneWriter(states[i], t)
  {
    hide IsRun, Rooted, CurrentOnly, Fenced, OneBatch, Earned, OneWriter;
    Reachable(states, ops, i);
    OneWriterOf(states[i], t);
  }

  // ---- idempotent admission ----

  lemma AdmittedBy(db: Db, t: ThreadKey, generation: int, run: Id, bodyHash: Id, payload: Id, parent: Id, now: real)
    ensures var r := AcquireTurn(db, t, generation, run, bodyHash, payload, parent, now);
            r.result.Ok? ==>
              && generation >= 0
              && (var k := RunKey(ContextId(t, generation), run);
                  k in r.db.admissions && r.db.admissions[k] == r.result.value.admission
                  && r.db.admissions[k].bodyHash == bodyHash)
  {
    hide ConsumeBatch, BindParent;
  }

  /** The admission survives for as long as its thread generation holds. */
  lemma AdmissionHeld(a: Db, b: Db, k: RunKey)
    requires Rooted(a.contexts, a.admissions, a.fences, a.runs) && k in a.admissions
    requires ContextsAge(a.contexts, b.contexts, b.threads) && TurnsAdvance(a.admissions, b.admissions, b.contexts)
    requires Holds(b, k.context.thread, k.context.generation)
    ensures k.context in b.contexts && k in b.admissions && TurnAdvances(a.admissions[k], b.admissions[k])
  {
  }

  /** Replaying an acquire with the same body answers the one admission there is and changes
      nothing at all; another body is refused; a rotated thread refuses both. */
  lemma AcquireReplays(states: seq<Db>, ops: seq<Op>, i: nat, j: nat, bodyHash: Id, payload: Id, parent: Id, now: real)
    requires IsRun(states, ops) && i < j < |states| && ops[i].AcquireOp? && bodyHash != NONE
    requires var o := ops[i];
             AcquireTurn(states[i], o.thread, o.expected, o.id, o.bodyHash, o.payload, o.parent, o.now).result.Ok?
    ensures var o := ops[i];
            var k := RunKey(ContextId(o.thread, o.expected), o.id);
            var first := AcquireTurn(states[i], o.thread, o.expected, o.id, o.bodyHash, o.payload, o.parent, o.now);
            var again := AcquireTurn(states[j], o.thread, o.expected, o.id, bodyHash, payload, parent, now);
            && again.db == states[j]
            && (if !Holds(states[j], o.thread, o.expected) then again.result.Fail? && again.result.error.ThreadRotated?
                else if bodyHash != o.bodyHash then again.result == Fail(IdempotencyConflict)
                else k in states[j].admissions && again.result == Ok(Acquired(states[j].admissions[k], true))
                     && TurnAdvances(first.result.value.admission, states[j].admissions[k]))
  {
    hide Rooted, ContextsAge, TurnsAdvance, BindParent, Admit;
    var o := ops[i];
    AdmittedBy(states[i], o.thread, o.expected, o.id, o.bodyHash, o.payload, o.parent, o.now);
    assert states[i + 1] == AcquireTurn(states[i], o.thread, o.expected, o.id, o.bodyHash, o.payload, o.parent, o.now).db;
    hide IsRun;
    Forward(states, ops, i + 1, j);
    if Holds(states[j], o.thread, o.expected) {
      AdmissionHeld(states[i + 1], states[j], RunKey(ContextId(o.thread, o.expected), o.id));
    }
  }

  // ---- leaving a turn ----

  /** What holds of a turn that left: its journal ended with the same outcome, and its calls are
      pending only if it succeeded. */
  ghost predicate Agreed(db: Db, k: RunKey) {
    && k in db.admissions && !Active(db.admissions[k])
    && k in db.runs && db.runs[k].ended && db.runs[k].outcome == db.admissions[k].outcome
    && (HasEmitted(db.calls, k) ==> db.admissions[k].outcome.Success?)
    && (k in db.batches ==> db.admissions[k].outcome.Success?)
  }

  lemma AgreedLater(a: Db, b: Db, k: RunKey)
    requires Rooted(b.contexts, b.admissions, b.fences, b.runs) && Exited(b.admissions, b.runs)
    requires Ledgered(b.calls, b.admissions) && Earned(b.batches, b.admissions)
    requires Rooted(a.contexts, a.admissions, a.fences, a.runs) && TurnsAdvance(a.admissions, b.admissions, b.contexts)
    requires k in a.admissions && !Active(a.admissions[k]) && k.context in b.contexts
    ensures Agreed(b, k) && b.admissions[k] == a.admissions[k]
  {
  }

  /** A turn that left the active states has a terminal journal with the same outcome, for good. */
  lemma ExitsAgree(states: seq<Db>, ops: seq<Op>, i: nat, j: nat, k: RunKey)
    requires IsRun(states, ops) && i <= j < |states|
    requires k in states[i].admissions && !Active(states[i].admissions[k]) && k.context in states[j].contexts
    ensures Agreed(states[j], k) && states[j].admissions[k] == states[i].admissions[k]
  {
    hide IsRun, Rooted, Exited, Ledgered, Earned, TurnsAdvance, Agreed;
    Forward(states, ops, i, j);
    AgreedLater(states[i], states[j], k);
  }

  lemma OwnerKept(a: Db, b: Db, k: RunKey)
    requires Rooted(a.contexts, a.admissions, a.fences, a.runs) && Rooted(b.contexts, b.admissions, b.fences, b.runs)
    requires TurnsAdvance(a.admissions, b.admissions, b.contexts) && k in a.admissions && k in b.admissions
    ensures TurnAdvances(a.admissions[k], b.admissions[k])
  {
    assert k.context in b.contexts;
  }

  /** At most one worker ever holds a run's lease, over the run's whole life. */
  lemma OneLeaseOwner(states: seq<Db>, ops: seq<Op>, i: nat, j: nat, k: RunKey, v: Id, w: Id)
    requires IsRun(states, ops) && i <= j < |states|
    requires HoldsLease(states[i], k, v) && HoldsLease(states[j], k, w)
    ensures v == w
  {
    hide IsRun, Rooted, TurnsAdvance;
    Forward(states, ops, i, j);
    OwnerKept(states[i], states[j], k);
  }

  lemma Adopted(a: Db, b: Db, k: RunKey, v: Id, before: real)
    requires a == AdoptRun(b, k, v, before).db && AdoptRun(b, k, v, before).result.Ok?
    ensures HoldsLease(a, k, v)
  {
    assert k in b.admissions && v != NONE;
    if b.admissions[k].state.Running? { assert a == b; }
  }

  lemma AdoptedAgain(db: Db, k: RunKey, v: Id, a: Admission, worker: Id, now: real)
    requires k in db.admissions && a.state.Running? && a.leaseOwner == v && TurnAdvances(a, db.admissions[k])
    requires AdoptRun(db, k, worker, now).result.Ok?
    ensures worker == v && AdoptRun(db, k, worker, now) == Tx(db, Ok(db.admissions[k].fence))
  {
  }

  /** Of all workers that ever try to adopt a run, one succeeds. */
  lemma OneAdopter(states: seq<Db>, ops: seq<Op>, i: nat, j: nat, worker: Id, now: real)
    requires IsRun(states, ops) && i < j < |states| && ops[i].AdoptOp?
    requires AdoptRun(states[i], ops[i].run, ops[i].worker, ops[i].now).result.Ok?
    requires AdoptRun(states[j], ops[i].run, worker, now).result.Ok?
    ensures worker == ops[i].worker
    ensures AdoptRun(states[j], ops[i].run, worker, now) == Tx(states[j], Ok(states[j].admissions[ops[i].run].fence))
  {
    hide Rooted, TurnsAdvance, AdoptRun, TurnAdvances;
    var k := ops[i].run;
    assert states[i + 1] == AdoptRun(states[i], k, ops[i].worker, ops[i].now).db;
    Adopted(states[i + 1], states[i], k, ops[i].worker, ops[i].now);
    hide IsRun;
    Forward(states, ops, i + 1, j);
    AdoptKnown(states[j], k, worker, now);
    OwnerKept(states[i + 1], states[j], k);
    AdoptedAgain(states[j], k, ops[i].worker, states[i + 1].admissions[k], worker, now);
  }

  lemma AdoptKnown(db: Db, k: RunKey, worker: Id, now: real)
    requires AdoptRun(db, k, worker, now).result.Ok?
    ensures k in db.admissions
  {
  }

  // ---- batches ----

  /** A batch is open exactly while a call of it is unbegun or executing; a consumed batch has
      exactly one follow-up, the admission that names its run as parent. */
  ghost predicate BatchLaw(db: Db, k: RunKey)
    requires k in db.batches
  {
    && (Open(db.batches[k]) <==> SomeUndecided(db.calls, k))
    && (db.batches[k].state.BatchConsumed? <==> HasChild(db.admissions, k))
    && (forall i, j | i in db.admissions && j in db.admissions && i.context == k.context && j.context == k.context
                      && db.admissions[i].parent == k.run && db.admissions[j].parent == k.run :: i == j)
  }

  lemma BatchLawOf(db: Db, k: RunKey)
    requires Progressed(db.batches, db.calls) && Parented(db.admissions, db.batches) && k in db.batches
    requires Earned(db.batches, db.admissions)
    ensures BatchLaw(db, k)
  {
    assert k.run != NONE;
    if HasChild(db.admissions, k) {
      var c :| c in db.admissions && c.context == k.context && db.admissions[c].parent == k.run;
      assert RunKey(c.context, db.admissions[c].parent) == k;
    }
    forall i, j | i in db.admissions && j in db.admissions && i.context == k.context && j.context == k.context
                  && db.admissions[i].parent == k.run && db.admissions[j].parent == k.run
      ensures i == j
    {
      assert RunKey(i.context, db.admissions[i].parent) == k;
    }
  }

  lemma BatchLawAlways(states: seq<Db>, ops: seq<Op>, i: nat, k: RunKey)
    requires IsRun(states, ops) && i < |states| && k in states[i].batches
    ensures BatchLaw(states[i], k)
  {
    hide IsRun, Progressed, Parented, Earned, BatchLaw;
    Reachable(states, ops, i);
    BatchLawOf(states[i], k);
  }

  lemma BatchLater(a: Db, b: Db, k: RunKey)
    requires InContext(a) && k in a.batches && k.context in b.contexts
    requires BatchesAdvance(a.batches, b.batches, b.expired, b.contexts)
    ensures k in b.batches && BatchAdvances(a.batches[k], b.batches[k], b.expired)
  {
  }

  lemma CallLater(a: Db, b: Db, c: CallKey)
    requires InContext(a) && c in a.calls && c.run.context in b.contexts
    requires CallsAdvance(a.calls, b.calls, a.batches, b.batches, a.admissions, b.contexts)
    ensures c in b.calls && CallAdvances(a.calls[c], b.calls[c])
  {
  }

  /** A closed batch never reopens, and consumed is never left. */
  lemma ClosedForGood(states: seq<Db>, ops: seq<Op>, i: nat, j: nat, k: RunKey)
    requires IsRun(states, ops) && i <= j < |states| && k in states[i].batches && k.context in states[j].contexts
    ensures k in states[j].batches
    ensures !Open(states[i].batches[k]) ==> !Open(states[j].batches[k])
    ensures states[i].batches[k].state.BatchConsumed? ==> states[j].batches[k] == states[i].batches[k]
  {
    hide IsRun, BatchesAdvance, InContext;
    Forward(states, ops, i, j);
    Placed(states[i]);
    BatchLater(states[i], states[j], k);
  }

  /** A decided call keeps its outcome and payload; a call that left `emitted` never comes back. */
  lemma OutcomesFinal(states: seq<Db>, ops: seq<Op>, i: nat, j: nat, c: CallKey)
    requires IsRun(states, ops) && i <= j < |states| && c in states[i].calls && c.run.context in states[j].contexts
    ensures c in states[j].calls
    ensures states[i].calls[c].exec.Done? ==> states[j].calls[c].exec == states[i].calls[c].exec
    ensures !states[i].calls[c].exec.Unbegun? ==> !states[j].calls[c].exec.Unbegun?
    ensures !states[i].calls[c].state.Emitted? ==> states[j].calls[c].state == states[i].calls[c].state
  {
    hide IsRun, CallsAdvance, InContext;
    Forward(states, ops, i, j);
    Placed(states[i]);
    CallLater(states[i], states[j], c);
  }
}
