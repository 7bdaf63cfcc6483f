/** No effect happens under another catalogue identity than the call was recorded with. */
module TurnCatalogue {
  import opened Basics
  import opened TurnTypes
  import opened TurnInvariants
  import opened TurnEvolution
  import opened TurnEffects
  import opened TurnMachine
  import opened TurnBatchLaws
  import opened TurnBatches

  /** The step lets the call through: unbegun before, under a valid receipt, on an executable batch, and under the
      identity it was recorded with. */
  ghost predicate LetsThrough(db: Db, op: Op, c: CallKey) {
    && op.BeginOp? && Holds(db, op.token, op.scope, c) && c in db.calls && c.run in db.batches
    && db.calls[c].exec.Unbegun? && Executable(db.batches[c.run], op.now)
    && Recorded(db.calls[c], op.catalogueId, op.catalogueVersion)
  }

  lemma BegunAs(db: Db, x: CallKey, catalogueId: Id, catalogueVersion: Id, now: real, r: Tx<bool>, c: CallKey)
    requires x in db.calls && x.run in db.batches && BeginsAs(db, x, catalogueId, catalogueVersion, now, r)
    requires c in r.db.calls && Begun(r.db.calls[c].exec) && !(c in db.calls && Begun(db.calls[c].exec))
    ensures c == x && db.calls[x].exec.Unbegun? && Executable(db.batches[x.run], now)
    ensures Recorded(db.calls[x], catalogueId, catalogueVersion)
  {
    hide Executable, Recorded, BeginsAs;
    BeginsCalls(db, x, catalogueId, catalogueVersion, now, r);
  }

  lemma BeginsCalls(db: Db, x: CallKey, catalogueId: Id, catalogueVersion: Id, now: real, r: Tx<bool>)
    requires x in db.calls && x.run in db.batches && BeginsAs(db, x, catalogueId, catalogueVersion, now, r)
    ensures || r.db.calls == db.calls
            || (exists kind :: !Effect(kind) && r.db.calls == db.calls[x := db.calls[x].(exec := Done(kind, NONE))])
            || (db.calls[x].exec.Unbegun? && Executable(db.batches[x.run], now)
                && Recorded(db.calls[x], catalogueId, catalogueVersion)
                && r.db.calls == db.calls[x := db.calls[x].(exec := Executing)])
  {
    hide Executable, Recorded, Revoked, Settled;
    WrittenCalls(db, x, CatalogueUnverifiable);
    WrittenCalls(db, x, CatalogueChanged);
    assert !Effect(CatalogueUnverifiable) && !Effect(CatalogueChanged);
  }

  lemma WrittenCalls(db: Db, x: CallKey, kind: Kind)
    requires x in db.calls && x.run in db.batches
    ensures Revoked(db, x.run).calls == db.calls
    ensures Settled(db, x, kind, NONE).calls == db.calls[x := db.calls[x].(exec := Done(kind, NONE))]
  {
    hide OthersWait;
  }

  /** A begin after which a call is begun that was not before. */
  lemma BegunNow(db: Db, op: Op, c: CallKey)
    requires Inv(db) && op.BeginOp?
    requires var after := BeginCall(db, op.token, op.catalogueId, op.catalogueVersion, op.scope, op.now).db;
             c in after.calls && Begun(after.calls[c].exec) && !(c in db.calls && Begun(db.calls[c].exec))
    ensures LetsThrough(db, op, c)
  {
    hide Inv, Holds, Refusal, BeginCall, BeginsAs, Executable, Recorded, Begun;
    BeginLaw(db, op.token, op.catalogueId, op.catalogueVersion, op.scope, op.now);
    var r := BeginCall(db, op.token, op.catalogueId, op.catalogueVersion, op.scope, op.now);
    if x :| Holds(db, op.token, op.scope, x) {
      BegunAs(db, x, op.catalogueId, op.catalogueVersion, op.now, r, c);
    }
  }

  lemma BeginStep(db: Db, op: Op)
    requires op.BeginOp?
    ensures Step(db, op) == BeginCall(db, op.token, op.catalogueId, op.catalogueVersion, op.scope, op.now).db
  {
  }

  lemma SameIdentity(a: Db, b: Db, c: CallKey)
    requires Inv(b) && Evolves(a, b) && c in a.calls && c in b.calls
    ensures b.calls[c].catalogueId == a.calls[c].catalogueId && b.calls[c].catalogueVersion == a.calls[c].catalogueVersion
  {
    Placed(b, c);
    Advanced(a, b, c);
  }

  lemma Placed(db: Db, c: CallKey)
    requires Inv(db) && c in db.calls
    ensures c.run.context in db.contexts
  {
  }

  lemma Advanced(a: Db, b: Db, c: CallKey)
    requires CallsAdvance(a.calls, b.calls, a.batches, b.batches, a.admissions, b.contexts)
    requires c in a.calls && c.run.context in b.contexts
    ensures c in b.calls && CallAdvances(a.calls[c], b.calls[c])
  {
  }

  /** The step let the call through under the identity that this row records. */
  ghost predicate LetAs(db: Db, op: Op, c: CallKey, row: Call) {
    && LetsThrough(db, op, c) && c in db.calls
    && db.calls[c].catalogueId == row.catalogueId && db.calls[c].catalogueVersion == row.catalogueVersion
  }

  lemma SameLet(db: Db, op: Op, c: CallKey, row: Call, later: Call)
    requires LetAs(db, op, c, row) && later.catalogueId == row.catalogueId && later.catalogueVersion == row.catalogueVersion
    ensures LetAs(db, op, c, later)
  {
  }

  /** Every call found executing or with an effect outcome was let through once, under a valid receipt of its batch and
      the very catalogue identity it is recorded with. */
  lemma {:induction false} EffectsAreRecorded(states: seq<Db>, ops: seq<Op>, j: nat, c: CallKey)
    requires IsRun(states, ops) && j < |states| && c in states[j].calls && Begun(states[j].calls[c].exec)
    ensures exists i :: 0 <= i < j && LetAs(states[i], ops[i], c, states[j].calls[c])
  {
    hide IsRun, Inv, Evolves, Step, LetAs, Begun;
    RunLength(states, ops);
    if j == 0 {
      NoneAtFirst(states, ops, c);
    } else {
      var db, op := states[j - 1], ops[j - 1];
      OneStep(states, ops, j - 1);
      if c in db.calls && Begun(db.calls[c].exec) {
        EffectsAreRecorded(states, ops, j - 1, c);
        SameIdentity(db, states[j], c);
        var i :| 0 <= i < j - 1 && LetAs(states[i], ops[i], c, db.calls[c]);
        SameLet(states[i], ops[i], c, db.calls[c], states[j].calls[c]);
      } else {
        FirstBegin(db, op, c, states[j]);
      }
    }
  }

  lemma FirstBegin(db: Db, op: Op, c: CallKey, after: Db)
    requires Inv(db) && Inv(after) && Evolves(db, after) && after == Step(db, op)
    requires c in after.calls && Begun(after.calls[c].exec) && !(c in db.calls && Begun(db.calls[c].exec))
    ensures LetAs(db, op, c, after.calls[c])
  {
    hide Inv, Evolves, Step, Begun, BeginCall, BeganBy, LetsThrough;
    StepExec(db, op, c);
    BeginOnly(db, op, c);
    BeginStep(db, op);
    BegunNow(db, op, c);
    ThroughIs(db, op, c);
    SameIdentity(db, after, c);
  }

  lemma RunLength(states: seq<Db>, ops: seq<Op>)
    requires IsRun(states, ops)
    ensures |states| == |ops| + 1
  {
    hide Step, Inv;
  }

  lemma NoneAtFirst(states: seq<Db>, ops: seq<Op>, c: CallKey)
    requires IsRun(states, ops)
    ensures c !in states[0].calls
  {
  }

  lemma OneStep(states: seq<Db>, ops: seq<Op>, i: nat)
    requires IsRun(states, ops) && i < |ops|
    ensures |states| == |ops| + 1 && states[i + 1] == Step(states[i], ops[i])
    ensures Inv(states[i]) && Inv(states[i + 1]) && Evolves(states[i], states[i + 1])
  {
    hide Step, Init, Inv, Evolves;
    Forward(states, ops, i, i + 1);
  }

  lemma BeginOnly(db: Db, op: Op, c: CallKey)
    requires BeganBy(db, op, c)
    ensures op.BeginOp?
  {
  }

  lemma ThroughIs(db: Db, op: Op, c: CallKey)
    requires LetsThrough(db, op, c)
    ensures c in db.calls
  {
  }
}
