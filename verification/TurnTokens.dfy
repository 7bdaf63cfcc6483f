/** Keyring and derived credentials (core/_a2a_turn_batch.py, token scheme). */
module TurnTokens {
  import opened Basics
  import opened TurnTypes

  lemma {:induction false} LatestExists(s: set<nat>)
    requires s != {}
    ensures exists v :: v in s && forall w :: w in s ==> w <= v
  {
    var x :| x in s;
    if s != {x} {
      LatestExists(s - {x});
      var v :| v in s - {x} && forall w :: w in s - {x} ==> w <= v;
      var top := if x <= v then v else x;
      assert top in s;
      forall w | w in s ensures w <= top {
        if w != x { assert w in s - {x}; }
      }
    }
  }

  ghost function Latest(keys: map<nat, Id>): (v: nat)
    requires keys.Keys != {}
    ensures v in keys && forall w :: w in keys ==> w <= v
  {
    LatestExists(keys.Keys);
    var v :| v in keys.Keys && forall w :: w in keys.Keys ==> w <= v;
    v
  }

  /** An empty keyring mints one key above every version ever used. */
  function KeyringFor(keyring: Keyring, secret: Id): (r: Keyring)
    ensures r.keys.Keys != {}
  {
    if keyring.keys.Keys == {} then
      var version := keyring.highWater + 1;
      assert version in map[version := secret];
      Keyring(map[version := secret], version)
    else keyring
  }

  function EnsureKey(db: Db): Db {
    db.(keyring := KeyringFor(db.keyring, db.supply),
        supply := if db.keyring.keys.Keys == {} then db.supply + 1 else db.supply)
  }

  function Derive(keys: map<nat, Id>, version: nat, handle: Handle, usage: Usage,
                  identity: Identity, generation: nat): Token
    requires version in keys
  {
    Token(version, handle, Hmac(keys[version], handle, usage, identity, generation))
  }

  datatype Verdict = Valid | Stale | Invalid

  /** How a generation-bound credential is answered: only a token that was valid for an
      earlier claim generation is stale, everything else is uniformly invalid. */
  ghost function Judge(keys: map<nat, Id>, version: nat, handle: Handle, usage: Usage,
                       identity: Identity, generation: nat, token: Token): Verdict
    requires version in keys
  {
    if token == Derive(keys, version, handle, usage, identity, generation) then Valid
    else if exists g: nat :: g < generation
                             && token == Derive(keys, version, handle, usage, identity, g) then Stale
    else Invalid
  }

  /** The downward search over earlier generations. */
  method VerifyGenerationBound(keys: map<nat, Id>, version: nat, handle: Handle, usage: Usage,
                               identity: Identity, generation: nat, token: Token)
    returns (verdict: Verdict)
    requires version in keys
    ensures verdict == Judge(keys, version, handle, usage, identity, generation, token)
  {
    if token == Derive(keys, version, handle, usage, identity, generation) {
      return Valid;
    }
    var stale := generation;
    while stale > 0
      invariant stale <= generation
      invariant forall g: nat :: stale <= g <= generation
                  ==> token != Derive(keys, version, handle, usage, identity, g)
    {
      stale := stale - 1;
      if token == Derive(keys, version, handle, usage, identity, stale) {
        return Stale;
      }
    }
    return Invalid;
  }

  /** Keys neither current nor referenced by a batch or a run handle. */
  ghost predicate Prunable(db: Db, version: nat) {
    && version in db.keyring.keys
    && version != Latest(db.keyring.keys)
    && (forall k :: k in db.batches ==> db.batches[k].keyVersion != version)
    && (forall k :: k in db.runTokens ==> db.runTokens[k].keyVersion != version)
  }

  ghost function PruneKeys(db: Db): Tx<nat> {
    var kept := map v | v in db.keyring.keys && !Prunable(db, v) :: db.keyring.keys[v];
    Tx(db.(keyring := db.keyring.(keys := kept)), Ok(|db.keyring.keys.Keys - kept.Keys|))
  }
}
