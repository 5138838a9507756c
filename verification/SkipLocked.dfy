/** FOR UPDATE SKIP LOCKED with a LIMIT, as settlements and outbox events are claimed. */
module SkipLocked {

  ghost predicate Distinct(ids: seq<string>) {
    forall i, j :: 0 <= i < j < |ids| ==> ids[i] != ids[j]
  }

  /** Pending rows that nobody else has locked: as many as the limit allows, each once. */
  ghost predicate Selected(pending: set<string>, ids: seq<string>, limit: nat, locked: string -> bool) {
    && Distinct(ids) && |ids| <= limit
    && (forall i :: 0 <= i < |ids| ==> ids[i] in pending && !locked(ids[i]))
    && (|ids| < limit ==> forall id :: id in pending && !locked(id) ==> id in ids)
  }

  method Select(pending: set<string>, limit: nat, locked: string -> bool) returns (ids: seq<string>)
    ensures Selected(pending, ids, limit, locked)
  {
    ids := [];
    var rest := pending;
    while rest != {} && |ids| < limit
      invariant rest <= pending && Distinct(ids) && |ids| <= limit
      invariant forall i :: 0 <= i < |ids| ==> ids[i] !in rest && ids[i] in pending && !locked(ids[i])
      invariant forall id :: id in pending && !locked(id) ==> id in ids || id in rest
      decreases rest
    {
      var id :| id in rest;
      rest := rest - {id};
      if !locked(id) {
        ids := ids + [id];
      }
    }
  }
}
