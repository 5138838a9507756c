/**
 * Any number of relays over one outbox table: claim a batch with its rows locked, publish and mark
 * event by event, commit or roll back. Rows locked by others are skipped.
 */
module OutboxRelay {
  import opened Errors
  import opened Schema
  import opened BankInvariant
  import opened SettlementSteps
  import opened SkipLocked

  type Outbox = map<string, OutboxEvent>

  /** An open batch: its rows, whether each of the first ones was published, and the broker's last, unmarked, answer. */
  datatype Relay = Idle | Batch(claimed: seq<string>, outcomes: seq<bool>, heard: Option<bool>)

  /** Committed rows, relays, and two histories: events a broker accepted, and the committed batches. */
  datatype State = State(events: Outbox, relays: map<nat, Relay>, accepted: set<string>, committed: seq<seq<string>>)

  datatype Act =
    | ClaimBatch(who: nat, ids: seq<string>)
    | Publish(who: nat, ok: bool)
    | Mark(who: nat)
    | CommitBatch(who: nat)
    | Rollback(who: nat)
    | Insert(event: OutboxEvent)

  function PendingIds(events: Outbox): set<string> {
    set id | id in events && events[id].status.EventPending?
  }

  function Locked(relay: Relay): seq<string> {
    if relay.Idle? then [] else relay.claimed
  }

  ghost predicate Unlocked(s: State, who: nat, id: string) {
    forall r :: r in s.relays && r != who ==> id !in Locked(s.relays[r])
  }

  function StatusFor(ok: bool): EventStatus {
    if ok then Published else EventFailed
  }

  /** The rows with the first outcomes written to them. */
  function Marked(events: Outbox, claimed: seq<string>, outcomes: seq<bool>): Outbox
    requires |outcomes| <= |claimed|
  {
    if outcomes == [] then events
    else
      var n := |outcomes| - 1;
      var before := Marked(events, claimed, outcomes[..n]);
      if claimed[n] !in before then before
      else before[claimed[n] := before[claimed[n]].(status := StatusFor(outcomes[n]))]
  }

  ghost predicate Acts(s: State, a: Act, s': State) {
    match a
    case ClaimBatch(r, ids) =>
      && r in s.relays && s.relays[r].Idle? && Distinct(ids)
      && (forall i :: 0 <= i < |ids| ==> ids[i] in PendingIds(s.events) && Unlocked(s, r, ids[i]))
      && s' == s.(relays := s.relays[r := Batch(ids, [], None)])
    case Publish(r, ok) =>
      && r in s.relays && s.relays[r].Batch? && s.relays[r].heard.None?
      && |s.relays[r].outcomes| < |s.relays[r].claimed|
      && var id := s.relays[r].claimed[|s.relays[r].outcomes|];
         s' == s.(relays := s.relays[r := s.relays[r].(heard := Some(ok))],
             accepted := if ok then s.accepted + {id} else s.accepted)
    case Mark(r) =>
      && r in s.relays && s.relays[r].Batch? && s.relays[r].heard.Some?
      && s' == s.(relays := s.relays[r := Batch(s.relays[r].claimed, s.relays[r].outcomes + [s.relays[r].heard.value],
          None)])
    case CommitBatch(r) =>
      && r in s.relays && s.relays[r].Batch? && |s.relays[r].outcomes| == |s.relays[r].claimed|
      && s' == State(Marked(s.events, s.relays[r].claimed, s.relays[r].outcomes), s.relays[r := Idle], s.accepted,
          s.committed + [s.relays[r].claimed])
    case Rollback(r) =>
      r in s.relays && s.relays[r].Batch? && s' == s.(relays := s.relays[r := Idle])
    case Insert(event) =>
      event.id !in s.events && s' == s.(events := s.events[event.id := event.(status := EventPending)])
  }

  ghost predicate Starts(s: State) {
    && (forall id :: id in s.events ==> s.events[id].status.EventPending?)
    && (forall r :: r in s.relays ==> s.relays[r].Idle?) && s.accepted == {} && s.committed == []
  }

  ghost predicate Run(states: seq<State>, acts: seq<Act>) {
    && |states| == |acts| + 1 && Starts(states[0])
    && forall i :: 0 <= i < |acts| ==> Acts(states[i], acts[i], states[i + 1])
  }

  // ---- The invariant ----

  ghost predicate RelayOk(s: State, relay: Relay) {
    relay.Batch? ==>
      && Distinct(relay.claimed) && |relay.outcomes| <= |relay.claimed|
      && (relay.heard.Some? ==> |relay.outcomes| < |relay.claimed|)
      && (forall i :: 0 <= i < |relay.claimed| ==> relay.claimed[i] in PendingIds(s.events))
      && (forall i :: 0 <= i < |relay.outcomes| && relay.outcomes[i] ==> relay.claimed[i] in s.accepted)
      && (relay.heard == Some(true) ==> relay.claimed[|relay.outcomes|] in s.accepted)
  }

  /** No two relays hold the same row. */
  ghost predicate Exclusive(s: State) {
    forall r, r' :: r in s.relays && r' in s.relays && r != r' ==>
      forall i :: 0 <= i < |Locked(s.relays[r])| ==> Locked(s.relays[r])[i] !in Locked(s.relays[r'])
  }

  ghost predicate InBatch(s: State, k: nat, id: string) {
    k < |s.committed| && id in s.committed[k]
  }

  ghost predicate Inv(s: State) {
    && (forall r :: r in s.relays ==> RelayOk(s, s.relays[r])) && Exclusive(s)
    && (forall id :: id in s.events && s.events[id].status.Published? ==> id in s.accepted)
    && (forall k, id :: InBatch(s, k, id) ==> id in s.events && !s.events[id].status.EventPending?)
    && (forall k, k', id :: InBatch(s, k, id) && InBatch(s, k', id) ==> k == k')
  }

  lemma {:induction false} MarkedElsewhere(events: Outbox, claimed: seq<string>, outcomes: seq<bool>, id: string)
    requires |outcomes| <= |claimed| && forall i :: 0 <= i < |outcomes| ==> claimed[i] != id
    ensures id in events ==>
        id in Marked(events, claimed, outcomes) && Marked(events, claimed, outcomes)[id] == events[id]
  {
    if outcomes != [] {
      MarkedElsewhere(events, claimed, outcomes[..|outcomes| - 1], id);
    }
  }

  lemma {:induction false} MarkedAt(events: Outbox, claimed: seq<string>, outcomes: seq<bool>, k: nat)
    requires k < |outcomes| <= |claimed| && Distinct(claimed) && claimed[k] in events
    ensures claimed[k] in Marked(events, claimed, outcomes)
    ensures Marked(events, claimed, outcomes)[claimed[k]] == events[claimed[k]].(status := StatusFor(outcomes[k]))
  {
    var n := |outcomes| - 1;
    if k < n {
      MarkedAt(events, claimed, outcomes[..n], k);
    } else {
      MarkedElsewhere(events, claimed, outcomes[..n], claimed[k]);
    }
  }

  /** What marking does: the claimed rows get their outcomes, and no other row changes. */
  lemma MarkedIs(events: Outbox, claimed: seq<string>, outcomes: seq<bool>)
    requires |outcomes| <= |claimed| && Distinct(claimed) && forall i :: 0 <= i < |claimed| ==> claimed[i] in events
    ensures Marked(events, claimed, outcomes).Keys == events.Keys
    ensures forall i :: 0 <= i < |outcomes| ==>
        Marked(events, claimed, outcomes)[claimed[i]] == events[claimed[i]].(status := StatusFor(outcomes[i]))
    ensures forall id :: id in events && id !in claimed[..|outcomes|] ==>
        Marked(events, claimed, outcomes)[id] == events[id]
  {
    hide Marked;
    MarkedKeys(events, claimed, outcomes);
    forall i | 0 <= i < |outcomes|
      ensures Marked(events, claimed, outcomes)[claimed[i]] == events[claimed[i]].(status := StatusFor(outcomes[i]))
    {
      MarkedAt(events, claimed, outcomes, i);
    }
    forall id | id in events && id !in claimed[..|outcomes|]
      ensures Marked(events, claimed, outcomes)[id] == events[id]
    {
      assert forall i :: 0 <= i < |outcomes| ==> claimed[..|outcomes|][i] == claimed[i];
      MarkedElsewhere(events, claimed, outcomes, id);
    }
  }

  lemma {:induction false} MarkedKeys(events: Outbox, claimed: seq<string>, outcomes: seq<bool>)
    requires |outcomes| <= |claimed|
    ensures Marked(events, claimed, outcomes).Keys == events.Keys
  {
    if outcomes != [] {
      MarkedKeys(events, claimed, outcomes[..|outcomes| - 1]);
    }
  }

  lemma CommitMarks(s: State, r: nat, s': State)
    requires Inv(s) && Acts(s, CommitBatch(r), s')
    ensures var claimed := s.relays[r].claimed;
            && Distinct(claimed) && s'.events.Keys == s.events.Keys
            && (forall id :: id in claimed ==>
                  && id in PendingIds(s.events) && !s'.events[id].status.EventPending?
                  && (s'.events[id].status.Published? ==> id in s.accepted))
            && (forall id :: id in s.events && id !in claimed ==> s'.events[id] == s.events[id])
            && (forall id :: id in s.events ==> SameEvent(s.events[id], s'.events[id]))
  {
    var relay := s.relays[r];
    assert RelayOk(s, relay);
    MarkedIs(s.events, relay.claimed, relay.outcomes);
    assert relay.claimed[..|relay.outcomes|] == relay.claimed;
    forall id | id in relay.claimed
      ensures id in PendingIds(s.events) && !s'.events[id].status.EventPending?
      ensures (s'.events[id].status.Published? ==> id in s.accepted)
      ensures SameEvent(s.events[id], s'.events[id])
    {
      var i :| 0 <= i < |relay.claimed| && relay.claimed[i] == id;
    }
  }

  lemma CommitKeepsInv(s: State, r: nat, s': State)
    requires Inv(s) && Acts(s, CommitBatch(r), s')
    ensures Inv(s')
  {
    CommitMarks(s, r, s');
    hide Marked, Distinct;
    forall other | other in s'.relays
      ensures RelayOk(s', s'.relays[other])
    {
      if other != r {
        assert RelayOk(s, s.relays[other]);
        assert forall i :: 0 <= i < |Locked(s.relays[other])| ==> Locked(s.relays[other])[i] !in Locked(s.relays[r]);
        assert s.relays[other].Batch? ==> Locked(s.relays[other]) == s.relays[other].claimed;
      }
    }
    forall k: nat, id | InBatch(s', k, id)
      ensures id in s'.events && !s'.events[id].status.EventPending?
      ensures k < |s.committed| ==> InBatch(s, k, id) && id !in s.relays[r].claimed
    {
      assert k < |s.committed| ==> InBatch(s, k, id);
    }
  }

  lemma ActKeepsInv(s: State, a: Act, s': State)
    requires Inv(s) && Acts(s, a, s')
    ensures Inv(s')
  {
    if a.CommitBatch? {
      CommitKeepsInv(s, a.who, s');
    } else {
      hide Marked, Distinct;
      RelaysStayOk(s, a, s');
      assert s'.committed == s.committed;
      assert forall k, id :: InBatch(s', k, id) <==> InBatch(s, k, id);
    }
  }

  lemma RelaysStayOk(s: State, a: Act, s': State)
    requires Inv(s) && Acts(s, a, s') && !a.CommitBatch?
    ensures (forall r :: r in s'.relays ==> RelayOk(s', s'.relays[r])) && Exclusive(s')
  {
    hide Marked, Distinct, InBatch;
    forall r | r in s'.relays
      ensures RelayOk(s', s'.relays[r])
    {
      assert r in s.relays && RelayOk(s, s.relays[r]);
    }
    if a.ClaimBatch? {
      ClaimExclusive(s, a.who, a.ids, s');
    }
  }

  lemma ClaimExclusive(s: State, who: nat, ids: seq<string>, s': State)
    requires Exclusive(s) && Acts(s, ClaimBatch(who, ids), s')
    ensures Exclusive(s')
  {
    hide PendingIds, Distinct;
    forall r, r' | r in s'.relays && r' in s'.relays && r != r'
      ensures forall i :: 0 <= i < |Locked(s'.relays[r])| ==> Locked(s'.relays[r])[i] !in Locked(s'.relays[r'])
    {
      if r == who {
        assert forall i :: 0 <= i < |ids| ==> Unlocked(s, who, ids[i]);
      } else if r' == who {
        forall i | 0 <= i < |Locked(s.relays[r])|
          ensures Locked(s.relays[r])[i] !in ids
        {
          assert forall j :: 0 <= j < |ids| ==> Unlocked(s, who, ids[j]);
        }
      }
    }
  }

  lemma {:induction false} RunKeepsInv(states: seq<State>, acts: seq<Act>)
    requires Run(states, acts)
    ensures Inv(states[|acts|])
  {
    if acts != [] {
      hide Starts, Acts, Inv;
      var n := |acts| - 1;
      RunKeepsInv(states[..n + 1], acts[..n]);
      ActKeepsInv(states[n], acts[n], states[n + 1]);
    }
  }

  // ---- Delivery ----

  /** The broker is asked about the next event of some relay's batch, and accepts it. */
  ghost predicate PublishesAt(states: seq<State>, acts: seq<Act>, i: nat, id: string)
    requires |states| == |acts| + 1
  {
    && i < |acts| && acts[i].Publish? && acts[i].ok
    && acts[i].who in states[i].relays
    && var relay := states[i].relays[acts[i].who];
       relay.Batch? && |relay.outcomes| < |relay.claimed| && relay.claimed[|relay.outcomes|] == id
  }

  /** An id is accepted only by a successful publish of that event. */
  lemma AcceptedWasPublished(s: State, a: Act, s': State, id: string)
    requires Acts(s, a, s') && id in s'.accepted && id !in s.accepted
    ensures PublishesAt([s, s'], [a], 0, id)
  {
    hide Marked, PendingIds, Unlocked;
  }

  lemma {:induction false} AcceptedInRun(states: seq<State>, acts: seq<Act>, id: string) returns (i: nat)
    requires Run(states, acts) && id in states[|acts|].accepted
    ensures PublishesAt(states, acts, i, id)
  {
    hide Acts;
    var n := |acts| - 1;
    assert acts != [];
    if id in states[n].accepted {
      i := AcceptedInRun(states[..n + 1], acts[..n], id);
    } else {
      i := n;
      AcceptedWasPublished(states[n], acts[n], states[n + 1], id);
    }
  }

  /** PUBLISHED only after a successful publish of that very event, earlier in the run. */
  lemma PublishedWasAccepted(states: seq<State>, acts: seq<Act>, id: string) returns (i: nat)
    requires Run(states, acts) && id in states[|acts|].events && states[|acts|].events[id].status.Published?
    ensures PublishesAt(states, acts, i, id)
  {
    hide Starts, Acts;
    RunKeepsInv(states, acts);
    i := AcceptedInRun(states, acts, id);
  }

  /** PUBLISHED and FAILED are final, whatever happens next. */
  lemma {:induction false} MarksAreFinal(states: seq<State>, acts: seq<Act>, i: nat, id: string)
    requires Run(states, acts) && i <= |acts|
    requires id in states[i].events && !states[i].events[id].status.EventPending?
    ensures id in states[|acts|].events && states[|acts|].events[id] == states[i].events[id]
    decreases |acts|
  {
    if i < |acts| {
      hide Starts, Acts, Inv;
      var n := |acts| - 1;
      MarksAreFinal(states[..n + 1], acts[..n], i, id);
      RunKeepsInv(states[..n + 1], acts[..n]);
      FinalStays(states[n], acts[n], states[n + 1], id);
    }
  }

  lemma FinalStays(s: State, a: Act, s': State, id: string)
    requires Inv(s) && Acts(s, a, s') && id in s.events && !s.events[id].status.EventPending?
    ensures id in s'.events && s'.events[id] == s.events[id]
  {
    if a.CommitBatch? {
      CommitMarks(s, a.who, s');
    } else {
      hide Marked, Inv;
    }
  }

  /** No event is marked by two committed batches. */
  lemma NoDoubleMark(states: seq<State>, acts: seq<Act>, k: nat, k': nat, id: string)
    requires Run(states, acts) && InBatch(states[|acts|], k, id) && InBatch(states[|acts|], k', id)
    ensures k == k'
  {
    RunKeepsInv(states, acts);
  }

  /**
   * A batch that is rolled back, however far it got, leaves no mark: every event it had claimed is
   * pending, in no committed batch, and locked by nobody, so that any idle relay may claim it.
   */
  lemma RollbackLeavesPending(states: seq<State>, acts: seq<Act>, r: nat, id: string, other: nat)
    requires Run(states, acts) && acts != [] && acts[|acts| - 1] == Rollback(r)
    requires r in states[|acts| - 1].relays && id in Locked(states[|acts| - 1].relays[r])
    ensures var s := states[|acts|];
            && id in PendingIds(s.events) && (forall k: nat :: !InBatch(s, k, id))
            && (forall q :: q in s.relays ==> id !in Locked(s.relays[q]))
            && (other in s.relays && s.relays[other].Idle? ==> exists s' :: Acts(s, ClaimBatch(other, [id]), s'))
  {
    hide Starts, Inv, Acts;
    var n := |acts| - 1;
    RunKeepsInv(states[..n + 1], acts[..n]);
    RollbackFrees(states[n], r, states[n + 1], id);
    if other in states[n + 1].relays && states[n + 1].relays[other].Idle? {
      ClaimableAlone(states[n + 1], other, id);
    }
  }

  lemma RollbackFrees(s: State, r: nat, s': State, id: string)
    requires Inv(s) && Acts(s, Rollback(r), s') && id in Locked(s.relays[r])
    ensures id in PendingIds(s'.events) && (forall k: nat :: !InBatch(s', k, id))
    ensures forall q :: q in s'.relays ==> id !in Locked(s'.relays[q])
  {
    hide Distinct;
    assert RelayOk(s, s.relays[r]);
    var i :| 0 <= i < |Locked(s.relays[r])| && Locked(s.relays[r])[i] == id;
    assert forall k: nat :: InBatch(s', k, id) ==> InBatch(s, k, id);
  }

  lemma ClaimableAlone(s: State, r: nat, id: string)
    requires r in s.relays && s.relays[r].Idle? && id in PendingIds(s.events)
    requires forall q :: q in s.relays ==> id !in Locked(s.relays[q])
    ensures exists s' :: Acts(s, ClaimBatch(r, [id]), s')
  {
    hide PendingIds;
    assert Acts(s, ClaimBatch(r, [id]), s.(relays := s.relays[r := Batch([id], [], None)]));
  }

  /** A committed batch takes exactly its claimed rows out of the backlog. */
  lemma CommitReducesBacklog(s: State, r: nat, s': State)
    requires Inv(s) && Acts(s, CommitBatch(r), s')
    ensures |PendingIds(s'.events)| == |PendingIds(s.events)| - |s.relays[r].claimed|
  {
    CommitMarks(s, r, s');
    var claimed := s.relays[r].claimed;
    var taken := set id | id in claimed;
    DistinctCount(claimed);
    assert PendingIds(s'.events) == PendingIds(s.events) - taken;
    assert taken <= PendingIds(s.events);
  }

  lemma {:induction false} DistinctCount(ids: seq<string>)
    requires Distinct(ids)
    ensures |set id | id in ids| == |ids|
  {
    if ids != [] {
      var before, last := ids[..|ids| - 1], ids[|ids| - 1];
      DistinctCount(before);
      assert ids == before + [last] && last !in before;
      assert (set id | id in ids) == (set id | id in before) + {last};
    }
  }

  function Sizes(batches: seq<seq<string>>): nat {
    if batches == [] then 0 else Sizes(batches[..|batches| - 1]) + |batches[|batches| - 1]|
  }

  ghost predicate NoInserts(acts: seq<Act>) {
    forall i :: 0 <= i < |acts| ==> !acts[i].Insert?
  }

  /** The backlog drains: without new events, what is pending and what the batches took always add up to the start. */
  lemma {:induction false} BacklogIsConserved(states: seq<State>, acts: seq<Act>)
    requires Run(states, acts) && NoInserts(acts)
    ensures |PendingIds(states[|acts|].events)| + Sizes(states[|acts|].committed) == |PendingIds(states[0].events)|
  {
    if acts != [] {
      hide Inv;
      var n := |acts| - 1;
      BacklogIsConserved(states[..n + 1], acts[..n]);
      RunKeepsInv(states[..n + 1], acts[..n]);
      var s, s' := states[n], states[n + 1];
      assert Acts(s, acts[n], s');
      if acts[n].CommitBatch? {
        CommitReducesBacklog(s, acts[n].who, s');
        assert s'.committed[..|s'.committed| - 1] == s.committed;
      }
    }
  }

  /** One idle relay can always take the next pending event out of the backlog, whether the broker accepts it or not. */
  lemma NextEventLeaves(s: State, r: nat, id: string, ok: bool) returns (path: seq<State>)
    requires Inv(s) && r in s.relays && s.relays[r].Idle? && id in PendingIds(s.events) && Unlocked(s, r, id)
    ensures |path| == 5 && path[0] == s
    ensures Acts(path[0], ClaimBatch(r, [id]), path[1]) && Acts(path[1], Publish(r, ok), path[2])
    ensures Acts(path[2], Mark(r), path[3]) && Acts(path[3], CommitBatch(r), path[4])
    ensures Inv(path[4]) && PendingIds(path[4].events) == PendingIds(s.events) - {id}
    ensures path[4].relays == s.relays && id in path[4].events && path[4].events[id].status == StatusFor(ok)
    ensures FinalKept(s, path[4])
  {
    var s1 := s.(relays := s.relays[r := Batch([id], [], None)]);
    var s2 := s1.(relays := s1.relays[r := Batch([id], [], Some(ok))],
        accepted := if ok then s1.accepted + {id} else s1.accepted);
    var s3 := s2.(relays := s2.relays[r := Batch([id], [ok], None)]);
    hide Inv;
    ActKeepsInv(s, ClaimBatch(r, [id]), s1);
    ActKeepsInv(s1, Publish(r, ok), s2);
    assert [] + [ok] == [ok];
    ActKeepsInv(s2, Mark(r), s3);
    var s4 := OneCommits(s3, r, id, ok);
    path := [s, s1, s2, s3, s4];
    assert s4.relays == s.relays;
  }

  lemma OneCommits(s: State, r: nat, id: string, ok: bool) returns (s': State)
    requires Inv(s) && r in s.relays && s.relays[r] == Batch([id], [ok], None) && id in s.events
    ensures Acts(s, CommitBatch(r), s') && Inv(s') && s'.relays == s.relays[r := Idle]
    ensures PendingIds(s'.events) == PendingIds(s.events) - {id}
    ensures id in s'.events && s'.events[id].status == StatusFor(ok)
    ensures id in PendingIds(s.events) ==> FinalKept(s, s')
  {
    s' := State(Marked(s.events, [id], [ok]), s.relays[r := Idle], s.accepted, s.committed + [[id]]);
    hide Inv;
    ActKeepsInv(s, CommitBatch(r), s');
    assert [ok][..0] == [] && Marked(s.events, [id], []) == s.events;
    assert s'.events == s.events[id := s.events[id].(status := StatusFor(ok))];
  }

  /** The pending events that no relay has locked. */
  ghost function Backlog(s: State): set<string> {
    set id | id in PendingIds(s.events) && forall r :: r in s.relays ==> id !in Locked(s.relays[r])
  }

  /** What is no longer pending stays as it is. */
  ghost predicate FinalKept(s: State, s': State) {
    forall id :: id in s.events && !s.events[id].status.EventPending? ==>
        id in s'.events && s'.events[id] == s.events[id]
  }

  /** The backlog, and nothing else, is marked with the broker's answers. */
  ghost predicate Drained(s: State, last: State, broker: string -> bool) {
    && last.relays == s.relays && FinalKept(s, last)
    && PendingIds(last.events) == PendingIds(s.events) - Backlog(s)
    && forall id :: id in Backlog(s) ==> id in last.events && last.events[id].status == StatusFor(broker(id))
  }

  /**
   * So one idle relay can drain the whole backlog, an event at a time, whatever the others hold and
   * whatever the broker answers; each event ends with the status of its answer.
   */
  lemma {:induction false} BacklogDrains(s: State, r: nat, broker: string -> bool) returns (last: State)
    requires Inv(s) && r in s.relays && s.relays[r].Idle?
    ensures Leads(s, last, 4 * |Backlog(s)|) && Inv(last) && Drained(s, last, broker)
    decreases |Backlog(s)|
  {
    hide Inv, Acts, Leads, Drained, FinalKept, PendingIds;
    if Backlog(s) == {} {
      last := s;
      NothingToDrain(s, broker);
    } else {
      var id :| id in Backlog(s);
      var next := OneEventLeaves(s, r, id, broker(id));
      last := BacklogDrains(next, r, broker);
      assert Leads(s, last, 4 * |Backlog(next)| + 4);
      DrainedOneMore(s, next, last, id, broker);
    }
  }

  lemma NothingToDrain(s: State, broker: string -> bool)
    requires Backlog(s) == {}
    ensures Leads(s, s, 0) && Drained(s, s, broker)
  {
  }

  lemma DrainedOneMore(s: State, next: State, last: State, id: string, broker: string -> bool)
    requires next.relays == s.relays && FinalKept(s, next) && id in Backlog(s)
    requires PendingIds(next.events) == PendingIds(s.events) - {id} && Backlog(next) == Backlog(s) - {id}
    requires id in next.events && next.events[id].status == StatusFor(broker(id)) && Drained(next, last, broker)
    ensures Drained(s, last, broker)
  {
    hide Backlog, PendingIds;
    assert !next.events[id].status.EventPending?;
  }

  /** The backlog with one event less, four acts later. */
  lemma OneEventLeaves(s: State, r: nat, id: string, ok: bool) returns (next: State)
    requires Inv(s) && r in s.relays && s.relays[r].Idle? && id in Backlog(s)
    ensures Inv(next) && next.relays == s.relays && FinalKept(s, next)
    ensures PendingIds(next.events) == PendingIds(s.events) - {id} && Backlog(next) == Backlog(s) - {id}
    ensures |Backlog(s)| == |Backlog(next)| + 1
    ensures id in next.events && next.events[id].status == StatusFor(ok)
    ensures forall last, n: nat :: Leads(next, last, n) ==> Leads(s, last, n + 4)
  {
    var path := NextEventLeaves(s, r, id, ok);
    hide Inv, Acts, Leads;
    next := path[4];
    assert Backlog(next) == Backlog(s) - {id};
    forall last, n: nat | Leads(next, last, n)
      ensures Leads(s, last, n + 4)
    {
      OneMore(path[3], CommitBatch(r), path[4], last, n);
      OneMore(path[2], Mark(r), path[3], last, n + 1);
      OneMore(path[1], Publish(r, ok), path[2], last, n + 2);
      OneMore(path[0], ClaimBatch(r, [id]), path[1], last, n + 3);
    }
  }

  lemma OneMore(s: State, a: Act, next: State, last: State, n: nat)
    requires Acts(s, a, next) && Leads(next, last, n)
    ensures Leads(s, last, n + 1)
  {
    hide Acts;
  }

  /** n acts lead from one state to the other. */
  ghost predicate Leads(s: State, last: State, n: nat)
    decreases n
  {
    if n == 0 then s == last
    else exists a, next :: Acts(s, a, next) && Leads(next, last, n - 1)
  }

  // ---- The adapter ----

  /** The number of events published among the outcomes. */
  function Successes(outcomes: seq<bool>): nat {
    if outcomes == [] then 0 else Successes(outcomes[..|outcomes| - 1]) + if outcomes[|outcomes| - 1] then 1 else 0
  }

  method MarkInTx(dbTx: DbTx, id: string, ok: bool)
    modifies dbTx
    ensures id !in old(dbTx.view.outbox) ==> dbTx.view == old(dbTx.view)
    ensures id in old(dbTx.view.outbox) ==>
              dbTx.view == old(dbTx.view).(
                outbox := old(dbTx.view.outbox)[id := old(dbTx.view.outbox[id]).(status := StatusFor(ok))])
  {
    if id in dbTx.view.outbox {
      dbTx.view := dbTx.view.(outbox := dbTx.view.outbox[id := dbTx.view.outbox[id].(status := StatusFor(ok))]);
    }
  }

  /**
   * Claims, publishes and marks events in one database transaction: all marks are committed, or none,
   * and each says what the broker answered for that event. The claim may break, and so may any mark:
   * the batch then ends there, with the events counted that were marked as published so far.
   */
  method ProcessPendingBatch(db: Database, limit: int, locked: string -> bool, broker: OutboxEvent -> bool,
      claims: bool, marks: nat -> bool, fate: Fate)
    returns (processed: nat, r: Result<Unit>, ghost ids: seq<string>, ghost outcomes: seq<bool>)
    modifies db
    ensures if claims then Selected(PendingIds(old(db.tables.outbox)), ids, if limit <= 0 then 10 else limit, locked)
            else ids == []
    ensures |outcomes| <= |ids| && (|outcomes| < |ids| ==> !marks(|outcomes|))
    ensures forall i :: 0 <= i < |outcomes| ==>
              && marks(i) && ids[i] in old(db.tables.outbox)
              && outcomes[i] == broker(old(db.tables.outbox[ids[i]]))
    ensures processed == Successes(outcomes)
    ensures var complete := claims && |outcomes| == |ids|;
            && r == (if complete && fate.Done? then Ok(Unit) else Err(Infrastructure))
            && var marked := old(db.tables).(outbox := Marked(old(db.tables.outbox), ids, outcomes));
               db.tables == if complete then Written(old(db.tables), marked, fate) else old(db.tables)
  {
    if !claims {
      return 0, Err(Infrastructure), [], [];
    }
    var size := if limit <= 0 then 10 else limit;
    var dbTx := new DbTx.Begin(db);
    var events := Select(PendingIds(dbTx.view.outbox), size, locked);
    ids, outcomes := events, [];
    processed := 0;
    for i := 0 to |events|
      invariant |outcomes| == i && processed == Successes(outcomes)
      invariant db.tables == old(db.tables)
      invariant dbTx.view == db.tables.(outbox := Marked(db.tables.outbox, events, outcomes))
      invariant forall j :: 0 <= j < i ==> marks(j) && outcomes[j] == broker(db.tables.outbox[events[j]])
    {
      NotMarkedYet(db.tables.outbox, events, outcomes);
      var ok := broker(dbTx.view.outbox[events[i]]);
      if !marks(i) {
        return processed, Err(Infrastructure), ids, outcomes;
      }
      assert (outcomes + [ok])[..i] == outcomes;
      MarkInTx(dbTx, events[i], ok);
      if ok {
        processed := processed + 1;
      }
      outcomes := outcomes + [ok];
    }
    r := dbTx.Commit(fate);
  }

  lemma NotMarkedYet(events: Outbox, claimed: seq<string>, outcomes: seq<bool>)
    requires Distinct(claimed) && |outcomes| < |claimed| && forall i :: 0 <= i < |claimed| ==>
        claimed[i] in PendingIds(events)
    ensures claimed[|outcomes|] in Marked(events, claimed, outcomes) && claimed[|outcomes|] in events
    ensures Marked(events, claimed, outcomes)[claimed[|outcomes|]] == events[claimed[|outcomes|]]
  {
    MarkedElsewhere(events, claimed, outcomes, claimed[|outcomes|]);
  }
}
