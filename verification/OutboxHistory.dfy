/** Where the marks in the outbox come from. */
module OutboxHistory {
  import opened Schema
  import opened OutboxRelay

  /** The broker is asked about this event, the next of some relay's batch, and gives this answer. */
  ghost predicate AnswersAt(states: seq<State>, acts: seq<Act>, i: nat, id: string, ok: bool)
    requires |states| == |acts| + 1
  {
    && i < |acts| && acts[i].Publish? && acts[i].ok == ok && acts[i].who in states[i].relays
    && var relay := states[i].relays[acts[i].who];
       relay.Batch? && |relay.outcomes| < |relay.claimed| && relay.claimed[|relay.outcomes|] == id
  }

  ghost predicate Answered(states: seq<State>, acts: seq<Act>, id: string, ok: bool)
    requires |states| == |acts| + 1
  {
    exists i :: AnswersAt(states, acts, i, id, ok)
  }

  /** Outcomes, answers and marks all go back to an answer about that very event. */
  ghost predicate Founded(states: seq<State>, acts: seq<Act>, relay: Relay)
    requires |states| == |acts| + 1
  {
    relay.Batch? && |relay.outcomes| <= |relay.claimed| ==>
      && (forall i :: 0 <= i < |relay.outcomes| ==> Answered(states, acts, relay.claimed[i], relay.outcomes[i]))
      && (relay.heard.Some? && |relay.outcomes| < |relay.claimed| ==>
            Answered(states, acts, relay.claimed[|relay.outcomes|], relay.heard.value))
  }

  ghost predicate MarkFounded(states: seq<State>, acts: seq<Act>, id: string)
    requires |states| == |acts| + 1
  {
    var events := states[|acts|].events;
    id in events && !events[id].status.EventPending? ==> Answered(states, acts, id, events[id].status.Published?)
  }

  lemma AnsweredStays(states: seq<State>, acts: seq<Act>, id: string, ok: bool)
    requires |states| == |acts| + 1 && acts != [] && Answered(states[..|acts|], acts[..|acts| - 1], id, ok)
    ensures Answered(states, acts, id, ok)
  {
    var i :| AnswersAt(states[..|acts|], acts[..|acts| - 1], i, id, ok);
    assert AnswersAt(states, acts, i, id, ok);
  }

  lemma FoundedStays(states: seq<State>, acts: seq<Act>, relay: Relay)
    requires |states| == |acts| + 1 && acts != [] && Founded(states[..|acts|], acts[..|acts| - 1], relay)
    ensures Founded(states, acts, relay)
  {
    hide Answered;
    if relay.Batch? && |relay.outcomes| <= |relay.claimed| {
      forall i | 0 <= i < |relay.outcomes|
        ensures Answered(states, acts, relay.claimed[i], relay.outcomes[i])
      {
        AnsweredStays(states, acts, relay.claimed[i], relay.outcomes[i]);
      }
      if relay.heard.Some? && |relay.outcomes| < |relay.claimed| {
        AnsweredStays(states, acts, relay.claimed[|relay.outcomes|], relay.heard.value);
      }
    }
  }

  lemma RelayStaysFounded(states: seq<State>, acts: seq<Act>, r: nat)
    requires Run(states, acts) && acts != [] && Inv(states[|acts| - 1])
    requires r in states[|acts| - 1].relays && r in states[|acts|].relays
    requires Founded(states[..|acts|], acts[..|acts| - 1], states[|acts| - 1].relays[r])
    ensures Founded(states, acts, states[|acts|].relays[r])
  {
    var n := |acts| - 1;
    var s, a, s' := states[n], acts[n], states[n + 1];
    assert Acts(s, a, s') && RelayOk(s, s.relays[r]);
    hide Run, Marked, PendingIds, Unlocked, Inv, Answered;
    FoundedStays(states, acts, s.relays[r]);
    if a.Publish? && a.who == r {
      var id := s.relays[r].claimed[|s.relays[r].outcomes|];
      assert AnswersAt(states, acts, n, id, a.ok);
      AnsweredNow(states, acts, n, id, a.ok);
    }
  }

  lemma AnsweredNow(states: seq<State>, acts: seq<Act>, i: nat, id: string, ok: bool)
    requires |states| == |acts| + 1 && AnswersAt(states, acts, i, id, ok)
    ensures Answered(states, acts, id, ok)
  {
  }

  /** A committed mark is the outcome recorded for its row; every other row is as it was. */
  lemma CommittedRow(s: State, r: nat, s': State, id: string) returns (i: nat)
    requires Inv(s) && Acts(s, CommitBatch(r), s') && id in s'.events && !s'.events[id].status.EventPending?
    ensures var relay := s.relays[r];
            && relay.Batch? && |relay.outcomes| == |relay.claimed|
            && (id in relay.claimed ==>
                  i < |relay.claimed| && relay.claimed[i] == id && s'.events[id].status.Published? == relay.outcomes[i])
            && (id !in relay.claimed ==> id in s.events && s'.events[id] == s.events[id])
  {
    var relay := s.relays[r];
    assert RelayOk(s, relay);
    MarkedIs(s.events, relay.claimed, relay.outcomes);
    hide Marked, Inv, Exclusive;
    assert relay.claimed[..|relay.outcomes|] == relay.claimed;
    i := 0;
    if id in relay.claimed {
      i :| 0 <= i < |relay.claimed| && relay.claimed[i] == id;
    }
  }

  lemma CommitFounds(states: seq<State>, acts: seq<Act>, r: nat, id: string)
    requires Run(states, acts) && acts != [] && Inv(states[|acts| - 1]) && acts[|acts| - 1] == CommitBatch(r)
    requires r in states[|acts| - 1].relays
    requires Founded(states[..|acts|], acts[..|acts| - 1], states[|acts| - 1].relays[r])
    requires MarkFounded(states[..|acts|], acts[..|acts| - 1], id)
    ensures MarkFounded(states, acts, id)
  {
    var n := |acts| - 1;
    var s, s' := states[n], states[n + 1];
    assert Acts(s, acts[n], s') by { hide Acts; }
    hide Run, Acts, Inv, Answered;
    if id in s'.events && !s'.events[id].status.EventPending? {
      var i := CommittedRow(s, r, s', id);
      if id in s.relays[r].claimed {
        AnsweredStays(states, acts, id, s.relays[r].outcomes[i]);
      } else {
        AnsweredStays(states, acts, id, s.events[id].status.Published?);
      }
    }
  }

  lemma MarkStaysFounded(states: seq<State>, acts: seq<Act>, id: string)
    requires Run(states, acts) && acts != [] && !acts[|acts| - 1].CommitBatch?
    requires MarkFounded(states[..|acts|], acts[..|acts| - 1], id)
    ensures MarkFounded(states, acts, id)
  {
    var n := |acts| - 1;
    assert Acts(states[n], acts[n], states[n + 1]);
    hide Run, Marked, Unlocked, PendingIds, Answered;
    var events := states[n + 1].events;
    if id in events && !events[id].status.EventPending? {
      AnsweredStays(states, acts, id, events[id].status.Published?);
    }
  }

  lemma {:induction false} RunIsFounded(states: seq<State>, acts: seq<Act>)
    requires Run(states, acts)
    ensures forall r :: r in states[|acts|].relays ==> Founded(states, acts, states[|acts|].relays[r])
    ensures forall id :: MarkFounded(states, acts, id)
  {
    if acts == [] {
      hide Answered;
    } else {
      var n := |acts| - 1;
      assert Acts(states[n], acts[n], states[n + 1]);
      hide Starts, Founded, MarkFounded, Marked, PendingIds, Unlocked, Inv;
      RunIsFounded(states[..n + 1], acts[..n]);
      RunKeepsInv(states[..n + 1], acts[..n]);
      var relays := states[n + 1].relays;
      forall r | r in relays
        ensures Founded(states, acts, relays[r])
      {
        RelayStaysFounded(states, acts, r);
      }
      forall id
        ensures MarkFounded(states, acts, id)
      {
        if acts[n].CommitBatch? {
          CommitFounds(states, acts, acts[n].who, id);
        } else {
          MarkStaysFounded(states, acts, id);
        }
      }
    }
  }

  /**
   * Marks tell the broker's answers: in every run, an event is marked PUBLISHED only after the broker accepted
   * that very event, and FAILED only after it refused it.
   */
  lemma MarksTellAnswers(states: seq<State>, acts: seq<Act>, id: string) returns (i: nat)
    requires Run(states, acts) && id in states[|acts|].events && !states[|acts|].events[id].status.EventPending?
    ensures states[|acts|].events[id].status == Published ==> AnswersAt(states, acts, i, id, true)
    ensures states[|acts|].events[id].status == EventFailed ==> AnswersAt(states, acts, i, id, false)
  {
    RunIsFounded(states, acts);
    hide Run;
    assert MarkFounded(states, acts, id);
    i :| AnswersAt(states, acts, i, id, states[|acts|].events[id].status.Published?);
  }
}
