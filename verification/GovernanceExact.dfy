// Who may review, and what exactly a proposal, a review and a publication leave behind.
module GovernanceExact {
  import opened Common
  import opened MemoryModels
  import opened Governance

  // A proposal needs a visible tenant; a key used before answers with its candidate and changes
  // nothing, a new one makes a submitted candidate of what was proposed.
  lemma ProposeExactly(s: State, id: string, actor: string, key: string, claim: string, confidence: Double,
          sources: seq<string>, visible: bool)
    ensures var r := Propose(s, id, actor, key, claim, confidence, sources, visible);
            && (r.Ok? <==> visible) && (r.Err? ==> r.error == Denied)
            && (visible && (actor, key) in s.proposalKeys ==> r.value == (s, s.proposalKeys[(actor, key)]))
            && (visible && (actor, key) !in s.proposalKeys ==>
                  r.value == (s.(candidates := s.candidates[id := Candidate(claim, confidence, actor, sources, Submitted, None, None)],
                                 proposalKeys := s.proposalKeys[(actor, key) := id]), id))
  {
  }

  predicate IsCurator(review: Review) {
    review.isUser && ("knowledge_curator" in review.roles || "tenant_administrator" in review.roles)
  }

  // An operator may review anything. Of a tenant's people it takes a human curator, and for his
  // own proposal one who is an administrator and is permitted to approve himself.
  predicate MayDecide(c: Candidate, review: Review) {
    || review.byOperator
    || (IsCurator(review)
        && (c.proposer == review.reviewer ==> "tenant_administrator" in review.roles && review.selfApprovalPermitted))
  }

  lemma CuratorSpelledOut(review: Review)
    ensures review.roles * CURATOR_ROLES != {} <==> "knowledge_curator" in review.roles || "tenant_administrator" in review.roles
  {
    var both := review.roles * CURATOR_ROLES;
    if "knowledge_curator" in review.roles { assert "knowledge_curator" in both; }
    if "tenant_administrator" in review.roles { assert "tenant_administrator" in both; }
    if both != {} {
      var role :| role in both;
      assert role == "knowledge_curator" || role == "tenant_administrator";
    }
  }

  // A review is refused exactly as said above, then answers a known key with its candidate, and
  // otherwise decides a submitted candidate: it names the reviewer and the rationale, and an
  // approval puts one event at the end of the outbox.
  lemma ReviewExactly(s: State, id: string, key: string, rationale: string, event: string, review: Review)
    ensures var r := ReviewKnowledge(s, id, key, rationale, event, review);
            var known := (review.reviewer, key) in s.reviewKeys;
            && (r == Err(Denied) <==>
                  (!review.byOperator && !IsCurator(review)) || (id in s.candidates && !MayDecide(s.candidates[id], review)))
            && (r == Err(NotFound) <==> (review.byOperator || IsCurator(review)) && id !in s.candidates)
            && (r == Err(Invalid) <==>
                  id in s.candidates && MayDecide(s.candidates[id], review) && !known && s.candidates[id].status != Submitted)
            && (r.Ok? && known ==> r.value == (s, s.reviewKeys[(review.reviewer, key)]))
            && (r.Ok? && !known ==>
                  && id in s.candidates && s.candidates[id].status == Submitted && r.value.1 == id
                  && r.value.0 == State(
                       s.candidates[id := s.candidates[id].(status := if review.approved then Publishing else Rejected,
                                                            reviewedBy := Some(review.reviewer), rationale := Some(rationale))],
                       s.proposalKeys, s.reviewKeys[(review.reviewer, key) := id],
                       if review.approved then s.outbox + [PublicationEvent(event, id)] else s.outbox,
                       s.knowledge, s.publishers, s.reviews[id := review]))
  {
    CuratorSpelledOut(review);
  }

  // Of the outbox the events of other candidates are left, all of them and in order: none of an
  // empty one, and event by event from its end, one more or the same.
  lemma {:induction false} EventsKept(outbox: seq<PublicationEvent>, e: PublicationEvent, id: string)
    ensures WithoutEvents([], id) == []
    ensures WithoutEvents(outbox + [e], id) == if e.candidate == id then WithoutEvents(outbox, id) else WithoutEvents(outbox, id) + [e]
  {
    if outbox == [] {
      assert outbox + [e] == [e] && [e][1..] == [];
    } else {
      assert (outbox + [e])[1..] == outbox[1..] + [e];
      EventsKept(outbox[1..], e, id);
    }
  }

  lemma WriteExactly(items: seq<KnowledgeItem>, id: string, c: Candidate)
    ensures WriteKnowledge(items, id, c) ==
              if forall k | k in items :: k.candidate != id then items + [KnowledgeItem(id, c.claim, c.confidence, c.proposer)]
              else items
  {
    if i :| 0 <= i < |items| && items[i].candidate == id { assert items[i] in items; }
  }

  // One whole publish_next takes the oldest event: its candidate is tenant knowledge, once, is
  // published, and has no event left; everything else stays.
  lemma PublishNextExactly(s: State, p: int)
    requires s.publishers == map[]
    ensures var s' := PublishNext(s, p);
            if s.outbox == [] || s.outbox[0].candidate !in s.candidates then s' == s
            else
              var id := s.outbox[0].candidate;
              var c := s.candidates[id];
              s' == State(s.candidates[id := c.(status := Published)], s.proposalKeys, s.reviewKeys,
                          WithoutEvents(s.outbox, id),
                          if forall k | k in s.knowledge :: k.candidate != id
                          then s.knowledge + [KnowledgeItem(id, c.claim, c.confidence, c.proposer)] else s.knowledge,
                          map[], s.reviews)
  {
    if s.outbox == [] || s.outbox[0].candidate !in s.candidates {
      NothingToPublish(s, p);
    } else {
      AlonePublishes(s, p);
      WriteExactly(s.knowledge, s.outbox[0].candidate, s.candidates[s.outbox[0].candidate]);
    }
  }
}
