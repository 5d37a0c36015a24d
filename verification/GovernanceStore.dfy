// The in-memory governance store and the part of the tenant memory store that publishing uses,
// updated in place. Each method is proved to do what module Governance reasons about.
module GovernanceStore {
  import opened Common
  import opened MemoryModels
  import opened Governance

  class InMemoryGovernanceStore {
    var candidates: map<string, Candidate>
    var proposalKeys: map<(string, string), string>
    var reviewKeys: map<(string, string), string>
    var outbox: seq<PublicationEvent>
    ghost var reviews: map<string, Review>

    constructor ()
      ensures View() == EMPTY
    {
      candidates, proposalKeys, reviewKeys, outbox, reviews := map[], map[], map[], [], map[];
    }

    // The governance part of the state; the graph and the publishers are not this store's.
    ghost function View(): State
      reads this
    {
      State(candidates, proposalKeys, reviewKeys, outbox, [], map[], reviews)
    }

    method Propose(id: string, actor: string, key: string, claim: string, confidence: Double,
            sources: seq<string>) returns (answer: string)
      modifies this
      ensures Governance.Propose(old(View()), id, actor, key, claim, confidence, sources, true) == Ok((View(), answer))
    {
      if (actor, key) in proposalKeys { return proposalKeys[(actor, key)]; }
      candidates := candidates[id := NewCandidate(claim, confidence, actor, sources)];
      proposalKeys := proposalKeys[(actor, key) := id];
      return id;
    }

    method Review(id: string, key: string, rationale: string, event: string,
            review: Review) returns (answer: Result<string, Error>)
      modifies this
      ensures match StoreReview(old(View()), id, key, rationale, event, review)
              case Err(e) => answer == Err(e) && View() == old(View())
              case Ok((s, decided)) => answer == Ok(decided) && View() == s
    {
      if (review.reviewer, key) in reviewKeys { return Ok(reviewKeys[(review.reviewer, key)]); }
      if id !in candidates { return Err(NotFound); }
      var candidate := candidates[id];
      if candidate.status != Submitted { return Err(Invalid); }
      candidates := candidates[id := candidate.(status := if review.approved then Publishing else Rejected,
                                                reviewedBy := Some(review.reviewer), rationale := Some(rationale))];
      reviewKeys := reviewKeys[(review.reviewer, key) := id];
      reviews := reviews[id := review];
      if review.approved {
        outbox := outbox + [PublicationEvent(event, id)];
      }
      return Ok(id);
    }

    method NextPublication() returns (event: Option<PublicationEvent>)
      ensures event == if outbox == [] then None else Some(outbox[0])
    {
      event := if outbox == [] then None else Some(outbox[0]);
    }

    method MarkPublished(id: string) returns (ok: bool)
      modifies this
      ensures ok == Governance.MarkPublished(old(View()), id).Some?
      ensures View() == if ok then Governance.MarkPublished(old(View()), id).value else old(View())
    {
      if id !in candidates { return false; }
      candidates := candidates[id := candidates[id].(status := Published)];
      var kept, i := [], 0;
      while i < |outbox|
        invariant i <= |outbox|
        invariant WithoutEvents(outbox, id) == kept + WithoutEvents(outbox[i..], id)
      {
        if outbox[i].candidate != id {
          kept := kept + [outbox[i]];
        }
        i := i + 1;
      }
      outbox := kept;
      return true;
    }

    method ImportCandidate(id: string, proposer: string, claim: string, confidence: Double)
      modifies this
      ensures View() == Import(old(View()), id, proposer, claim, confidence)
    {
      if id !in candidates {
        candidates := candidates[id := NewCandidate(claim, confidence, proposer, [])];
      }
    }
  }

  class InMemoryKnowledge {
    var items: seq<KnowledgeItem>
    var published: map<string, KnowledgeItem>

    ghost predicate Valid()
      reads this
    {
      && (forall id | id in published :: exists i | 0 <= i < |items| :: items[i].candidate == id)
      && (forall i | 0 <= i < |items| :: items[i].candidate in published)
    }

    constructor ()
      ensures Valid() && items == []
    {
      items, published := [], map[];
    }

    // The dictionary of published candidates makes the append happen once per candidate.
    method PublishTenantKnowledge(id: string, c: Candidate)
      requires Valid()
      modifies this
      ensures Valid() && items == WriteKnowledge(old(items), id, c)
    {
      if id !in published {
        ghost var before := items;
        var item := KnowledgeItem(id, c.claim, c.confidence, c.proposer);
        items := items + [item];
        published := published[id := item];
        assert items[|before|].candidate == id;
        forall other | other in published ensures exists i | 0 <= i < |items| :: items[i].candidate == other {
          if other != id {
            var i :| 0 <= i < |before| && before[i].candidate == other;
            assert items[i].candidate == other;
          }
        }
      }
    }
  }

  // publish_next over the two stores. A process that dies in between leaves the stores as they
  // are at that point.
  class Publisher {
    const governance: InMemoryGovernanceStore
    const knowledge: InMemoryKnowledge

    constructor (governance: InMemoryGovernanceStore, knowledge: InMemoryKnowledge)
      ensures this.governance == governance && this.knowledge == knowledge
    {
      this.governance, this.knowledge := governance, knowledge;
    }

    ghost function View(): State
      reads this, governance, knowledge
    {
      governance.View().(knowledge := knowledge.items)
    }

    method PublishNext(p: int, diesBeforeWrite: bool, diesBeforeMark: bool) returns (published: Option<string>)
      requires knowledge.Valid()
      modifies governance, knowledge
      ensures knowledge.Valid()
      ensures var s := old(View());
              View() == if diesBeforeWrite then Apply(BeginPublish(s, p), CrashOp(p))
                        else if diesBeforeMark then Apply(ContinuePublish(BeginPublish(s, p), p), CrashOp(p))
                        else Governance.PublishNext(s, p)
      ensures published.Some? ==> !diesBeforeWrite && !diesBeforeMark && old(governance.outbox) != []
                                  && published.value == old(governance.outbox)[0].candidate
    {
      var event := governance.NextPublication();
      if event.None? || event.value.candidate !in governance.candidates {
        NothingToPublish(View(), p);
        return None;
      }
      AlonePublishes(View(), p);
      var id := event.value.candidate;
      if diesBeforeWrite { return None; }
      knowledge.PublishTenantKnowledge(id, governance.candidates[id]);
      if diesBeforeMark { return None; }
      var ok := governance.MarkPublished(id);
      return Some(id);
    }
  }
}
