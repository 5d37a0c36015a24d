// How a proposed claim becomes tenant knowledge: proposal, review, a publication event, the write
// to the tenant's graph, and the mark that closes the event. Publishers run interleaved and can
// die between any two of these. All of it is one tenant's store.
module Governance {
  import opened Common
  import opened MemoryModels

  datatype Candidate = Candidate(
    claim: string,
    confidence: Double,
    proposer: string,
    sources: seq<string>,
    status: CandidateStatus,
    reviewedBy: Option<string>,
    rationale: Option<string>)

  datatype PublicationEvent = PublicationEvent(id: string, candidate: string)

  datatype KnowledgeItem = KnowledgeItem(candidate: string, claim: string, confidence: Double, proposer: string)

  // Who reviewed a candidate, on what authority, and how it was decided.
  datatype Review = Review(
    reviewer: string,
    byOperator: bool,
    isUser: bool,
    roles: set<string>,
    selfApprovalPermitted: bool,
    approved: bool)

  // A publisher inside publish_next: it holds the event's candidate, or has written it to the graph.
  datatype PublisherPc = Holding(id: string, candidate: Candidate) | Written(id: string)

  datatype State = State(
    candidates: map<string, Candidate>,
    proposalKeys: map<(string, string), string>,
    reviewKeys: map<(string, string), string>,
    outbox: seq<PublicationEvent>,
    knowledge: seq<KnowledgeItem>,
    publishers: map<int, PublisherPc>,
    reviews: map<string, Review>)

  const EMPTY := State(map[], map[], map[], [], [], map[], map[])

  datatype Error = NotFound | Invalid | Denied

  // ---------------------------------------------------------------------------
  // The operations
  // ---------------------------------------------------------------------------

  function NewCandidate(claim: string, confidence: Double, proposer: string, sources: seq<string>): Candidate {
    Candidate(claim, confidence, proposer, sources, Submitted, None, None)
  }

  // `id` is drawn fresh.
  function Propose(s: State, id: string, actor: string, key: string, claim: string, confidence: Double,
          sources: seq<string>, visible: bool): Result<(State, string), Error> {
    if !visible then Err(Denied)
    else if (actor, key) in s.proposalKeys then Ok((s, s.proposalKeys[(actor, key)]))
    else Ok((s.(candidates := s.candidates[id := NewCandidate(claim, confidence, actor, sources)],
                proposalKeys := s.proposalKeys[(actor, key) := id]), id))
  }

  function Import(s: State, id: string, proposer: string, claim: string, confidence: Double): State {
    if id in s.candidates then s
    else s.(candidates := s.candidates[id := NewCandidate(claim, confidence, proposer, [])])
  }

  function Reviewed(c: Candidate, reviewer: string, approve: bool, rationale: string): Candidate {
    c.(status := if approve then Publishing else Rejected, reviewedBy := Some(reviewer), rationale := Some(rationale))
  }

  // The store's review: a known key answers with its candidate, and only a submitted candidate
  // can be decided.
  function StoreReview(s: State, id: string, key: string, rationale: string, event: string,
          review: Review): Result<(State, string), Error> {
    if (review.reviewer, key) in s.reviewKeys then Ok((s, s.reviewKeys[(review.reviewer, key)]))
    else if id !in s.candidates then Err(NotFound)
    else if s.candidates[id].status != Submitted then Err(Invalid)
    else
      var s1 := s.(candidates := s.candidates[id := Reviewed(s.candidates[id], review.reviewer, review.approved, rationale)],
                   reviewKeys := s.reviewKeys[(review.reviewer, key) := id], reviews := s.reviews[id := review]);
      Ok((if review.approved then s1.(outbox := s1.outbox + [PublicationEvent(event, id)]) else s1, id))
  }

  const CURATOR_ROLES: set<string> := {"knowledge_curator", "tenant_administrator"}

  // A human curator, and not of his own proposal unless he is the single human administrator.
  predicate MayReview(c: Candidate, review: Review) {
    || review.byOperator
    || (review.isUser && review.roles * CURATOR_ROLES != {}
        && (c.proposer == review.reviewer ==> "tenant_administrator" in review.roles && review.selfApprovalPermitted))
  }

  function ReviewKnowledge(s: State, id: string, key: string, rationale: string, event: string,
          review: Review): Result<(State, string), Error> {
    if !review.byOperator && (!review.isUser || review.roles * CURATOR_ROLES == {}) then Err(Denied)
    else if id !in s.candidates then Err(NotFound)
    else if !MayReview(s.candidates[id], review) then Err(Denied)
    else StoreReview(s, id, key, rationale, event, review)
  }

  // The graph write is idempotent per candidate.
  function WriteKnowledge(items: seq<KnowledgeItem>, id: string, c: Candidate): seq<KnowledgeItem> {
    if exists i | 0 <= i < |items| :: items[i].candidate == id then items
    else items + [KnowledgeItem(id, c.claim, c.confidence, c.proposer)]
  }

  function WithoutEvents(outbox: seq<PublicationEvent>, id: string): (r: seq<PublicationEvent>)
    ensures |r| <= |outbox|
  {
    if outbox == [] then []
    else if outbox[0].candidate == id then WithoutEvents(outbox[1..], id)
    else [outbox[0]] + WithoutEvents(outbox[1..], id)
  }

  function MarkPublished(s: State, id: string): Option<State> {
    if id !in s.candidates then None
    else Some(s.(candidates := s.candidates[id := s.candidates[id].(status := Published)], outbox := WithoutEvents(s.outbox, id)))
  }

  // publish_next in its three parts.
  function BeginPublish(s: State, p: int): State {
    if p in s.publishers || s.outbox == [] || s.outbox[0].candidate !in s.candidates then s
    else
      var id := s.outbox[0].candidate;
      s.(publishers := s.publishers[p := Holding(id, s.candidates[id])])
  }

  function ContinuePublish(s: State, p: int): State {
    if p !in s.publishers then s
    else match s.publishers[p]
      case Holding(id, c) => s.(knowledge := WriteKnowledge(s.knowledge, id, c), publishers := s.publishers[p := Written(id)])
      case Written(id) =>
        match MarkPublished(s, id)
        case None => s.(publishers := s.publishers - {p})
        case Some(s1) => s1.(publishers := s1.publishers - {p})
  }

  datatype Op =
    | ProposeOp(id: string, actor: string, key: string, claim: string, confidence: Double, sources: seq<string>, visible: bool)
    | ImportOp(id: string, proposer: string, claim: string, confidence: Double)
    | ReviewOp(id: string, key: string, rationale: string, event: string, review: Review)
    | BeginOp(p: int)
    | ContinueOp(p: int)
    | CrashOp(p: int)

  function Apply(s: State, op: Op): State {
    match op
    case ProposeOp(id, actor, key, claim, confidence, sources, visible) =>
      if id in s.candidates then s
      else (match Propose(s, id, actor, key, claim, confidence, sources, visible) case Ok((s', _)) => s' case Err(_) => s)
    case ImportOp(id, proposer, claim, confidence) => Import(s, id, proposer, claim, confidence)
    case ReviewOp(id, key, rationale, event, review) =>
      (match ReviewKnowledge(s, id, key, rationale, event, review) case Ok((s', _)) => s' case Err(_) => s)
    case BeginOp(p) => BeginPublish(s, p)
    case ContinueOp(p) => ContinuePublish(s, p)
    case CrashOp(p) => s.(publishers := s.publishers - {p})
  }

  function Run(s: State, ops: seq<Op>): State
    decreases |ops|
  {
    if ops == [] then s else Run(Apply(s, ops[0]), ops[1..])
  }

  // ---------------------------------------------------------------------------
  // The invariant
  // ---------------------------------------------------------------------------

  // How many publication events, and how many knowledge items, a candidate has.
  function EventsOf(outbox: seq<PublicationEvent>, id: string): nat {
    if outbox == [] then 0 else (if outbox[0].candidate == id then 1 else 0) + EventsOf(outbox[1..], id)
  }

  function ItemsOf(items: seq<KnowledgeItem>, id: string): nat {
    if items == [] then 0 else (if items[0].candidate == id then 1 else 0) + ItemsOf(items[1..], id)
  }

  function ItemFor(id: string, c: Candidate): KnowledgeItem {
    KnowledgeItem(id, c.claim, c.confidence, c.proposer)
  }

  predicate ReviewFits(c: Candidate, reviews: map<string, Review>, id: string) {
    match c.status
    case Submitted => c.reviewedBy.None?
    case Rejected => id in reviews && !reviews[id].approved && c.reviewedBy == Some(reviews[id].reviewer) && MayReview(c, reviews[id])
    case Publishing => id in reviews && reviews[id].approved && c.reviewedBy == Some(reviews[id].reviewer) && MayReview(c, reviews[id])
    case Published => id in reviews && reviews[id].approved && c.reviewedBy == Some(reviews[id].reviewer) && MayReview(c, reviews[id])
    case _ => false
  }

  predicate CandidateFits(s: State, id: string)
    requires id in s.candidates
  {
    var c := s.candidates[id];
    && ReviewFits(c, s.reviews, id)
    && EventsOf(s.outbox, id) == (if c.status == Publishing then 1 else 0)
    && ItemsOf(s.knowledge, id) <= 1
    && (ItemsOf(s.knowledge, id) == 1 ==> (c.status == Publishing || c.status == Published) && ItemFor(id, c) in s.knowledge)
    && (c.status == Published ==> ItemsOf(s.knowledge, id) == 1)
  }

  predicate PublisherFits(s: State, pc: PublisherPc) {
    && pc.id in s.candidates
    && (s.candidates[pc.id].status == Publishing || s.candidates[pc.id].status == Published)
    && (pc.Holding? ==> ItemFor(pc.id, pc.candidate) == ItemFor(pc.id, s.candidates[pc.id]))
    && (pc.Written? ==> ItemsOf(s.knowledge, pc.id) == 1)
  }

  predicate Inv(s: State) {
    && (forall id | id in s.candidates :: CandidateFits(s, id))
    && (forall i | 0 <= i < |s.outbox| :: s.outbox[i].candidate in s.candidates)
    && (forall i | 0 <= i < |s.knowledge| :: s.knowledge[i].candidate in s.candidates)
    && (forall p | p in s.publishers :: PublisherFits(s, s.publishers[p]))
  }

  // ---------------------------------------------------------------------------
  // Counting
  // ---------------------------------------------------------------------------

  lemma {:induction false} EventsOfAppend(outbox: seq<PublicationEvent>, e: PublicationEvent, id: string)
    ensures EventsOf(outbox + [e], id) == EventsOf(outbox, id) + if e.candidate == id then 1 else 0
  {
    if outbox == [] {
      assert outbox + [e] == [e] && [e][1..] == [];
    } else {
      assert (outbox + [e])[1..] == outbox[1..] + [e];
      EventsOfAppend(outbox[1..], e, id);
    }
  }

  lemma {:induction false} ItemsOfAppend(items: seq<KnowledgeItem>, k: KnowledgeItem, id: string)
    ensures ItemsOf(items + [k], id) == ItemsOf(items, id) + if k.candidate == id then 1 else 0
  {
    if items == [] {
      assert items + [k] == [k] && [k][1..] == [];
    } else {
      assert (items + [k])[1..] == items[1..] + [k];
      ItemsOfAppend(items[1..], k, id);
    }
  }

  lemma {:induction false} ItemsOfZero(items: seq<KnowledgeItem>, id: string)
    ensures ItemsOf(items, id) == 0 <==> forall i | 0 <= i < |items| :: items[i].candidate != id
  {
    if items != [] {
      ItemsOfZero(items[1..], id);
      assert forall i | 1 <= i < |items| :: items[i] == items[1..][i - 1];
      assert (forall i | 0 <= i < |items| :: items[i].candidate != id)
        <==> items[0].candidate != id && (forall i | 0 <= i < |items[1..]| :: items[1..][i].candidate != id);
    }
  }

  lemma {:induction false} EventsOfZero(outbox: seq<PublicationEvent>, id: string)
    ensures EventsOf(outbox, id) == 0 <==> forall i | 0 <= i < |outbox| :: outbox[i].candidate != id
  {
    if outbox != [] {
      EventsOfZero(outbox[1..], id);
      assert forall i | 1 <= i < |outbox| :: outbox[i] == outbox[1..][i - 1];
      assert (forall i | 0 <= i < |outbox| :: outbox[i].candidate != id)
        <==> outbox[0].candidate != id && (forall i | 0 <= i < |outbox[1..]| :: outbox[1..][i].candidate != id);
    }
  }

  lemma {:induction false} WithoutEventsCounts(outbox: seq<PublicationEvent>, gone: string, id: string)
    ensures EventsOf(WithoutEvents(outbox, gone), id) == if id == gone then 0 else EventsOf(outbox, id)
    ensures forall e | e in WithoutEvents(outbox, gone) :: e in outbox
  {
    if outbox != [] {
      WithoutEventsCounts(outbox[1..], gone, id);
      if outbox[0].candidate != gone {
        assert ([outbox[0]] + WithoutEvents(outbox[1..], gone))[1..] == WithoutEvents(outbox[1..], gone);
      }
    }
  }

  // ---------------------------------------------------------------------------
  // Every step keeps the invariant
  // ---------------------------------------------------------------------------

  // One more candidate, submitted.
  lemma NewCandidateKeeps(s: State, s': State, id: string, c: Candidate)
    requires Inv(s) && id !in s.candidates && c.status == Submitted && c.reviewedBy.None?
    requires s' == s.(candidates := s.candidates[id := c], proposalKeys := s'.proposalKeys)
    ensures Inv(s')
  {
    forall i | i in s'.candidates ensures CandidateFits(s', i) {
      if i == id {
        EventsOfZero(s.outbox, id);
        ItemsOfZero(s.knowledge, id);
      } else {
        assert CandidateFits(s, i);
      }
    }
    forall p | p in s'.publishers ensures PublisherFits(s', s'.publishers[p]) {
      assert PublisherFits(s, s.publishers[p]);
    }
  }

  function Decided(s: State, id: string, key: string, rationale: string, review: Review,
          outbox: seq<PublicationEvent>): State
    requires id in s.candidates
  {
    s.(candidates := s.candidates[id := Reviewed(s.candidates[id], review.reviewer, review.approved, rationale)],
       reviewKeys := s.reviewKeys[(review.reviewer, key) := id], reviews := s.reviews[id := review], outbox := outbox)
  }

  lemma DecidedKeeps(s: State, id: string, key: string, rationale: string, event: string, review: Review)
    requires Inv(s) && id in s.candidates && s.candidates[id].status == Submitted && MayReview(s.candidates[id], review)
    ensures Inv(Decided(s, id, key, rationale, review, if review.approved then s.outbox + [PublicationEvent(event, id)] else s.outbox))
  {
    var outbox := if review.approved then s.outbox + [PublicationEvent(event, id)] else s.outbox;
    var s' := Decided(s, id, key, rationale, review, outbox);
    assert CandidateFits(s, id);
    forall i | i in s'.candidates ensures CandidateFits(s', i) {
      assert CandidateFits(s, i);
      EventsOfAppend(s.outbox, PublicationEvent(event, id), i);
    }
    forall p | p in s'.publishers ensures PublisherFits(s', s'.publishers[p]) {
      assert PublisherFits(s, s.publishers[p]);
    }
  }

  lemma ReviewKeeps(s: State, id: string, key: string, rationale: string, event: string, review: Review)
    requires Inv(s)
    ensures var r := ReviewKnowledge(s, id, key, rationale, event, review); r.Ok? ==> Inv(r.value.0)
  {
    var r := ReviewKnowledge(s, id, key, rationale, event, review);
    if r.Ok? && (review.reviewer, key) !in s.reviewKeys {
      DecidedKeeps(s, id, key, rationale, event, review);
      assert r.value.0 == Decided(s, id, key, rationale, review, if review.approved then s.outbox + [PublicationEvent(event, id)] else s.outbox);
    }
  }

  lemma PublisherKeeps(s: State, p: int, pc: PublisherPc)
    requires Inv(s) && PublisherFits(s, pc)
    ensures Inv(s.(publishers := s.publishers[p := pc]))
  {
    var s' := s.(publishers := s.publishers[p := pc]);
    forall i | i in s'.candidates ensures CandidateFits(s', i) { assert CandidateFits(s, i); }
    forall q | q in s'.publishers ensures PublisherFits(s', s'.publishers[q]) {
      if q != p { assert PublisherFits(s, s.publishers[q]); }
    }
  }

  lemma PublisherGoneKeeps(s: State, p: int)
    requires Inv(s)
    ensures Inv(s.(publishers := s.publishers - {p}))
  {
    var s' := s.(publishers := s.publishers - {p});
    forall i | i in s'.candidates ensures CandidateFits(s', i) { assert CandidateFits(s, i); }
    forall q | q in s'.publishers ensures PublisherFits(s', s'.publishers[q]) { assert PublisherFits(s, s.publishers[q]); }
  }

  lemma BeginKeeps(s: State, p: int)
    requires Inv(s)
    ensures Inv(BeginPublish(s, p))
  {
    if p !in s.publishers && s.outbox != [] {
      var id := s.outbox[0].candidate;
      EventsOfZero(s.outbox, id);
      assert CandidateFits(s, id);
      PublisherKeeps(s, p, Holding(id, s.candidates[id]));
    }
  }

  lemma WriteCounts(items: seq<KnowledgeItem>, id: string, c: Candidate, other: string)
    ensures ItemsOf(WriteKnowledge(items, id, c), other) ==
              if other == id && ItemsOf(items, id) == 0 then 1 else ItemsOf(items, other)
    ensures forall k | k in items :: k in WriteKnowledge(items, id, c)
    ensures ItemsOf(items, id) == 0 ==> ItemFor(id, c) in WriteKnowledge(items, id, c)
  {
    ItemsOfZero(items, id);
    ItemsOfAppend(items, ItemFor(id, c), other);
  }

  lemma WriteKeeps(s: State, id: string, c: Candidate)
    requires Inv(s) && PublisherFits(s, Holding(id, c))
    ensures Inv(s.(knowledge := WriteKnowledge(s.knowledge, id, c)))
    ensures ItemsOf(WriteKnowledge(s.knowledge, id, c), id) == 1
  {
    var s' := s.(knowledge := WriteKnowledge(s.knowledge, id, c));
    assert CandidateFits(s, id);
    WriteCounts(s.knowledge, id, c, id);
    forall i | i in s'.candidates ensures CandidateFits(s', i) {
      assert CandidateFits(s, i);
      WriteCounts(s.knowledge, id, c, i);
    }
    forall q | q in s'.publishers ensures PublisherFits(s', s'.publishers[q]) {
      assert PublisherFits(s, s.publishers[q]);
      WriteCounts(s.knowledge, id, c, s.publishers[q].id);
    }
  }

  lemma MarkKeeps(s: State, id: string)
    requires Inv(s) && PublisherFits(s, Written(id))
    ensures MarkPublished(s, id).Some? && Inv(MarkPublished(s, id).value)
  {
    var s' := MarkPublished(s, id).value;
    assert CandidateFits(s, id);
    forall i | i in s'.candidates ensures CandidateFits(s', i) {
      assert CandidateFits(s, i);
      WithoutEventsCounts(s.outbox, id, i);
    }
    WithoutEventsCounts(s.outbox, id, id);
    forall i | 0 <= i < |s'.outbox| ensures s'.outbox[i].candidate in s'.candidates {
      assert s'.outbox[i] in s.outbox;
    }
    forall q | q in s'.publishers ensures PublisherFits(s', s'.publishers[q]) { assert PublisherFits(s, s.publishers[q]); }
  }

  lemma ContinueKeeps(s: State, p: int)
    requires Inv(s)
    ensures Inv(ContinuePublish(s, p))
  {
    if p in s.publishers {
      assert PublisherFits(s, s.publishers[p]);
      match s.publishers[p]
      case Holding(id, c) =>
        var s1 := s.(knowledge := WriteKnowledge(s.knowledge, id, c));
        WriteKeeps(s, id, c);
        PublisherKeeps(s1, p, Written(id));
      case Written(id) =>
        MarkKeeps(s, id);
        PublisherGoneKeeps(MarkPublished(s, id).value, p);
    }
  }

  lemma ApplyKeeps(s: State, op: Op)
    requires Inv(s)
    ensures Inv(Apply(s, op))
  {
    match op
    case ProposeOp(id, actor, key, claim, confidence, sources, visible) =>
      if Apply(s, op) != s {
        NewCandidateKeeps(s, Apply(s, op), id, NewCandidate(claim, confidence, actor, sources));
      }
    case ImportOp(id, proposer, claim, confidence) =>
      if id !in s.candidates {
        NewCandidateKeeps(s, Apply(s, op), id, NewCandidate(claim, confidence, proposer, []));
      }
    case ReviewOp(id, key, rationale, event, review) => ReviewKeeps(s, id, key, rationale, event, review);
    case BeginOp(p) => BeginKeeps(s, p);
    case ContinueOp(p) => ContinueKeeps(s, p);
    case CrashOp(p) => PublisherGoneKeeps(s, p);
  }

  lemma {:induction false} RunKeeps(s: State, ops: seq<Op>)
    requires Inv(s)
    ensures Inv(Run(s, ops))
    decreases |ops|
  {
    if ops != [] {
      ApplyKeeps(s, ops[0]);
      RunKeeps(Apply(s, ops[0]), ops[1..]);
    }
  }

  // ---------------------------------------------------------------------------
  // The results
  // ---------------------------------------------------------------------------

  // A candidate is publishing exactly while the outbox holds its event, and then exactly one; a
  // published one was approved by the person it names, who was entitled to, and is tenant
  // knowledge exactly once; a submitted or rejected one is not knowledge at all.
  lemma PublicationInvariant(ops: seq<Op>, id: string)
    requires id in Run(EMPTY, ops).candidates
    ensures var s := Run(EMPTY, ops);
            && (s.candidates[id].status == Publishing <==> EventsOf(s.outbox, id) == 1)
            && (s.candidates[id].status != Publishing <==> EventsOf(s.outbox, id) == 0)
    ensures var s := Run(EMPTY, ops);
            s.candidates[id].status == Published ==>
              && id in s.reviews && s.reviews[id].approved && s.candidates[id].reviewedBy == Some(s.reviews[id].reviewer)
              && MayReview(s.candidates[id], s.reviews[id])
              && ItemsOf(s.knowledge, id) == 1 && ItemFor(id, s.candidates[id]) in s.knowledge
    ensures var s := Run(EMPTY, ops);
            s.candidates[id].status == Submitted || s.candidates[id].status == Rejected ==> ItemsOf(s.knowledge, id) == 0
    ensures Run(EMPTY, ops).candidates[id].status in {Submitted, Rejected, Publishing, Published}
  {
    RunKeeps(EMPTY, ops);
    assert CandidateFits(Run(EMPTY, ops), id);
  }

  // Tenant knowledge holds nothing that was not approved, and nothing twice.
  lemma KnowledgeIsApproved(ops: seq<Op>, i: nat, j: nat)
    requires i < |Run(EMPTY, ops).knowledge| && j < |Run(EMPTY, ops).knowledge|
    ensures var s := Run(EMPTY, ops);
            var id := s.knowledge[i].candidate;
            && id in s.candidates && (s.candidates[id].status == Publishing || s.candidates[id].status == Published)
            && id in s.reviews && s.reviews[id].approved
            && (s.knowledge[j].candidate == id ==> i == j)
  {
    RunKeeps(EMPTY, ops);
    var s := Run(EMPTY, ops);
    var id := s.knowledge[i].candidate;
    assert CandidateFits(s, id);
    ItemsOfZero(s.knowledge, id);
    if s.knowledge[j].candidate == id && i != j {
      TwiceCounts(s.knowledge, id, if i < j then i else j, if i < j then j else i);
    }
  }

  lemma {:induction false} TwiceCounts(items: seq<KnowledgeItem>, id: string, i: nat, j: nat)
    requires i < j < |items| && items[i].candidate == id == items[j].candidate
    ensures ItemsOf(items, id) >= 2
    decreases |items|
  {
    if i == 0 {
      ItemsOfZero(items[1..], id);
      assert items[1..][j - 1].candidate == id;
    } else {
      TwiceCounts(items[1..], id, i - 1, j - 1);
    }
  }

  lemma RejectedStays(s: State, op: Op, id: string)
    requires Inv(s) && id in s.candidates && s.candidates[id].status == Rejected
    ensures id in Apply(s, op).candidates && Apply(s, op).candidates[id] == s.candidates[id]
  {
    if op.ContinueOp? && op.p in s.publishers {
      assert PublisherFits(s, s.publishers[op.p]);
    }
  }

  // A rejected candidate is never published, whoever tries.
  lemma {:induction false} RejectedForever(s: State, ops: seq<Op>, id: string)
    requires Inv(s) && id in s.candidates && s.candidates[id].status == Rejected
    ensures id in Run(s, ops).candidates && Run(s, ops).candidates[id] == s.candidates[id]
    ensures ItemsOf(Run(s, ops).knowledge, id) == 0
    decreases |ops|
  {
    if ops == [] {
      assert CandidateFits(s, id);
    } else {
      RejectedStays(s, ops[0], id);
      ApplyKeeps(s, ops[0]);
      RejectedForever(Apply(s, ops[0]), ops[1..], id);
    }
  }

  // One whole publish_next.
  function PublishNext(s: State, p: int): State {
    ContinuePublish(ContinuePublish(BeginPublish(s, p), p), p)
  }

  // What one publisher does when it is alone, in closed form.
  lemma AlonePublishes(s: State, p: int)
    requires s.publishers == map[] && s.outbox != [] && s.outbox[0].candidate in s.candidates
    ensures var id := s.outbox[0].candidate;
            var written := s.(knowledge := WriteKnowledge(s.knowledge, id, s.candidates[id]));
            && Apply(BeginPublish(s, p), CrashOp(p)) == s
            && Apply(ContinuePublish(BeginPublish(s, p), p), CrashOp(p)) == written
            && Some(PublishNext(s, p)) == MarkPublished(written, id)
  {
    var id := s.outbox[0].candidate;
    var c := s.candidates[id];
    assert map[p := Holding(id, c)] - {p} == map[] && map[p := Written(id)] - {p} == map[];
    assert map[p := Holding(id, c)][p := Written(id)] == map[p := Written(id)];
  }

  lemma NothingToPublish(s: State, p: int)
    requires s.publishers == map[] && (s.outbox == [] || s.outbox[0].candidate !in s.candidates)
    ensures BeginPublish(s, p) == s && Apply(s, CrashOp(p)) == s && ContinuePublish(s, p) == s && PublishNext(s, p) == s
  {
    assert s.publishers - {p} == map[];
  }

  // A publisher that dies after the graph write and before the mark loses nothing: the next
  // publish_next ends in the state the first would have reached, with the same single item.
  lemma CrashBeforeMarkLosesNothing(ops: seq<Op>, p: int)
    requires p !in Run(EMPTY, ops).publishers
    ensures var s := Run(EMPTY, ops);
            var crashed := Apply(ContinuePublish(BeginPublish(s, p), p), CrashOp(p));
            PublishNext(crashed, p) == PublishNext(s, p)
  {
    RunKeeps(EMPTY, ops);
    var s := Run(EMPTY, ops);
    if s.outbox != [] && s.outbox[0].candidate in s.candidates {
      var id := s.outbox[0].candidate;
      var c := s.candidates[id];
      var begun := BeginPublish(s, p);
      var written := ContinuePublish(begun, p);
      var crashed := Apply(written, CrashOp(p));
      assert crashed.publishers == s.publishers;
      WriteTwice(s.knowledge, id, c);
      assert ContinuePublish(BeginPublish(crashed, p), p) == written;
    } else {
      assert s.(publishers := s.publishers - {p}) == s;
    }
  }

  lemma WriteTwice(items: seq<KnowledgeItem>, id: string, c: Candidate)
    ensures WriteKnowledge(WriteKnowledge(items, id, c), id, c) == WriteKnowledge(items, id, c)
  {
    if !exists i | 0 <= i < |items| :: items[i].candidate == id {
      assert (items + [ItemFor(id, c)])[|items|].candidate == id;
    }
  }

  function PublishMany(s: State, p: int, n: nat): State
    decreases n
  {
    if n == 0 then s else PublishMany(PublishNext(s, p), p, n - 1)
  }

  lemma PublishNextShrinks(s: State, p: int)
    requires Inv(s) && p !in s.publishers && s.outbox != []
    ensures var s' := PublishNext(s, p);
            && Inv(s') && p !in s'.publishers && |s'.outbox| < |s.outbox|
            && s'.candidates.Keys == s.candidates.Keys
            && s'.candidates[s.outbox[0].candidate].status == Published
  {
    var id := s.outbox[0].candidate;
    BeginKeeps(s, p);
    var s1 := BeginPublish(s, p);
    ContinueKeeps(s1, p);
    var s2 := ContinuePublish(s1, p);
    ContinueKeeps(s2, p);
    assert s2.publishers[p] == Written(id) && s2.outbox == s.outbox;
    assert WithoutEvents(s.outbox, id) == WithoutEvents(s.outbox[1..], id);
  }

  lemma PublishNextKeeps(s: State, p: int, n: nat)
    requires Inv(s) && p !in s.publishers && |s.outbox| <= n && n > 0
    ensures Inv(PublishNext(s, p)) && p !in PublishNext(s, p).publishers && |PublishNext(s, p).outbox| <= n - 1
  {
    if s.outbox == [] {
      assert PublishNext(s, p) == s;
    } else {
      PublishNextShrinks(s, p);
    }
  }

  lemma NonePublishing(s: State)
    requires Inv(s) && s.outbox == []
    ensures forall id | id in s.candidates :: s.candidates[id].status != Publishing
  {
    forall id | id in s.candidates ensures s.candidates[id].status != Publishing { assert CandidateFits(s, id); }
  }

  // Publishing until the outbox is empty takes at most one call per event and leaves no
  // candidate publishing.
  lemma {:induction false} PublishingEnds(s: State, p: int, n: nat)
    requires Inv(s) && p !in s.publishers && |s.outbox| <= n
    ensures var s' := PublishMany(s, p, n);
            Inv(s') && s'.outbox == [] && forall id | id in s'.candidates :: s'.candidates[id].status != Publishing
    decreases n
  {
    if n == 0 {
      NonePublishing(s);
    } else {
      PublishNextKeeps(s, p, n);
      PublishingEnds(PublishNext(s, p), p, n - 1);
    }
  }
}
