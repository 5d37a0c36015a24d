// Domain records of the tenant memory service that several components share.
module MemoryModels {
  import opened Common

  datatype MemoryScope = Private | TenantKnowledge

  datatype MemoryState = Active | Superseded | ErasurePending | Erased

  datatype MemoryKind = Explicit | Preference | Constraint | Outcome

  datatype MemoryItem = MemoryItem(
    id: string,
    owner: Option<string>,
    scope: MemoryScope,
    content: string,
    kind: MemoryKind,
    confidence: Double,
    actorId: string,
    source: string,
    createdAt: int,
    state: MemoryState,
    supersedes: Option<string>)

  ghost predicate UniqueItemIds(items: seq<MemoryItem>) {
    forall i, j | 0 <= i < j < |items| :: items[i].id != items[j].id
  }

  function ItemIds(items: seq<MemoryItem>): set<string> {
    set item | item in items :: item.id
  }

  datatype ErasureTombstone = ErasureTombstone(
    id: string,
    memoryId: string,
    requesterId: string,
    ownerId: string,
    reviewedBy: string,
    createdAt: int,
    completedAt: int)

  datatype CandidateStatus = Submitted | Approved | Rejected | Publishing | Published | Failed

  datatype KnowledgeCandidateView = KnowledgeCandidateView(
    id: string,
    claim: string,
    confidence: Double,
    proposerId: string,
    sourceCount: int,
    duplicates: seq<string>,
    conflicts: seq<string>,
    status: CandidateStatus,
    createdAt: int,
    reviewedBy: Option<string>,
    rationale: Option<string>)
}
