/** The claim ledger of one cycle, and what one broker transaction means on it. */
module Ledger {
  import opened Fleet

  /** A Need is identified by its position in the cycle's demand. */
  datatype Claim = Claim(need: nat, precedence: Precedence, retriesLeft: int)

  type Claims = map<MachineId, Claim>

  datatype BucketKey = BucketKey(state: State, profile: Profile, sameKey: string, sameValue: string)

  datatype Mode = Incremental | AllOrNothing

  datatype Proposal = Proposal(need: nat, bucket: BucketKey, machines: seq<MachineId>, observedSeq: nat,
                               precedence: Precedence, mode: Mode, retriesLeft: int)

  datatype QueuedNeed = QueuedNeed(need: nat, retriesLeft: int)

  datatype Outcome =
    | Conflict(newSeq: nat)
    | Committed(machines: seq<MachineId>, displaced: seq<QueuedNeed>, newSeq: nat)

  /** Unclaimed, or held at strictly lower precedence. */
  predicate Takeable(c: Claims, m: MachineId, p: Precedence) {
    m in c ==> c[m].precedence.Less(p)
  }

  /** A bid beats what is held by priority, then by interruption, then by reclamation. */
  predicate Outbid(held: Precedence, bid: Precedence) {
    || held.priority < bid.priority
    || (held.priority == bid.priority && held.interruption < bid.interruption)
    || (held.priority == bid.priority && held.interruption == bid.interruption && held.reclamation < bid.reclamation)
  }

  /** Nothing is dropped, and what changes was outbid. */
  predicate OnlyOutbid(c: Claims, d: Claims, bid: Precedence) {
    forall m | m in c :: m in d && (d[m] == c[m] || Outbid(c[m].precedence, bid))
  }

  function HeldBy(c: Claims, n: nat): set<MachineId> {
    set m | m in c && c[m].need == n
  }

  function Taken(c: Claims, p: Proposal): set<MachineId> {
    set m | m in p.machines && Takeable(c, m, p.precedence)
  }

  function Evicted(c: Claims, p: Proposal): set<MachineId> {
    set m | m in p.machines && m in c && c[m].precedence.Less(p.precedence)
  }

  /** Whether a proposal commits: the bucket is unchanged since it was observed, and
      the mode accepts what can be taken. */
  predicate Accepts(c: Claims, currentSeq: nat, p: Proposal) {
    currentSeq == p.observedSeq &&
    match p.mode
    case AllOrNothing => forall m | m in p.machines :: Takeable(c, m, p.precedence)
    case Incremental => exists m :: m in p.machines && Takeable(c, m, p.precedence)
  }

  function Commit(c: Claims, p: Proposal): Claims {
    map m | m in c.Keys + Taken(c, p) ::
      if m in Taken(c, p) then Claim(p.need, p.precedence, p.retriesLeft) else c[m]
  }

  /** The re-queue list: one entry per evicted Need, carrying the smallest budget any
      of its evicted claims recorded, less one. */
  ghost predicate IsDisplaced(c: Claims, p: Proposal, displaced: seq<QueuedNeed>) {
    && (forall i, j | 0 <= i < j < |displaced| :: displaced[i].need != displaced[j].need)
    && (forall m | m in Evicted(c, p) :: exists d :: d in displaced && d.need == c[m].need)
    && (forall d | d in displaced :: LeastBudget(c, p, d))
  }

  ghost predicate LeastBudget(c: Claims, p: Proposal, d: QueuedNeed) {
    && (exists m :: m in Evicted(c, p) && c[m].need == d.need && d.retriesLeft == c[m].retriesLeft - 1)
    && (forall m | m in Evicted(c, p) && c[m].need == d.need :: d.retriesLeft <= c[m].retriesLeft - 1)
  }

  /** How a ledger may evolve: no claim is ever dropped, and a machine changes its
      record only for a strictly higher precedence. */
  ghost predicate Advances(c: Claims, d: Claims) {
    forall m | m in c :: m in d && (d[m] == c[m] || c[m].precedence.Less(d[m].precedence))
  }

  lemma AdvancesTransitive(a: Claims, b: Claims, c: Claims)
    requires Advances(a, b) && Advances(b, c)
    ensures Advances(a, c)
  {
    forall m | m in a
      ensures m in c && (c[m] == a[m] || a[m].precedence.Less(c[m].precedence))
    {
      PrecedenceOrder(a[m].precedence, b[m].precedence, c[m].precedence);
    }
  }

  /** A commit advances the ledger, claims exactly the machines it takes for the
      proposer, and takes nothing but from strictly lower precedence. */
  lemma CommitAdvances(c: Claims, p: Proposal)
    ensures Advances(c, Commit(c, p))
    ensures forall n | n != p.need :: HeldBy(Commit(c, p), n) == HeldBy(c, n) - Evicted(c, p)
    ensures HeldBy(Commit(c, p), p.need) == HeldBy(c, p.need) + Taken(c, p)
  {
    var d := Commit(c, p);
    forall n | n != p.need
      ensures HeldBy(d, n) == HeldBy(c, n) - Evicted(c, p)
    {
    }
  }

  lemma CommitOutbids(c: Claims, p: Proposal)
    ensures OnlyOutbid(c, Commit(c, p), p.precedence)
  {
  }

  /** What cannot be taken now can never be taken again at that precedence. */
  lemma BlockedForever(c: Claims, d: Claims, m: MachineId, p: Precedence)
    requires Advances(c, d)
    requires m in c && !Takeable(c, m, p)
    ensures m in d && !Takeable(d, m, p)
  {
    PrecedenceOrder(c[m].precedence, d[m].precedence, p);
  }
}
