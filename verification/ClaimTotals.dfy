/** Sums over the claim table, by what a claim contributes. */
module ClaimTotals {
  import opened EscrowTypes

  /** Which amount of a claim is summed. */
  datatype Part = AmountPart | PendingPart | AcceptedPart | DisputedPart | WaivedPart | LandlordPart | TenantPart

  function PartOf(c: Claim, p: Part): nat {
    match p
    case AmountPart => c.amount
    case PendingPart => if c.status.Pending? then c.amount else 0
    case AcceptedPart => if c.status.Accepted? then c.amount else 0
    case DisputedPart => if c.status.Disputed? then c.amount else 0
    case WaivedPart => if c.status.Waived? then c.amount else 0
    case LandlordPart => c.landlordAllocated
    case TenantPart => c.tenantAllocated
  }

  /** The sum of part `p` over the claims from claim `i` on. */
  function TotalFrom(cs: seq<Claim>, i: nat, p: Part): nat
    decreases |cs| - i
  {
    if i >= |cs| then 0 else PartOf(cs[i], p) + TotalFrom(cs, i + 1, p)
  }

  /** Replacing one claim changes a total by the difference of its part. */
  lemma {:induction false} TotalUpdate(cs: seq<Claim>, i: nat, k: nat, c: Claim, p: Part)
    requires k < |cs|
    ensures TotalFrom(cs[k := c], i, p) + (if i <= k then PartOf(cs[k], p) else 0)
         == TotalFrom(cs, i, p) + (if i <= k then PartOf(c, p) else 0)
    decreases |cs| - i
  {
    if i < |cs| { TotalUpdate(cs, i + 1, k, c, p); }
  }

  /** A total depends only on the claims it sums. */
  lemma {:induction false} TotalAgree(cs: seq<Claim>, ds: seq<Claim>, i: nat, p: Part)
    requires |cs| == |ds|
    requires forall j :: i <= j < |cs| ==> PartOf(cs[j], p) == PartOf(ds[j], p)
    ensures TotalFrom(cs, i, p) == TotalFrom(ds, i, p)
    decreases |cs| - i
  {
    if i < |cs| { TotalAgree(cs, ds, i + 1, p); }
  }

  /** A total is zero exactly when every part it sums is. */
  lemma {:induction false} TotalZero(cs: seq<Claim>, i: nat, p: Part)
    ensures TotalFrom(cs, i, p) == 0 <==> forall j :: i <= j < |cs| ==> PartOf(cs[j], p) == 0
    decreases |cs| - i
  {
    if i < |cs| { TotalZero(cs, i + 1, p); }
  }
}
