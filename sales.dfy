/** The sales store of src/store/salesStore.ts: deals, their activities and
    proposals, per-period forecasts and commissions. `new Date()` is the
    parameter `now`. */
module Sales {
  import opened Maybe
  import opened Tables

  type Id = string
  type Time = int

  datatype DealStage = Lead | Qualified | ProposalStage | Negotiation | ClosedWon | ClosedLost
  datatype DealPriority = Low | Medium | High
  datatype ActivityKind = Call | Email | MeetingActivity | TaskActivity | NoteActivity
  datatype ProposalStatus = Draft | Sent | AcceptedProposal | Rejected | Expired
  datatype CommissionStatus = Pending | Approved | Paid

  datatype Deal = Deal(
    id: Id, clientId: Id, name: string, value: real, stage: DealStage,
    priority: DealPriority, probability: real, assignedTo: Id,
    createdAt: Time, updatedAt: Time)

  datatype DealPatch = DealPatch(
    id: Option<Id>, clientId: Option<Id>, name: Option<string>, value: Option<real>,
    stage: Option<DealStage>, priority: Option<DealPriority>, probability: Option<real>,
    assignedTo: Option<Id>, createdAt: Option<Time>)

  datatype SalesActivity = SalesActivity(
    id: Id, dealId: Id, kind: ActivityKind, description: string, outcome: Option<string>,
    scheduledAt: Time, completedAt: Option<Time>, assignedTo: Id, createdAt: Time, updatedAt: Time)

  datatype ActivityPatch = ActivityPatch(
    id: Option<Id>, dealId: Option<Id>, kind: Option<ActivityKind>, description: Option<string>,
    outcome: Option<string>, scheduledAt: Option<Time>, completedAt: Option<Time>,
    assignedTo: Option<Id>, createdAt: Option<Time>)

  datatype Proposal = Proposal(
    id: Id, dealId: Id, version: int, status: ProposalStatus, totalValue: real,
    sentAt: Option<Time>, createdAt: Time, updatedAt: Time)

  datatype ProposalPatch = ProposalPatch(
    id: Option<Id>, dealId: Option<Id>, version: Option<int>, status: Option<ProposalStatus>,
    totalValue: Option<real>, sentAt: Option<Time>, createdAt: Option<Time>)

  datatype SalesForecast = SalesForecast(period: string, predictedRevenue: real, accuracy: real, lastUpdated: Time)

  datatype Commission = Commission(
    id: Id, dealId: Id, salesRepId: Id, amount: real, rate: real, status: CommissionStatus,
    paidAt: Option<Time>, createdAt: Time, updatedAt: Time)

  datatype CommissionPatch = CommissionPatch(
    id: Option<Id>, dealId: Option<Id>, salesRepId: Option<Id>, amount: Option<real>,
    rate: Option<real>, status: Option<CommissionStatus>, paidAt: Option<Time>, createdAt: Option<Time>)

  /** `{ ...deal, ...updates, updatedAt: now }` */
  function MergeDeal(d: Deal, u: DealPatch, now: Time): Deal
  {
    Deal(Or(u.id, d.id), Or(u.clientId, d.clientId), Or(u.name, d.name), Or(u.value, d.value),
         Or(u.stage, d.stage), Or(u.priority, d.priority), Or(u.probability, d.probability),
         Or(u.assignedTo, d.assignedTo), Or(u.createdAt, d.createdAt), now)
  }

  /** `{ ...activity, ...updates, updatedAt: now }` */
  function MergeActivity(a: SalesActivity, u: ActivityPatch, now: Time): SalesActivity
  {
    SalesActivity(Or(u.id, a.id), Or(u.dealId, a.dealId), Or(u.kind, a.kind),
                  Or(u.description, a.description), OrElse(u.outcome, a.outcome),
                  Or(u.scheduledAt, a.scheduledAt), OrElse(u.completedAt, a.completedAt),
                  Or(u.assignedTo, a.assignedTo), Or(u.createdAt, a.createdAt), now)
  }

  /** `{ ...proposal, ...updates, updatedAt: now }` */
  function MergeProposal(p: Proposal, u: ProposalPatch, now: Time): Proposal
  {
    Proposal(Or(u.id, p.id), Or(u.dealId, p.dealId), Or(u.version, p.version), Or(u.status, p.status),
             Or(u.totalValue, p.totalValue), OrElse(u.sentAt, p.sentAt), Or(u.createdAt, p.createdAt), now)
  }

  /** `{ ...commission, ...updates, updatedAt: now }` */
  function MergeCommission(c: Commission, u: CommissionPatch, now: Time): Commission
  {
    Commission(Or(u.id, c.id), Or(u.dealId, c.dealId), Or(u.salesRepId, c.salesRepId),
               Or(u.amount, c.amount), Or(u.rate, c.rate), Or(u.status, c.status),
               OrElse(u.paidAt, c.paidAt), Or(u.createdAt, c.createdAt), now)
  }

  // ---------------------------------------------------------------------------
  // Table transitions

  /** `updateDeal`'s new table: the deals with the id merged and stamped, the rest as they were. */
  function DealsUpdated(deals: seq<Deal>, id: Id, u: DealPatch, now: Time): (r: seq<Deal>)
    ensures |r| == |deals|
    ensures forall i :: 0 <= i < |deals| && deals[i].id == id ==>
      r[i] == MergeDeal(deals[i], u, now) && r[i].updatedAt == now
    ensures forall i :: 0 <= i < |deals| && deals[i].id != id ==> r[i] == deals[i]
  {
    MapIf(deals, (d: Deal) => d.id == id, (d: Deal) => MergeDeal(d, u, now))
  }

  /** The deals without this id, in order. */
  function DealsWithout(deals: seq<Deal>, id: Id): (r: seq<Deal>)
    ensures forall d | d in r :: d in deals && d.id != id
    ensures forall d | d in deals && d.id != id :: d in r
  {
    Filter(deals, (d: Deal) => d.id != id)
  }

  /** The activities of every deal but this one, in order. */
  function ActivitiesNotOfDeal(activities: seq<SalesActivity>, dealId: Id): (r: seq<SalesActivity>)
    ensures forall a | a in r :: a in activities && a.dealId != dealId
    ensures forall a | a in activities && a.dealId != dealId :: a in r
  {
    Filter(activities, (a: SalesActivity) => a.dealId != dealId)
  }

  /** The proposals of every deal but this one, in order. */
  function ProposalsNotOfDeal(proposals: seq<Proposal>, dealId: Id): (r: seq<Proposal>)
    ensures forall p | p in r :: p in proposals && p.dealId != dealId
    ensures forall p | p in proposals && p.dealId != dealId :: p in r
  {
    Filter(proposals, (p: Proposal) => p.dealId != dealId)
  }

  /** `updateActivity`'s new table. */
  function ActivitiesUpdated(activities: seq<SalesActivity>, id: Id, u: ActivityPatch, now: Time): (r: seq<SalesActivity>)
    ensures |r| == |activities|
    ensures forall i :: 0 <= i < |activities| && activities[i].id == id ==>
      r[i] == MergeActivity(activities[i], u, now) && r[i].updatedAt == now
    ensures forall i :: 0 <= i < |activities| && activities[i].id != id ==> r[i] == activities[i]
  {
    MapIf(activities, (a: SalesActivity) => a.id == id, (a: SalesActivity) => MergeActivity(a, u, now))
  }

  /** The activities without this id, in order. */
  function ActivitiesWithout(activities: seq<SalesActivity>, id: Id): (r: seq<SalesActivity>)
    ensures forall a | a in r :: a in activities && a.id != id
    ensures forall a | a in activities && a.id != id :: a in r
  {
    Filter(activities, (a: SalesActivity) => a.id != id)
  }

  /** `updateProposal`'s new table. */
  function ProposalsUpdated(proposals: seq<Proposal>, id: Id, u: ProposalPatch, now: Time): (r: seq<Proposal>)
    ensures |r| == |proposals|
    ensures forall i :: 0 <= i < |proposals| && proposals[i].id == id ==>
      r[i] == MergeProposal(proposals[i], u, now) && r[i].updatedAt == now
    ensures forall i :: 0 <= i < |proposals| && proposals[i].id != id ==> r[i] == proposals[i]
  {
    MapIf(proposals, (p: Proposal) => p.id == id, (p: Proposal) => MergeProposal(p, u, now))
  }

  /** The proposals without this id, in order. */
  function ProposalsWithout(proposals: seq<Proposal>, id: Id): (r: seq<Proposal>)
    ensures forall p | p in r :: p in proposals && p.id != id
    ensures forall p | p in proposals && p.id != id :: p in r
  {
    Filter(proposals, (p: Proposal) => p.id != id)
  }

  /** `updateCommission`'s new table. */
  function CommissionsUpdated(commissions: seq<Commission>, id: Id, u: CommissionPatch, now: Time): (r: seq<Commission>)
    ensures |r| == |commissions|
    ensures forall i :: 0 <= i < |commissions| && commissions[i].id == id ==>
      r[i] == MergeCommission(commissions[i], u, now) && r[i].updatedAt == now
    ensures forall i :: 0 <= i < |commissions| && commissions[i].id != id ==> r[i] == commissions[i]
  {
    MapIf(commissions, (c: Commission) => c.id == id, (c: Commission) => MergeCommission(c, u, now))
  }

  /** The commissions without this id, in order. */
  function CommissionsWithout(commissions: seq<Commission>, id: Id): (r: seq<Commission>)
    ensures forall c | c in r :: c in commissions && c.id != id
    ensures forall c | c in commissions && c.id != id :: c in r
  {
    Filter(commissions, (c: Commission) => c.id != id)
  }

  /** The forecasts for this period, in order. */
  function ForecastsFor(forecasts: seq<SalesForecast>, period: string): (r: seq<SalesForecast>)
    ensures forall f | f in r :: f in forecasts && f.period == period
    ensures forall f | f in forecasts && f.period == period :: f in r
  {
    Filter(forecasts, (f: SalesForecast) => f.period == period)
  }

  /** The forecasts for every other period, in order. */
  function ForecastsNotFor(forecasts: seq<SalesForecast>, period: string): (r: seq<SalesForecast>)
    ensures forall f | f in r :: f in forecasts && f.period != period
    ensures forall f | f in forecasts && f.period != period :: f in r
  {
    Filter(forecasts, (f: SalesForecast) => f.period != period)
  }

  /** `updateForecast`'s new table: the forecasts of the other periods, then `f`. */
  function Upserted(forecasts: seq<SalesForecast>, f: SalesForecast): (r: seq<SalesForecast>)
    ensures |r| > 0 && r[|r| - 1] == f
    ensures forall g | g in r :: g == f || (g in forecasts && g.period != f.period)
  {
    ForecastsNotFor(forecasts, f.period) + [f]
  }

  /** `getForecastByPeriod`: the first forecast for the period, if any. */
  function ForecastByPeriod(forecasts: seq<SalesForecast>, period: string): (r: Option<SalesForecast>)
    ensures r.None? <==> forall i :: 0 <= i < |forecasts| ==> forecasts[i].period != period
    ensures r.Some? ==> r.value in forecasts && r.value.period == period
    ensures r.Some? ==> exists i :: 0 <= i < |forecasts| && forecasts[i] == r.value && forall j :: 0 <= j < i ==> forecasts[j].period != period
  {
    Find(forecasts, (f: SalesForecast) => f.period == period)
  }

  /** `getDealsByStage`: the deals in this stage, in order. */
  function DealsInStage(deals: seq<Deal>, stage: DealStage): (r: seq<Deal>)
    ensures forall d | d in r :: d in deals && d.stage == stage
    ensures forall d | d in deals && d.stage == stage :: d in r
  {
    Filter(deals, (d: Deal) => d.stage == stage)
  }

  /** `getCommissionsBySalesRep`: the commissions of this sales rep, in order. */
  function CommissionsOfRep(commissions: seq<Commission>, salesRepId: Id): (r: seq<Commission>)
    ensures forall c | c in r :: c in commissions && c.salesRepId == salesRepId
    ensures forall c | c in commissions && c.salesRepId == salesRepId :: c in r
  {
    Filter(commissions, (c: Commission) => c.salesRepId == salesRepId)
  }

  // ---------------------------------------------------------------------------
  // Properties

  /** After `updateForecast(f)` exactly one forecast has `f`'s period, and it is `f`. */
  lemma {:induction false} UpsertLeavesOnlyNew(forecasts: seq<SalesForecast>, f: SalesForecast)
    ensures ForecastsFor(Upserted(forecasts, f), f.period) == [f]
  {
    var others := ForecastsNotFor(forecasts, f.period);
    FilterConcat(others, [f], (g: SalesForecast) => g.period == f.period);
    FilterKeepsNone(others, (g: SalesForecast) => g.period == f.period);
  }

  /** `updateForecast(f)` keeps the forecasts of every other period in their relative order. */
  lemma {:induction false} UpsertKeepsOtherPeriods(forecasts: seq<SalesForecast>, f: SalesForecast, period: string)
    requires period != f.period
    ensures ForecastsFor(Upserted(forecasts, f), period) == ForecastsFor(forecasts, period)
  {
    var notF := (g: SalesForecast) => g.period != f.period;
    var isP := (g: SalesForecast) => g.period == period;
    FilterConcat(ForecastsNotFor(forecasts, f.period), [f], isP);
    FilterFilter(forecasts, notF, isP, isP);
  }

  /** After `updateForecast(f)`, `getForecastByPeriod(f.period)` returns `f`. */
  lemma {:induction false} UpsertThenLookup(forecasts: seq<SalesForecast>, f: SalesForecast)
    ensures ForecastByPeriod(Upserted(forecasts, f), f.period) == Some(f)
  {
    var others := ForecastsNotFor(forecasts, f.period);
    FindSkips(others, [f], (g: SalesForecast) => g.period == f.period);
  }

  /** `updateForecast` with the same forecast twice is the same as once. */
  lemma {:induction false} UpsertIdempotent(forecasts: seq<SalesForecast>, f: SalesForecast)
    ensures Upserted(Upserted(forecasts, f), f) == Upserted(forecasts, f)
  {
    var notF := (g: SalesForecast) => g.period != f.period;
    var others := ForecastsNotFor(forecasts, f.period);
    FilterConcat(others, [f], notF);
    FilterIdempotent(forecasts, notF);
  }

  /** The ids of a deal table. */
  function DealIds(deals: seq<Deal>): set<Id>
  {
    set d | d in deals :: d.id
  }

  /** Every activity and every proposal names a stored deal. */
  predicate Linked(deals: seq<Deal>, activities: seq<SalesActivity>, proposals: seq<Proposal>)
  {
    && (forall a | a in activities :: a.dealId in DealIds(deals))
    && (forall p | p in proposals :: p.dealId in DealIds(deals))
  }

  /** The `deleteDeal` cascade keeps every remaining activity and proposal attached
      to a remaining deal, and leaves none attached to the deleted deal. */
  lemma DeleteDealKeepsLinks(deals: seq<Deal>, activities: seq<SalesActivity>, proposals: seq<Proposal>, id: Id)
    requires Linked(deals, activities, proposals)
    ensures Linked(DealsWithout(deals, id), ActivitiesNotOfDeal(activities, id), ProposalsNotOfDeal(proposals, id))
    ensures id !in DealIds(DealsWithout(deals, id))
  {
    var kept := DealsWithout(deals, id);
    forall a | a in ActivitiesNotOfDeal(activities, id) ensures a.dealId in DealIds(kept) {
      var d :| d in deals && d.id == a.dealId;
      assert d in kept;
    }
    forall p | p in ProposalsNotOfDeal(proposals, id) ensures p.dealId in DealIds(kept) {
      var d :| d in deals && d.id == p.dealId;
      assert d in kept;
    }
  }

  // ---------------------------------------------------------------------------
  // The store

  class SalesStore {
    var deals: seq<Deal>
    var activities: seq<SalesActivity>
    var proposals: seq<Proposal>
    var forecasts: seq<SalesForecast>
    var commissions: seq<Commission>
    var selectedDealId: Option<Id>

    constructor ()
      ensures deals == [] && activities == [] && proposals == [] && forecasts == [] && commissions == []
      ensures selectedDealId.None?
    {
      deals, activities, proposals, forecasts, commissions := [], [], [], [], [];
      selectedDealId := None;
    }

    /** `addDeal`: appends; no other table changes. */
    method AddDeal(deal: Deal)
      modifies this
      ensures deals == old(deals) + [deal]
      ensures activities == old(activities) && proposals == old(proposals)
      ensures forecasts == old(forecasts) && commissions == old(commissions) && selectedDealId == old(selectedDealId)
    {
      deals := deals + [deal];
    }

    /** `updateDeal`: merges and stamps exactly the deals with the id. */
    method UpdateDeal(dealId: Id, updates: DealPatch, now: Time)
      modifies this
      ensures deals == DealsUpdated(old(deals), dealId, updates, now)
      ensures activities == old(activities) && proposals == old(proposals)
      ensures forecasts == old(forecasts) && commissions == old(commissions) && selectedDealId == old(selectedDealId)
    {
      deals := DealsUpdated(deals, dealId, updates, now);
    }

    /** `deleteDeal`: removes the deal with its activities and proposals;
        forecasts and commissions are untouched. */
    method DeleteDeal(dealId: Id)
      modifies this
      ensures deals == DealsWithout(old(deals), dealId)
      ensures activities == ActivitiesNotOfDeal(old(activities), dealId)
      ensures proposals == ProposalsNotOfDeal(old(proposals), dealId)
      ensures old(Linked(deals, activities, proposals)) ==> Linked(deals, activities, proposals)
      ensures forecasts == old(forecasts) && commissions == old(commissions) && selectedDealId == old(selectedDealId)
    {
      if Linked(deals, activities, proposals) {
        DeleteDealKeepsLinks(deals, activities, proposals, dealId);
      }
      deals := DealsWithout(deals, dealId);
      activities := ActivitiesNotOfDeal(activities, dealId);
      proposals := ProposalsNotOfDeal(proposals, dealId);
    }

    /** `addActivity`: appends. */
    method AddActivity(activity: SalesActivity)
      modifies this
      ensures activities == old(activities) + [activity]
      ensures deals == old(deals) && proposals == old(proposals)
      ensures forecasts == old(forecasts) && commissions == old(commissions) && selectedDealId == old(selectedDealId)
    {
      activities := activities + [activity];
    }

    /** `updateActivity`: merges and stamps exactly the activities with the id. */
    method UpdateActivity(activityId: Id, updates: ActivityPatch, now: Time)
      modifies this
      ensures activities == ActivitiesUpdated(old(activities), activityId, updates, now)
      ensures deals == old(deals) && proposals == old(proposals)
      ensures forecasts == old(forecasts) && commissions == old(commissions) && selectedDealId == old(selectedDealId)
    {
      activities := ActivitiesUpdated(activities, activityId, updates, now);
    }

    /** `deleteActivity`: removes the activities with the id, keeps the rest in order. */
    method DeleteActivity(activityId: Id)
      modifies this
      ensures activities == ActivitiesWithout(old(activities), activityId)
      ensures deals == old(deals) && proposals == old(proposals)
      ensures forecasts == old(forecasts) && commissions == old(commissions) && selectedDealId == old(selectedDealId)
    {
      activities := ActivitiesWithout(activities, activityId);
    }

    /** `addProposal`: appends. */
    method AddProposal(proposal: Proposal)
      modifies this
      ensures proposals == old(proposals) + [proposal]
      ensures deals == old(deals) && activities == old(activities)
      ensures forecasts == old(forecasts) && commissions == old(commissions) && selectedDealId == old(selectedDealId)
    {
      proposals := proposals + [proposal];
    }

    /** `updateProposal`: merges and stamps exactly the proposals with the id. */
    method UpdateProposal(proposalId: Id, updates: ProposalPatch, now: Time)
      modifies this
      ensures proposals == ProposalsUpdated(old(proposals), proposalId, updates, now)
      ensures deals == old(deals) && activities == old(activities)
      ensures forecasts == old(forecasts) && commissions == old(commissions) && selectedDealId == old(selectedDealId)
    {
      proposals := ProposalsUpdated(proposals, proposalId, updates, now);
    }

    /** `deleteProposal`: removes the proposals with the id, keeps the rest in order. */
    method DeleteProposal(proposalId: Id)
      modifies this
      ensures proposals == ProposalsWithout(old(proposals), proposalId)
      ensures deals == old(deals) && activities == old(activities)
      ensures forecasts == old(forecasts) && commissions == old(commissions) && selectedDealId == old(selectedDealId)
    {
      proposals := ProposalsWithout(proposals, proposalId);
    }

    /** `updateForecast`: replaces the forecasts of `f`'s period by `f`, placed last. */
    method UpdateForecast(forecast: SalesForecast)
      modifies this
      ensures forecasts == Upserted(old(forecasts), forecast)
      ensures ForecastsFor(forecasts, forecast.period) == [forecast]
      ensures GetForecastByPeriod(forecast.period) == Some(forecast)
      ensures deals == old(deals) && activities == old(activities) && proposals == old(proposals)
      ensures commissions == old(commissions) && selectedDealId == old(selectedDealId)
    {
      UpsertLeavesOnlyNew(forecasts, forecast);
      UpsertThenLookup(forecasts, forecast);
      forecasts := Upserted(forecasts, forecast);
    }

    /** `addCommission`: appends. */
    method AddCommission(commission: Commission)
      modifies this
      ensures commissions == old(commissions) + [commission]
      ensures deals == old(deals) && activities == old(activities) && proposals == old(proposals)
      ensures forecasts == old(forecasts) && selectedDealId == old(selectedDealId)
    {
      commissions := commissions + [commission];
    }

    /** `updateCommission`: merges and stamps exactly the commissions with the id. */
    method UpdateCommission(commissionId: Id, updates: CommissionPatch, now: Time)
      modifies this
      ensures commissions == CommissionsUpdated(old(commissions), commissionId, updates, now)
      ensures deals == old(deals) && activities == old(activities) && proposals == old(proposals)
      ensures forecasts == old(forecasts) && selectedDealId == old(selectedDealId)
    {
      commissions := CommissionsUpdated(commissions, commissionId, updates, now);
    }

    /** `deleteCommission`: removes the commissions with the id, keeps the rest in order. */
    method DeleteCommission(commissionId: Id)
      modifies this
      ensures commissions == CommissionsWithout(old(commissions), commissionId)
      ensures deals == old(deals) && activities == old(activities) && proposals == old(proposals)
      ensures forecasts == old(forecasts) && selectedDealId == old(selectedDealId)
    {
      commissions := CommissionsWithout(commissions, commissionId);
    }

    /** `setSelectedDeal`: changes the selection only. */
    method SetSelectedDeal(dealId: Option<Id>)
      modifies this
      ensures selectedDealId == dealId
      ensures deals == old(deals) && activities == old(activities) && proposals == old(proposals)
      ensures forecasts == old(forecasts) && commissions == old(commissions)
    {
      selectedDealId := dealId;
    }

    /** `getDealsByStage`. */
    function GetDealsByStage(stage: DealStage): (r: seq<Deal>)
      reads this
      ensures forall d | d in r :: d in deals && d.stage == stage
      ensures forall d | d in deals && d.stage == stage :: d in r
    {
      DealsInStage(deals, stage)
    }

    /** `getForecastByPeriod`. */
    function GetForecastByPeriod(period: string): (r: Option<SalesForecast>)
      reads this
      ensures r.None? <==> forall i :: 0 <= i < |forecasts| ==> forecasts[i].period != period
      ensures r.Some? ==> r.value in forecasts && r.value.period == period
      ensures r.Some? ==> exists i :: 0 <= i < |forecasts| && forecasts[i] == r.value && forall j :: 0 <= j < i ==> forecasts[j].period != period
    {
      ForecastByPeriod(forecasts, period)
    }

    /** `getCommissionsBySalesRep`. */
    function GetCommissionsBySalesRep(salesRepId: Id): (r: seq<Commission>)
      reads this
      ensures forall c | c in r :: c in commissions && c.salesRepId == salesRepId
      ensures forall c | c in commissions && c.salesRepId == salesRepId :: c in r
    {
      CommissionsOfRep(commissions, salesRepId)
    }
  }
}
