/** The pydantic record shapes of semantic_agent/models/market.py: markets, clusters and
    predicted relations, with their field constraints and defaults. */
module Models {
  import opened Wrappers

  /** `ResolvedOutcome = Literal["YES", "NO"]`. */
  datatype Outcome = YES | NO

  function OutcomeText(o: Outcome): string {
    match o
    case YES => "YES"
    case NO => "NO"
  }

  /** The inverse of `OutcomeText`: the only texts that name an outcome are "YES" and "NO". */
  function ParseOutcome(s: string): (r: Option<Outcome>)
    ensures r.Some? <==> s == "YES" || s == "NO"
    ensures r.Some? ==> OutcomeText(r.value) == s
  {
    if s == "YES" then Some(YES) else if s == "NO" then Some(NO) else None
  }

  lemma OutcomeTextRoundTrip(o: Outcome)
    ensures ParseOutcome(OutcomeText(o)) == Some(o)
  {
  }

  /** A `datetime`; only its ISO text matters to the modelled code. */
  datatype Timestamp = Timestamp(iso: string)

  datatype Market = Market(
    id: string,
    question: string,
    description: Option<string>,
    startTime: Option<Timestamp>,
    endTime: Option<Timestamp>,
    durationDays: Option<real>,
    tags: seq<string>,
    resolvedOutcome: Option<Outcome>,
    isBinary: bool,
    slug: Option<string>,
    source: string)

  /** The constraint pydantic checks on construction: `question` has `min_length=1`. */
  predicate ValidMarket(m: Market) {
    |m.question| >= 1
  }

  /** `Market(id=..., question=...)` with every other field left at its default. */
  function NewMarket(id: string, question: string): (m: Market)
    requires |question| >= 1
    ensures ValidMarket(m) && m.id == id && m.question == question
    ensures m.tags == [] && m.isBinary && m.source == "kaggle"
    ensures m.description.None? && m.startTime.None? && m.endTime.None?
    ensures m.durationDays.None? && m.resolvedOutcome.None? && m.slug.None?
  {
    Market(id, question, None, None, None, None, [], None, true, None, "kaggle")
  }

  datatype Cluster = Cluster(
    clusterId: string,
    marketIds: seq<string>,
    category: string,
    labelRationale: Option<string>)

  /** `Cluster(cluster_id=...)` with its defaults. */
  function NewCluster(clusterId: string): (c: Cluster)
    ensures c.clusterId == clusterId && c.marketIds == []
    ensures c.category == "other" && c.labelRationale.None?
  {
    Cluster(clusterId, [], "other", None)
  }

  datatype MarketRelation = MarketRelation(
    questionI: string,
    questionJ: string,
    marketIdI: string,
    marketIdJ: string,
    isSameOutcome: bool,
    confidence: real,
    rationale: string)

  /** `confidence_score: float = Field(..., ge=0.0, le=1.0)`. */
  predicate ValidRelation(r: MarketRelation) {
    0.0 <= r.confidence <= 1.0
  }

  /** A relation whose `rationale` was not given. */
  function NewRelation(questionI: string, questionJ: string, marketIdI: string, marketIdJ: string,
                       isSameOutcome: bool, confidence: real): (r: MarketRelation)
    requires 0.0 <= confidence <= 1.0
    ensures ValidRelation(r) && r.rationale == ""
    ensures r.marketIdI == marketIdI && r.marketIdJ == marketIdJ && r.confidence == confidence
  {
    MarketRelation(questionI, questionJ, marketIdI, marketIdJ, isSameOutcome, confidence, "")
  }

  datatype MarketRelationList = MarketRelationList(relations: seq<MarketRelation>)

  predicate ValidRelationList(l: MarketRelationList) {
    forall i :: 0 <= i < |l.relations| ==> ValidRelation(l.relations[i])
  }

  /** `MarketRelationList()` with `relations` left at its default. */
  function EmptyRelationList(): (l: MarketRelationList)
    ensures l.relations == [] && ValidRelationList(l)
  {
    MarketRelationList([])
  }

  /** `MarketRelationList.model_validate` on a dict whose items already have the right
      field types: it succeeds exactly when every confidence score lies in [0, 1]. */
  function ValidateRelations(relations: seq<MarketRelation>): (r: Option<MarketRelationList>)
    ensures r.Some? <==> forall i :: 0 <= i < |relations| ==> ValidRelation(relations[i])
    ensures r.Some? ==> r.value.relations == relations && ValidRelationList(r.value)
  {
    if forall i :: 0 <= i < |relations| ==> ValidRelation(relations[i])
    then Some(MarketRelationList(relations)) else None
  }
}
