/** The data quality widget of `widgets/data_quality.py`: the status band of
    the quality score, the capped issue summary and recommendation list, and
    the report figures passed through to the dashboard. */
module DataQuality {
  import opened Common
  import opened Inventory
  import opened Validators

  /** The widget's own default for the required fields, which it always hands
      to the scorer (so the scorer's default never applies here). */
  const WidgetRequiredFields: seq<string> := ["name", "site", "status"]
  const DefaultMinQualityScore := 80.0
  /** The lowest score that is still a warning rather than critical. */
  const WarningFloor := 60.0

  datatype DataQualityConfig = DataQualityConfig(
    requiredFields: Option<seq<string>>,
    namingConventions: Option<map<string, string>>,
    minQualityScore: Option<real>)
  {
    function RequiredFields(): seq<string>
    {
      if requiredFields.Some? then requiredFields.value else WidgetRequiredFields
    }

    function NamingConventions(): map<string, string>
    {
      if namingConventions.Some? then namingConventions.value else map[]
    }

    function MinQualityScore(): real
    {
      if minQualityScore.Some? then minQualityScore.value else DefaultMinQualityScore
    }
  }

  datatype QualityStatus = Healthy | Warning | Critical

  /** How bad a status is: healthy 0, warning 1, critical 2. */
  function Badness(s: QualityStatus): nat
  {
    match s
    case Healthy => 0
    case Warning => 1
    case Critical => 2
  }

  /** The status band of a score against the configured minimum. */
  function StatusOf(score: real, minScore: real): (s: QualityStatus)
    ensures s == Healthy <==> score >= minScore
    ensures s == Warning <==> WarningFloor <= score < minScore
    ensures s == Critical <==> score < minScore && score < WarningFloor
  {
    if score >= minScore then Healthy
    else if score >= WarningFloor then Warning
    else Critical
  }

  /** A higher score never gets a worse status, and with a minimum at or
      below 60 no score is ever a warning. */
  lemma StatusMonotone(lower: real, higher: real, minScore: real)
    requires lower <= higher
    ensures Badness(StatusOf(higher, minScore)) <= Badness(StatusOf(lower, minScore))
    ensures minScore <= WarningFloor ==> StatusOf(lower, minScore) != Warning
  {
  }

  // ----------------------------------------------------------------- issues

  /** The issue lists of a report with nothing in them. */
  const NoIssues := Issues([], [], [], [], [], [])

  /** The issue lists as the dashboard shows them: at most 10 entries of
      missing fields, naming violations, missing addresses and devices without
      interfaces, and at most 5 groups of duplicate serials and MAC addresses. */
  function IssueSummary(issues: Issues): (r: Issues)
    ensures r.missingFields <= issues.missingFields && |r.missingFields| == Min(10, |issues.missingFields|)
    ensures r.namingViolations <= issues.namingViolations
            && |r.namingViolations| == Min(10, |issues.namingViolations|)
    ensures r.duplicateSerials <= issues.duplicateSerials
            && |r.duplicateSerials| == Min(5, |issues.duplicateSerials|)
    ensures r.duplicateMacs <= issues.duplicateMacs && |r.duplicateMacs| == Min(5, |issues.duplicateMacs|)
    ensures r.missingPrimaryIp <= issues.missingPrimaryIp
            && |r.missingPrimaryIp| == Min(10, |issues.missingPrimaryIp|)
    ensures r.noInterfaces <= issues.noInterfaces && |r.noInterfaces| == Min(10, |issues.noInterfaces|)
  {
    Issues(
      Take(issues.missingFields, 10),
      Take(issues.namingViolations, 10),
      Take(issues.duplicateSerials, 5),
      Take(issues.duplicateMacs, 5),
      Take(issues.missingPrimaryIp, 10),
      Take(issues.noInterfaces, 10))
  }

  /** Summarising twice shows the same as summarising once. */
  lemma SummaryIdempotent(issues: Issues)
    ensures IssueSummary(IssueSummary(issues)) == IssueSummary(issues)
  {
    var r := IssueSummary(issues);
    assert Take(r.missingFields, 10) == r.missingFields;
    assert Take(r.namingViolations, 10) == r.namingViolations;
    assert Take(r.duplicateSerials, 5) == r.duplicateSerials;
    assert Take(r.duplicateMacs, 5) == r.duplicateMacs;
    assert Take(r.missingPrimaryIp, 10) == r.missingPrimaryIp;
    assert Take(r.noInterfaces, 10) == r.noInterfaces;
  }

  // ---------------------------------------------------------------- context

  /** The widget context (without the emoji and the timestamp). */
  datatype DataQualityContext = DataQualityContext(
    qualityScore: real,
    status: QualityStatus,
    minScore: real,
    totalDevices: nat,
    compliantDevices: nat,
    nonCompliantDevices: int,
    totalIssues: nat,
    issueCounts: IssueCounts,
    issues: Issues,
    cableValidation: CableValidation,
    recommendations: seq<Recommendation>)

  /** The context as written: the issue lists are read from the report even
      when the scorer had no devices to evaluate and returned only a score,
      which raises a KeyError. */
  function ContextAsWritten(report: QualityReport, cables: CableValidation, recommendations: seq<Recommendation>,
                            minScore: real): (r: Result<DataQualityContext>)
    ensures r.Err? <==> report.NothingToEvaluate?
  {
    match report
    case NothingToEvaluate(_) => Err("KeyError: 'issues'")
    case Scored(score, total, compliant, nonCompliant, totalIssues, issues, details) =>
      Ok(DataQualityContext(score, StatusOf(score, minScore), minScore, total, compliant, nonCompliant,
                            totalIssues, details, IssueSummary(issues), cables, Take(recommendations, 5)))
  }

  /** The context of an empty inventory cannot be built as written, whatever
      the cables, recommendations and minimum score. */
  lemma EmptyInventoryRaises(cables: CableValidation, recommendations: seq<Recommendation>, minScore: real)
    ensures ContextAsWritten(NothingToEvaluate(100.0), cables, recommendations, minScore).Err?
  {
  }

  /** The context with the empty report read as an inventory of no devices
      and no issues. */
  function ContextOf(report: QualityReport, cables: CableValidation, recommendations: seq<Recommendation>,
                     minScore: real): (r: DataQualityContext)
    ensures r.qualityScore == report.score && r.status == StatusOf(report.score, minScore)
    ensures r.minScore == minScore && r.cableValidation == cables
    ensures r.recommendations <= recommendations && |r.recommendations| == Min(5, |recommendations|)
    ensures report.Scored? ==>
              && r.totalDevices == report.totalDevices
              && r.compliantDevices == report.compliantDevices
              && r.nonCompliantDevices == report.nonCompliantDevices
              && r.totalIssues == report.totalIssues
              && r.issueCounts == report.details
              && r.issues == IssueSummary(report.issues)
    ensures report.NothingToEvaluate? ==>
              r.totalDevices == 0 && r.compliantDevices == 0 && r.nonCompliantDevices == 0
              && r.totalIssues == 0 && r.issues == NoIssues && r.issueCounts == CountsOf(NoIssues)
  {
    match report
    case NothingToEvaluate(score) =>
      DataQualityContext(score, StatusOf(score, minScore), minScore, 0, 0, 0, 0, CountsOf(NoIssues),
                         NoIssues, cables, Take(recommendations, 5))
    case Scored(score, total, compliant, nonCompliant, totalIssues, issues, details) =>
      DataQualityContext(score, StatusOf(score, minScore), minScore, total, compliant, nonCompliant,
                         totalIssues, details, IssueSummary(issues), cables, Take(recommendations, 5))
  }

  /** Wherever the code as written succeeds, the corrected context is the one
      it builds. */
  lemma CorrectedAgrees(report: QualityReport, cables: CableValidation, recommendations: seq<Recommendation>,
                        minScore: real)
    requires report.Scored?
    ensures ContextAsWritten(report, cables, recommendations, minScore)
            == Ok(ContextOf(report, cables, recommendations, minScore))
  {
  }

  /** When the report's counts are those of its lists, each list shown holds
      the first entries of its category, as many as the count allows up to
      the category's cap. */
  lemma ShownWithinCounts(report: QualityReport, cables: CableValidation, recommendations: seq<Recommendation>,
                          minScore: real)
    requires report.Scored? && report.details == CountsOf(report.issues)
    ensures var r := ContextOf(report, cables, recommendations, minScore);
            && |r.issues.missingFields| == Min(10, r.issueCounts.missingFieldsCount)
            && |r.issues.namingViolations| == Min(10, r.issueCounts.namingViolationsCount)
            && |r.issues.duplicateSerials| == Min(5, r.issueCounts.duplicateSerialsCount)
            && |r.issues.duplicateMacs| == Min(5, r.issueCounts.duplicateMacsCount)
            && |r.issues.missingPrimaryIp| == Min(10, r.issueCounts.missingPrimaryIpCount)
            && |r.issues.noInterfaces| == Min(10, r.issueCounts.noInterfacesCount)
  {
  }

  /** `get_context_data` as written: it fails on an inventory without devices. */
  method DataQualityContextAsWritten(config: DataQualityConfig, devices: seq<Device>, interfaces: seq<Interface>,
                                     cables: seq<Cable>, matches: NameMatcher)
    returns (r: Result<DataQualityContext>)
    ensures r.Err? <==> |devices| == 0
  {
    var qualityData := CalculateDataQualityScore(devices, interfaces, Some(config.RequiredFields()),
                                                 Some(config.NamingConventions()), matches);
    var cableValidation := ValidateCableConnections(cables);
    var recommendations := GetDataQualityRecommendations(devices);
    r := ContextAsWritten(qualityData, cableValidation, recommendations, config.MinQualityScore());
  }

  /** `get_context_data`, with an empty inventory scoring 100 with no issues. */
  method DataQualityContextData(config: DataQualityConfig, devices: seq<Device>, interfaces: seq<Interface>,
                                cables: seq<Cable>, matches: NameMatcher)
    returns (ctx: DataQualityContext)
    ensures var fields, patterns := config.RequiredFields(), config.NamingConventions();
            var compliant := Count(devices, Compliant(fields, patterns, matches));
            && ctx.totalDevices == |devices|
            && ctx.compliantDevices == compliant
            && ctx.nonCompliantDevices == |devices| - compliant
            && ctx.qualityScore == Round1(Percent(compliant, |devices|, 100.0))
            && (|devices| > 0 ==>
                  var issues := IssuesOf(devices, interfaces, fields, patterns, matches);
                  && ctx.issues == IssueSummary(issues)
                  && ctx.totalIssues == TotalIssues(issues)
                  && ctx.issueCounts == CountsOf(issues))
    ensures |devices| == 0 ==> ctx.issues == NoIssues && ctx.totalIssues == 0 && ctx.issueCounts == CountsOf(NoIssues)
    ensures 0.0 <= ctx.qualityScore <= 100.0
    ensures ctx.status == StatusOf(ctx.qualityScore, config.MinQualityScore())
    ensures ctx.minScore == config.MinQualityScore()
    ensures ctx.cableValidation.totalCables == |cables|
    ensures ctx.cableValidation.validCables == Count(cables, CableValid)
    ensures ctx.cableValidation.invalidCablesCount == Count(cables, IsInvalid)
    ensures ctx.cableValidation.invalidCables == Take(Collect(cables, InvalidEntry), 50)
    ensures ctx.cableValidation.validationPassed <==> forall i :: 0 <= i < |cables| ==> CableValid(cables[i])
    ensures ctx.recommendations == Take(Recommendations(devices), 5)
  {
    var fields, patterns := config.RequiredFields(), config.NamingConventions();
    var qualityData := CalculateDataQualityScore(devices, interfaces, Some(fields), Some(patterns), matches);
    var cableValidation := ValidateCableConnections(cables);
    var recommendations := GetDataQualityRecommendations(devices);
    if |devices| > 0 {
      ScoreBounds(devices, fields, patterns, matches);
    } else {
      RoundInteger(100);
    }
    ctx := ContextOf(qualityData, cableValidation, recommendations, config.MinQualityScore());
  }
}
