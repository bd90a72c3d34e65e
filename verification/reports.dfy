/**
 * The rules of a CSR impact report (`csr.report` in models/report.py):
 * which pledges it covers, its default period and name, the impact score,
 * the on-track verdict, the rule-based AI summary, the recommendations,
 * and the truncation of names in the PDF table. Pledges reach the report
 * as records read from the database, in the database's order.
 */
module Reports {
  import opened Wrappers
  import opened Text
  import opened Pledges

  /** The fields of a `csr.pledge` the report reads. */
  datatype PledgeRecord = PledgeRecord(
    id: nat,
    title: string,
    departmentId: nat,
    departmentName: string,
    status: Status,
    progressPercent: real)

  /** `status_filter`: `all`, one status, or unset (the field is optional, so it can hold `False`). */
  datatype StatusFilter = All | Only(status: Status) | Unset

  /** One clause of a search domain. */
  datatype Clause =
    | IdIn(ids: seq<nat>)             // ('id', 'in', ids)
    | StatusNot(excluded: Status)     // ('status', '!=', s)
    | DepartmentIn(deptIds: seq<nat>) // ('department_id', 'in', ids)
    | StatusIs(wanted: Status)        // ('status', '=', s)
    | StatusUnset                     // ('status', '=', False)

  // ---------------------------------------------------------------------
  // _get_filtered_pledges (models/report.py:98-120)
  // ---------------------------------------------------------------------

  /**
   * The domain the report searches with; `None` when the report neither
   * includes everything nor lists pledges, in which case no search runs.
   */
  function Domain(includeAll: bool, pledgeIds: seq<nat>, departmentIds: seq<nat>, filter: StatusFilter)
    : (d: Option<seq<Clause>>)
    ensures d.None? <==> !includeAll && pledgeIds == []
    ensures d.Some? ==>
      |d.value| >= 1 && d.value[0] == (if includeAll then StatusNot(Draft) else IdIn(pledgeIds))
    ensures d.Some? ==> (DepartmentIn(departmentIds) in d.value <==> departmentIds != [])
    ensures d.Some? ==> forall s :: StatusIs(s) in d.value <==> filter == Only(s)
    ensures d.Some? ==> (StatusUnset in d.value <==> filter == Unset)
    ensures d.Some? ==> |d.value| == 1 + (if departmentIds != [] then 1 else 0) + (if filter != All then 1 else 0)
  {
    if !includeAll && pledgeIds == [] then None
    else
      var scope := if includeAll then [StatusNot(Draft)] else [IdIn(pledgeIds)];
      var byDept := if departmentIds != [] then [DepartmentIn(departmentIds)] else [];
      var byStatus := match filter
        case All => []
        case Only(s) => [StatusIs(s)]
        case Unset => [StatusUnset];
      Some(scope + byDept + byStatus)
  }

  /** Builds the domain clause by clause, as `_get_filtered_pledges` does. */
  method BuildDomain(includeAll: bool, pledgeIds: seq<nat>, departmentIds: seq<nat>, filter: StatusFilter)
    returns (domain: Option<seq<Clause>>)
    ensures domain == Domain(includeAll, pledgeIds, departmentIds, filter)
  {
    var clauses: seq<Clause> := [];
    if !includeAll {
      if pledgeIds != [] {
        clauses := clauses + [IdIn(pledgeIds)];
      } else {
        return None;
      }
    } else {
      clauses := clauses + [StatusNot(Draft)];
    }
    ghost var scope := clauses;
    assert scope == if includeAll then [StatusNot(Draft)] else [IdIn(pledgeIds)];
    if departmentIds != [] {
      clauses := clauses + [DepartmentIn(departmentIds)];
    }
    ghost var byDept := if departmentIds != [] then [DepartmentIn(departmentIds)] else [];
    assert clauses == scope + byDept;
    if filter != All {
      // the source has separate branches for `draft` and the other values; both add an equality clause
      if filter == Only(Draft) {
        clauses := clauses + [StatusIs(Draft)];
      } else if filter.Only? {
        clauses := clauses + [StatusIs(filter.status)];
      } else {
        clauses := clauses + [StatusUnset];
      }
    }
    ghost var byStatus := match filter
      case All => []
      case Only(s) => [StatusIs(s)]
      case Unset => [StatusUnset];
    assert clauses == scope + byDept + byStatus;
    domain := Some(clauses);
  }

  predicate Satisfies(p: PledgeRecord, c: Clause) {
    match c
    case IdIn(ids) => p.id in ids
    case StatusNot(s) => p.status != s
    case DepartmentIn(ids) => p.departmentId in ids
    case StatusIs(s) => p.status == s
    case StatusUnset => false   // every pledge has a status
  }

  predicate SatisfiesAll(p: PledgeRecord, domain: seq<Clause>) {
    forall c :: c in domain ==> Satisfies(p, c)
  }

  /** `search(domain)` over the table `db`: the matching records, in the table's order. */
  function Search(db: seq<PledgeRecord>, domain: seq<Clause>): (found: seq<PledgeRecord>)
    ensures |found| <= |db|
    ensures forall p :: p in found <==> p in db && SatisfiesAll(p, domain)
  {
    if db == [] then []
    else
      var rest := Search(db[..|db| - 1], domain);
      var p := db[|db| - 1];
      assert db == db[..|db| - 1] + [p];
      if SatisfiesAll(p, domain) then rest + [p] else rest
  }

  /** The pledges a report covers. */
  function Scope(db: seq<PledgeRecord>, includeAll: bool, pledgeIds: seq<nat>, departmentIds: seq<nat>, filter: StatusFilter)
    : seq<PledgeRecord>
  {
    match Domain(includeAll, pledgeIds, departmentIds, filter)
    case None => []
    case Some(domain) => Search(db, domain)
  }

  /** What the scope holds, clause by clause. */
  lemma ScopeMembers(db: seq<PledgeRecord>, includeAll: bool, pledgeIds: seq<nat>, departmentIds: seq<nat>,
                     filter: StatusFilter, p: PledgeRecord)
    ensures p in Scope(db, includeAll, pledgeIds, departmentIds, filter) <==>
      p in db
      && (if includeAll then p.status != Draft else p.id in pledgeIds)
      && (departmentIds != [] ==> p.departmentId in departmentIds)
      && (filter.Only? ==> p.status == filter.status)
      && filter != Unset
  {
    var d := Domain(includeAll, pledgeIds, departmentIds, filter);
    if d.Some? {
      var domain := d.value;
      if p in db && SatisfiesAll(p, domain) {
        assert Satisfies(p, domain[0]);
        if departmentIds != [] {
          assert Satisfies(p, DepartmentIn(departmentIds));
        }
        if filter.Only? {
          assert Satisfies(p, StatusIs(filter.status));
        }
        NoRecordIsUnset(p, domain);
      }
    }
  }

  /** A domain a record satisfies holds no `('status', '=', False)` clause. */
  lemma NoRecordIsUnset(p: PledgeRecord, domain: seq<Clause>)
    requires SatisfiesAll(p, domain)
    ensures StatusUnset !in domain
  {
    assert !Satisfies(p, StatusUnset);
  }

  /** Including all pledges while filtering on `draft` asks for contradictory statuses: nothing is found. */
  lemma IncludeAllDraftIsEmpty(db: seq<PledgeRecord>, pledgeIds: seq<nat>, departmentIds: seq<nat>)
    ensures Scope(db, true, pledgeIds, departmentIds, Only(Draft)) == []
  {
    var found := Scope(db, true, pledgeIds, departmentIds, Only(Draft));
    if found != [] {
      ScopeMembers(db, true, pledgeIds, departmentIds, Only(Draft), found[0]);
    }
  }

  /** An unset status filter asks for a status no pledge lacks: nothing is found. */
  lemma UnsetFilterIsEmpty(db: seq<PledgeRecord>, includeAll: bool, pledgeIds: seq<nat>, departmentIds: seq<nat>)
    ensures Scope(db, includeAll, pledgeIds, departmentIds, Unset) == []
  {
    var found := Scope(db, includeAll, pledgeIds, departmentIds, Unset);
    if found != [] {
      ScopeMembers(db, includeAll, pledgeIds, departmentIds, Unset, found[0]);
    }
  }

  // ---------------------------------------------------------------------
  // Period default and name (models/report.py:22, 63-66)
  // ---------------------------------------------------------------------

  /** `((month - 1) // 3) + 1`. */
  function Quarter(month: nat): (q: nat)
    requires 1 <= month <= 12
    ensures 1 <= q <= 4
    ensures 3 * (q - 1) < month <= 3 * q
  {
    (month - 1) / 3 + 1
  }

  /** The default `period`, `YYYY-Qn`, from the current year and month. */
  function DefaultPeriod(year: nat, month: nat): (period: string)
    requires 1 <= month <= 12
    ensures |period| == |NatToString(year)| + 3
    ensures period[..|period| - 3] == NatToString(year)
    ensures period[|period| - 3..] == "-Q" + [DigitChar(Quarter(month))]
  {
    var period := NatToString(year) + "-Q" + NatToString(Quarter(month));
    assert period[..|period| - 3] == NatToString(year);
    period
  }

  /** Reading the period back gives the year and the quarter it was made from. */
  lemma DefaultPeriodReadBack(year: nat, month: nat)
    requires 1 <= month <= 12
    ensures var period := DefaultPeriod(year, month);
      DecimalValue(period[..|period| - 3]) == year
      && period[|period| - 3..|period| - 1] == "-Q"
      && IsDigit(period[|period| - 1]) && DigitValue(period[|period| - 1]) == Quarter(month)
  {
    NatToStringRoundTrip(year);
    var period := DefaultPeriod(year, month);
    assert period[|period| - 1] == (period[|period| - 3..])[2];
  }

  const NamePrefix: string := "CSR Report - "

  /** `_compute_name`: the period after a fixed prefix. */
  function ReportName(period: string): (name: string)
    ensures StartsWith(name, NamePrefix) && name[|NamePrefix|..] == period
  {
    NamePrefix + period
  }

  // ---------------------------------------------------------------------
  // Impact score (models/report.py:68-75)
  // ---------------------------------------------------------------------

  function SumProgress(ps: seq<PledgeRecord>): real {
    if ps == [] then 0.0 else SumProgress(ps[..|ps| - 1]) + ps[|ps| - 1].progressPercent
  }

  /** The mean progress of the pledges, 0.0 for none. */
  function ImpactScore(ps: seq<PledgeRecord>): (score: real)
    ensures ps == [] ==> score == 0.0
    ensures ps != [] ==> score * (|ps| as real) == SumProgress(ps)
  {
    if ps != [] then SumProgress(ps) / (|ps| as real) else 0.0
  }

  lemma {:induction false} SumBounds(ps: seq<PledgeRecord>, lo: real, hi: real)
    requires forall k :: 0 <= k < |ps| ==> lo <= ps[k].progressPercent <= hi
    ensures lo * (|ps| as real) <= SumProgress(ps) <= hi * (|ps| as real)
  {
    if ps != [] {
      SumBounds(ps[..|ps| - 1], lo, hi);
    }
  }

  /** The score is a mean: it lies between the lowest and the highest progress. */
  lemma ImpactScoreBetween(ps: seq<PledgeRecord>, lo: real, hi: real)
    requires ps != []
    requires forall k :: 0 <= k < |ps| ==> lo <= ps[k].progressPercent <= hi
    ensures lo <= ImpactScore(ps) <= hi
  {
    SumBounds(ps, lo, hi);
    var n := |ps| as real;
    var score := ImpactScore(ps);
    assert score * n == SumProgress(ps);
    assert lo * n <= score * n <= hi * n;
  }

  // ---------------------------------------------------------------------
  // On-track status (models/report.py:77-96)
  // ---------------------------------------------------------------------

  datatype Verdict = NoPledges | OnTrack | ProgressingWell | NeedsAttention | Monitoring

  function CountStatus(ps: seq<PledgeRecord>, s: Status): (n: nat)
    ensures n <= |ps|
  {
    if ps == [] then 0 else CountStatus(ps[..|ps| - 1], s) + (if ps[|ps| - 1].status == s then 1 else 0)
  }

  /** `completed / total * 100`, 0 without pledges. */
  function Percent(part: nat, total: nat): (p: real)
    ensures total > 0 ==> p * (total as real) == (part as real) * 100.0
    ensures total == 0 ==> p == 0.0
  {
    if total > 0 then (part as real) / (total as real) * 100.0 else 0.0
  }

  /** The verdict from the number of pledges, the completion rate and the average progress; the first threshold that holds wins. */
  function Classify(total: nat, completionRate: real, avgProgress: real): (v: Verdict)
    ensures v == NoPledges <==> total == 0
    ensures v == OnTrack <==> total > 0 && completionRate >= 70.0 && avgProgress >= 70.0
    ensures v == ProgressingWell <==>
      total > 0 && !(completionRate >= 70.0 && avgProgress >= 70.0) && completionRate >= 50.0 && avgProgress >= 50.0
    ensures v == NeedsAttention <==>
      total > 0 && !(completionRate >= 50.0 && avgProgress >= 50.0) && (completionRate < 40.0 || avgProgress < 40.0)
  {
    if total == 0 then NoPledges
    else if completionRate >= 70.0 && avgProgress >= 70.0 then OnTrack
    else if completionRate >= 50.0 && avgProgress >= 50.0 then ProgressingWell
    else if completionRate < 40.0 || avgProgress < 40.0 then NeedsAttention
    else Monitoring
  }

  /** The fallback is reached exactly when both values are at least 40 and one of them is below 50. */
  lemma MonitoringExactly(total: nat, completionRate: real, avgProgress: real)
    ensures Classify(total, completionRate, avgProgress) == Monitoring <==>
      total > 0 && completionRate >= 40.0 && avgProgress >= 40.0 && (completionRate < 50.0 || avgProgress < 50.0)
  {
  }

  function VerdictText(v: Verdict): string {
    match v
    case NoPledges => "No pledges to analyze"
    case OnTrack => "\U{2705} Your CSR goals are on track! Excellent progress."
    case ProgressingWell => "\U{26A0}\U{FE0F} Your CSR goals are progressing well, but some initiatives need attention."
    case NeedsAttention => "\U{274C} Some goals need more attention."
    case Monitoring => "\U{1F4CA} Monitoring in progress..."
  }

  // ---------------------------------------------------------------------
  // Truncation in the PDF table (models/report.py:855-857)
  // ---------------------------------------------------------------------

  /** A title over 30 characters keeps its first 30 and gains `...`. */
  function TruncateTitle(title: string): (r: string)
    ensures |title| <= 30 ==> r == title
    ensures |title| > 30 ==> |r| == 33 && r[..30] == title[..30] && r[30..] == "..."
  {
    if |title| > 30 then title[..30] + "..." else title
  }

  /** A department or owner name is cut to its first 20 characters. */
  function TruncateName(name: string): (r: string)
    ensures |r| == if |name| > 20 then 20 else |name|
    ensures r == name[..|r|]
  {
    if |name| > 20 then name[..20] else name
  }

  // ---------------------------------------------------------------------
  // AI summary (models/report.py:137-187)
  // ---------------------------------------------------------------------

  /** `pledge.department_id.name or "Unknown"`. */
  function DeptLabel(p: PledgeRecord): string {
    if p.departmentName == [] then "Unknown" else p.departmentName
  }

  /** The departments in the order the dictionary first sees them. */
  function DeptNames(ps: seq<PledgeRecord>): (names: seq<string>)
    ensures forall i, j :: 0 <= i < j < |names| ==> names[i] != names[j]
    ensures forall k :: 0 <= k < |ps| ==> DeptLabel(ps[k]) in names
    ensures ps != [] ==> names != []
  {
    if ps == [] then []
    else
      var names := DeptNames(ps[..|ps| - 1]);
      var dept := DeptLabel(ps[|ps| - 1]);
      assert forall k :: 0 <= k < |ps| - 1 ==> ps[k] == ps[..|ps| - 1][k];
      if dept in names then names else names + [dept]
  }

  /** The progress values of one department's pledges, in order. */
  function DeptProgress(ps: seq<PledgeRecord>, name: string): seq<real> {
    if ps == [] then []
    else DeptProgress(ps[..|ps| - 1], name) + (if DeptLabel(ps[|ps| - 1]) == name then [ps[|ps| - 1].progressPercent] else [])
  }

  /** One entry of `dept_stats`: the department and the progress values collected for it. */
  datatype DeptStat = DeptStat(name: string, progress: seq<real>)

  function DeptStats(ps: seq<PledgeRecord>): (stats: seq<DeptStat>)
    ensures |stats| == |DeptNames(ps)|
    ensures forall k :: 0 <= k < |stats| ==>
      stats[k] == DeptStat(DeptNames(ps)[k], DeptProgress(ps, DeptNames(ps)[k]))
  {
    var names := DeptNames(ps);
    seq(|names|, k requires 0 <= k < |names| => DeptStat(names[k], DeptProgress(ps, names[k])))
  }

  function Sum(xs: seq<real>): real {
    if xs == [] then 0.0 else Sum(xs[..|xs| - 1]) + xs[|xs| - 1]
  }

  function Mean(xs: seq<real>): (m: real)
    ensures xs != [] ==> m * (|xs| as real) == Sum(xs)
    ensures xs == [] ==> m == 0.0
  {
    if xs != [] then Sum(xs) / (|xs| as real) else 0.0
  }

  /** `max(dept_stats.items(), key=average)`: the first department with the highest average. */
  function TopIndex(stats: seq<DeptStat>): (k: nat)
    requires stats != []
    ensures k < |stats|
    ensures forall j :: 0 <= j < |stats| ==> Mean(stats[j].progress) <= Mean(stats[k].progress)
    ensures forall j :: 0 <= j < k ==> Mean(stats[j].progress) < Mean(stats[k].progress)
  {
    if |stats| == 1 then 0
    else
      var k := TopIndex(stats[..|stats| - 1]);
      if Mean(stats[|stats| - 1].progress) > Mean(stats[k].progress) then |stats| - 1 else k
  }

  /** Where the department stats are in the dictionary, or `|stats|` when absent. */
  function FindDept(stats: seq<DeptStat>, name: string): (k: nat)
    ensures k <= |stats|
    ensures k < |stats| ==> stats[k].name == name
    ensures forall j :: 0 <= j < k ==> stats[j].name != name
  {
    if stats == [] then 0
    else
      var k := FindDept(stats[..|stats| - 1], name);
      if k < |stats| - 1 then k else if stats[|stats| - 1].name == name then |stats| - 1 else |stats|
  }

  lemma DeptStatsStep(ps: seq<PledgeRecord>, i: nat, stats: seq<DeptStat>) returns (next: seq<DeptStat>)
    requires i < |ps|
    requires stats == DeptStats(ps[..i])
    ensures next == DeptStats(ps[..i + 1])
    ensures var dept := DeptLabel(ps[i]);
      var k := FindDept(stats, dept);
      next == if k == |stats| then stats + [DeptStat(dept, [ps[i].progressPercent])]
              else stats[k := DeptStat(dept, stats[k].progress + [ps[i].progressPercent])]
  {
    var before, after := ps[..i], ps[..i + 1];
    assert after[..i] == before;
    var dept := DeptLabel(ps[i]);
    var names := DeptNames(before);
    var k := FindDept(stats, dept);
    assert forall j :: 0 <= j < |names| ==> stats[j].name == names[j];
    next := DeptStats(after);
    if k == |stats| {
      assert dept !in names;
      assert DeptNames(after) == names + [dept];
      assert DeptProgress(before, dept) == [] by {
        NoProgressOutside(before, dept);
      }
      forall j | 0 <= j < |next| ensures next[j] == (stats + [DeptStat(dept, [ps[i].progressPercent])])[j] {
        if j < |names| {
          assert DeptProgress(after, names[j]) == DeptProgress(before, names[j]);
        }
      }
    } else {
      assert names[k] == dept;
      assert DeptNames(after) == names;
      forall j | 0 <= j < |next| ensures next[j] == stats[k := DeptStat(dept, stats[k].progress + [ps[i].progressPercent])][j] {
        if j != k {
          assert DeptProgress(after, names[j]) == DeptProgress(before, names[j]);
        }
      }
    }
  }

  /** A department no pledge belongs to has collected nothing. */
  lemma {:induction false} NoProgressOutside(ps: seq<PledgeRecord>, name: string)
    requires name !in DeptNames(ps)
    ensures DeptProgress(ps, name) == []
  {
    if ps != [] {
      var prefix := ps[..|ps| - 1];
      assert forall n :: n in DeptNames(prefix) ==> n in DeptNames(ps);
      NoProgressOutside(prefix, name);
    }
  }

  /** Collects `dept_stats` pledge by pledge, as the summary loop does. */
  method CollectDeptStats(ps: seq<PledgeRecord>) returns (stats: seq<DeptStat>)
    ensures stats == DeptStats(ps)
  {
    stats := [];
    assert ps[..0] == [];
    for i := 0 to |ps|
      invariant stats == DeptStats(ps[..i])
    {
      var dept := DeptLabel(ps[i]);
      var k := FindDept(stats, dept);
      ghost var next := DeptStatsStep(ps, i, stats);
      if k == |stats| {
        stats := stats + [DeptStat(dept, [ps[i].progressPercent])];
      } else {
        stats := stats[k := DeptStat(dept, stats[k].progress + [ps[i].progressPercent])];
      }
    }
    assert ps[..|ps|] == ps;
  }

  /** How the opening sentence rates the completion percentage. */
  datatype Rating = Excellent | Moderate | Limited

  function RatingOf(completedPct: real): (r: Rating)
    ensures r == Excellent <==> completedPct >= 70.0
    ensures r == Moderate <==> 40.0 <= completedPct < 70.0
    ensures r == Limited <==> completedPct < 40.0
  {
    if completedPct >= 70.0 then Excellent else if completedPct >= 40.0 then Moderate else Limited
  }

  function RatingWord(rating: Rating): string {
    match rating
    case Excellent => "Excellent"
    case Moderate => "Moderate"
    case Limited => "Limited"
  }

  /**
   * One sentence of the summary before it is formatted: the overall
   * rating, the leading department, the at-risk warning, the notable
   * achievements.
   */
  datatype SummaryPart =
    | Overall(rating: Rating, completedPct: real, onTrackPct: real)
    | Leads(dept: string, average: real)
    | AtRiskCount(atRisk: nat)
    | Achieved(titles: seq<string>)

  /** The opening sentence; `fmt0` is Python's `:.0f`. */
  function OverallSentence(rating: Rating, completedPct: real, onTrackPct: real, fmt0: real -> string): (r: string)
    ensures StartsWith(r, RatingWord(rating))
    ensures |r| > 0 && r[0] != 'W' && r[0] != 'N'
  {
    var r := match rating
      case Excellent =>
        "Excellent progress: " + fmt0(completedPct) + "% of pledges are completed, " + fmt0(onTrackPct) + "% are on track."
      case Moderate =>
        "Moderate progress: " + fmt0(completedPct) + "% of pledges are completed, " + fmt0(onTrackPct) + "% are on track."
      case Limited =>
        "Limited progress: " + fmt0(completedPct) + "% of pledges are completed. Focus needed on pending goals.";
    assert r[0] in "EML";
    r
  }

  /** The department sentence; `fmt1` is Python's `:.1f`. */
  function LeaderSentence(dept: string, average: real, fmt1: real -> string): (r: string)
    ensures |r| >= 2 && r[|r| - 2] == '%'
  {
    dept + " leads with an average progress of " + fmt1(average) + "%."
  }

  function AtRiskWarning(atRisk: nat): (r: string)
    ensures |r| >= 2 && r[0] == 'W' && r[|r| - 2] == 'n'
  {
    "Warning: " + NatToString(atRisk) + " pledge(s) are at risk and require immediate attention."
  }

  function AchievementSentence(titles: seq<string>): (r: string)
    ensures |r| > 0 && r[0] == 'N'
  {
    "Notable achievements: " + JoinWith(", ", titles) + "."
  }

  /** The f-string of each part. */
  function PartText(part: SummaryPart, fmt0: real -> string, fmt1: real -> string): string {
    match part
    case Overall(rating, completedPct, onTrackPct) => OverallSentence(rating, completedPct, onTrackPct, fmt0)
    case Leads(dept, average) => LeaderSentence(dept, average, fmt1)
    case AtRiskCount(atRisk) => AtRiskWarning(atRisk)
    case Achieved(titles) => AchievementSentence(titles)
  }

  function PartTexts(parts: seq<SummaryPart>, fmt0: real -> string, fmt1: real -> string): (texts: seq<string>)
    ensures |texts| == |parts|
    ensures forall k :: 0 <= k < |parts| ==> texts[k] == PartText(parts[k], fmt0, fmt1)
  {
    seq(|parts|, k requires 0 <= k < |parts| => PartText(parts[k], fmt0, fmt1))
  }

  /** The titles of the completed pledges, in order. */
  function CompletedTitles(ps: seq<PledgeRecord>): (titles: seq<string>)
    ensures |titles| == CountStatus(ps, Completed)
  {
    if ps == [] then []
    else CompletedTitles(ps[..|ps| - 1]) + (if ps[|ps| - 1].status == Completed then [ps[|ps| - 1].title] else [])
  }

  function Min(a: nat, b: nat): nat {
    if a <= b then a else b
  }

  function Opening(ps: seq<PledgeRecord>): SummaryPart {
    var completedPct := Percent(CountStatus(ps, Completed), |ps|);
    Overall(RatingOf(completedPct), completedPct, Percent(CountStatus(ps, InProgress), |ps|))
  }

  function Leader(ps: seq<PledgeRecord>): seq<SummaryPart> {
    var stats := DeptStats(ps);
    if stats != [] then
      var top := stats[TopIndex(stats)];
      [Leads(top.name, Mean(top.progress))]
    else []
  }

  function Warning(ps: seq<PledgeRecord>): seq<SummaryPart> {
    var atRisk := CountStatus(ps, AtRisk);
    if atRisk > 0 then [AtRiskCount(atRisk)] else []
  }

  function Achievements(ps: seq<PledgeRecord>): seq<SummaryPart> {
    var titles := CompletedTitles(ps);
    if titles != [] then [Achieved(titles[..Min(3, |titles|)])] else []
  }

  /**
   * `summary_parts`: the opening sentence, the leading department when
   * there are pledges, the at-risk warning when some are at risk, and at
   * most three completed titles when some are completed.
   */
  function SummaryParts(ps: seq<PledgeRecord>): (parts: seq<SummaryPart>)
    ensures |parts| >= 1 && parts[0] == Opening(ps)
  {
    [Opening(ps)] + Leader(ps) + Warning(ps) + Achievements(ps)
  }

  /** `ai_summary`: the parts' sentences joined with single spaces. */
  function Summary(ps: seq<PledgeRecord>, fmt0: real -> string, fmt1: real -> string): string {
    JoinWith(" ", PartTexts(SummaryParts(ps), fmt0, fmt1))
  }

  /** There is a leading department exactly when there are pledges. */
  lemma LeaderPresent(ps: seq<PledgeRecord>)
    ensures |Leader(ps)| == if ps != [] then 1 else 0
  {
    if ps != [] {
      assert DeptLabel(ps[0]) in DeptNames(ps);
    }
  }

  /**
   * One part per condition that holds, in order; the achievements, when
   * present, come last and name the first three completed titles.
   */
  lemma SummaryShape(ps: seq<PledgeRecord>)
    ensures |SummaryParts(ps)| == 1 + (if ps != [] then 1 else 0) + (if CountStatus(ps, AtRisk) > 0 then 1 else 0)
                                  + (if CountStatus(ps, Completed) > 0 then 1 else 0)
    ensures var parts := SummaryParts(ps);
      CountStatus(ps, Completed) > 0 ==>
        parts[|parts| - 1] == Achieved(CompletedTitles(ps)[..Min(3, CountStatus(ps, Completed))])
  {
    LeaderPresent(ps);
  }

  /** The department named in the summary has the highest average progress, and is the first such department. */
  lemma LeaderHasTopAverage(ps: seq<PledgeRecord>)
    requires ps != []
    ensures var stats := DeptStats(ps);
      exists k :: 0 <= k < |stats| && Leader(ps) == [Leads(stats[k].name, Mean(stats[k].progress))]
        && (forall j :: 0 <= j < |stats| ==> Mean(stats[j].progress) <= Mean(stats[k].progress))
        && (forall j :: 0 <= j < k ==> Mean(stats[j].progress) < Mean(stats[k].progress))
  {
    LeaderPresent(ps);
    var stats := DeptStats(ps);
    var k := TopIndex(stats);
    assert Leader(ps) == [Leads(stats[k].name, Mean(stats[k].progress))];
  }

  /** The opening sentence rates the completion percentage in three bands. */
  lemma OpeningRating(ps: seq<PledgeRecord>, fmt0: real -> string, fmt1: real -> string)
    ensures var pct := Percent(CountStatus(ps, Completed), |ps|);
      var text := PartText(SummaryParts(ps)[0], fmt0, fmt1);
      (StartsWith(text, "Excellent") <==> pct >= 70.0)
      && (StartsWith(text, "Moderate") <==> 40.0 <= pct < 70.0)
      && (StartsWith(text, "Limited") <==> pct < 40.0)
  {
    var pct := Percent(CountStatus(ps, Completed), |ps|);
    RatingPrefix(PartText(Opening(ps), fmt0, fmt1), RatingOf(pct));
  }

  /** The three rating words differ in their first letter, so a sentence starts with exactly one of them. */
  lemma RatingPrefix(r: string, rating: Rating)
    requires StartsWith(r, RatingWord(rating))
    ensures StartsWith(r, "Excellent") <==> rating == Excellent
    ensures StartsWith(r, "Moderate") <==> rating == Moderate
    ensures StartsWith(r, "Limited") <==> rating == Limited
  {
    assert r[0] == RatingWord(rating)[0];
    assert StartsWith(r, "Excellent") ==> r[0] == 'E';
    assert StartsWith(r, "Moderate") ==> r[0] == 'M';
    assert StartsWith(r, "Limited") ==> r[0] == 'L';
  }

  /** Only the at-risk part formats to a sentence starting with `W` and ending in `n.`. */
  lemma WarningTextOnlyFromWarning(part: SummaryPart, atRisk: nat, fmt0: real -> string, fmt1: real -> string)
    ensures PartText(part, fmt0, fmt1) == AtRiskWarning(atRisk) ==> part.AtRiskCount?
  {
    var t, w := PartText(part, fmt0, fmt1), AtRiskWarning(atRisk);
    match part
    case Overall(rating, c, o) =>
      assert t[0] != w[0];
    case Leads(dept, average) =>
      assert |t| != |w| || t[|t| - 2] != w[|w| - 2];
    case AtRiskCount(_) =>
    case Achieved(titles) =>
      assert t[0] != w[0];
  }

  /** Without at-risk pledges no part is a warning. */
  lemma WarningPartOnlyWhenAtRisk(ps: seq<PledgeRecord>)
    ensures CountStatus(ps, AtRisk) == 0 ==>
      forall k :: 0 <= k < |SummaryParts(ps)| ==> !SummaryParts(ps)[k].AtRiskCount?
  {
    if CountStatus(ps, AtRisk) == 0 {
      NoWarningAmong(Opening(ps), Leader(ps), Achievements(ps));
      assert SummaryParts(ps) == [Opening(ps)] + Leader(ps) + Achievements(ps);
    }
  }

  lemma NoWarningAmong(opening: SummaryPart, leader: seq<SummaryPart>, achievements: seq<SummaryPart>)
    requires opening.Overall?
    requires forall j :: 0 <= j < |leader| ==> leader[j].Leads?
    requires forall j :: 0 <= j < |achievements| ==> achievements[j].Achieved?
    ensures var parts := [opening] + leader + achievements;
      forall k :: 0 <= k < |parts| ==> !parts[k].AtRiskCount?
  {
    var parts := [opening] + leader + achievements;
    forall k | 0 <= k < |parts|
      ensures !parts[k].AtRiskCount?
    {
      if 0 < k <= |leader| {
        assert parts[k] == leader[k - 1];
      } else if k > |leader| {
        assert parts[k] == achievements[k - 1 - |leader|];
      }
    }
  }

  /** With at-risk pledges the warning part follows the opening and the leader. */
  lemma WarningPartAt(ps: seq<PledgeRecord>)
    ensures CountStatus(ps, AtRisk) > 0 ==>
      1 + |Leader(ps)| < |SummaryParts(ps)| && SummaryParts(ps)[1 + |Leader(ps)|] == AtRiskCount(CountStatus(ps, AtRisk))
  {
  }

  /** With at-risk pledges the warning sentence follows the opening and the leader. */
  lemma WarningPresent(ps: seq<PledgeRecord>, fmt0: real -> string, fmt1: real -> string)
    ensures CountStatus(ps, AtRisk) > 0 ==>
      AtRiskWarning(CountStatus(ps, AtRisk)) in PartTexts(SummaryParts(ps), fmt0, fmt1)
  {
    WarningPartAt(ps);
    if CountStatus(ps, AtRisk) > 0 {
      WarningTextAt(SummaryParts(ps), 1 + |Leader(ps)|, CountStatus(ps, AtRisk), fmt0, fmt1);
    }
  }

  lemma WarningTextAt(parts: seq<SummaryPart>, k: nat, atRisk: nat, fmt0: real -> string, fmt1: real -> string)
    requires k < |parts| && parts[k] == AtRiskCount(atRisk)
    ensures AtRiskWarning(atRisk) in PartTexts(parts, fmt0, fmt1)
  {
    assert PartTexts(parts, fmt0, fmt1)[k] == AtRiskWarning(atRisk);
  }

  /** The at-risk warning is among the summary's sentences exactly when some pledge is at risk. */
  lemma WarningExactlyWhenAtRisk(ps: seq<PledgeRecord>, fmt0: real -> string, fmt1: real -> string)
    ensures AtRiskWarning(CountStatus(ps, AtRisk)) in PartTexts(SummaryParts(ps), fmt0, fmt1)
        <==> CountStatus(ps, AtRisk) > 0
  {
    var atRisk := CountStatus(ps, AtRisk);
    if atRisk > 0 {
      WarningPresent(ps, fmt0, fmt1);
    } else {
      WarningPartOnlyWhenAtRisk(ps);
      NoWarningText(SummaryParts(ps), atRisk, fmt0, fmt1);
    }
  }

  lemma NoWarningText(parts: seq<SummaryPart>, atRisk: nat, fmt0: real -> string, fmt1: real -> string)
    requires forall k :: 0 <= k < |parts| ==> !parts[k].AtRiskCount?
    ensures AtRiskWarning(atRisk) !in PartTexts(parts, fmt0, fmt1)
  {
    var texts := PartTexts(parts, fmt0, fmt1);
    forall k | 0 <= k < |texts|
      ensures texts[k] != AtRiskWarning(atRisk)
    {
      WarningTextOnlyFromWarning(parts[k], atRisk, fmt0, fmt1);
    }
  }

  /** The overall part from the status counts (models/report.py:140-157). */
  method OpeningPart(ps: seq<PledgeRecord>) returns (part: SummaryPart)
    ensures part == Opening(ps)
  {
    var total := |ps|;
    var completed := CountStatus(ps, Completed);
    var inProgress := CountStatus(ps, InProgress);
    var completedPct := Percent(completed, total);
    var onTrackPct := Percent(inProgress, total);
    part := Overall(RatingOf(completedPct), completedPct, onTrackPct);
  }

  /** Appends the leading department when there is a department. */
  method AddLeader(ps: seq<PledgeRecord>, parts: seq<SummaryPart>) returns (next: seq<SummaryPart>)
    ensures next == parts + Leader(ps)
  {
    var stats := CollectDeptStats(ps);
    next := parts;
    if stats != [] {
      var top := stats[TopIndex(stats)];
      next := next + [Leads(top.name, Mean(top.progress))];
    }
  }

  /** Appends the at-risk warning when some pledge is at risk. */
  method AddWarning(ps: seq<PledgeRecord>, parts: seq<SummaryPart>) returns (next: seq<SummaryPart>)
    ensures next == parts + Warning(ps)
  {
    var atRisk := CountStatus(ps, AtRisk);
    next := parts;
    if atRisk > 0 {
      next := next + [AtRiskCount(atRisk)];
    }
  }

  /** Appends at most three completed titles when some pledge is completed. */
  method AddAchievements(ps: seq<PledgeRecord>, parts: seq<SummaryPart>) returns (next: seq<SummaryPart>)
    ensures next == parts + Achievements(ps)
  {
    var titles := CompletedTitles(ps);
    next := parts;
    if titles != [] {
      next := next + [Achieved(titles[..Min(3, |titles|)])];
    }
  }

  /** Builds the parts in the source's order and joins their sentences with single spaces. */
  method AiSummary(ps: seq<PledgeRecord>, fmt0: real -> string, fmt1: real -> string) returns (summary: string)
    ensures summary == Summary(ps, fmt0, fmt1)
  {
    var opening := OpeningPart(ps);
    var parts := AddLeader(ps, [opening]);
    parts := AddWarning(ps, parts);
    parts := AddAchievements(ps, parts);
    summary := JoinWith(" ", PartTexts(parts, fmt0, fmt1));
  }

  // ---------------------------------------------------------------------
  // Recommendations (models/report.py:289-309)
  // ---------------------------------------------------------------------

  /** One recommendation line before it is formatted. */
  datatype Recommendation =
    | Accelerate          // average progress below 70
    | FinishInProgress    // fewer than half completed
    | ReviewLow(low: nat) // this many pledges below 50 %
    | AttendAtRisk(atRisk: nat)
    | AllWell             // when no rule fires

  /** The first two letters of each kind of line. */
  function Letters(r: Recommendation): (char, char) {
    match r
    case Accelerate => ('F', 'o')
    case FinishInProgress => ('I', 'n')
    case ReviewLow(_) => ('R', 'e')
    case AttendAtRisk(_) => ('I', 'm')
    case AllWell => ('A', 'l')
  }

  /** The line of each recommendation; its first two letters tell its kind. */
  function RecommendationText(r: Recommendation): (text: string)
    ensures |text| > 1
  {
    match r
    case Accelerate => "Focus on accelerating progress " + "for initiatives below 70% completion."
    case FinishInProgress => "Increase focus on completing " + "in-progress initiatives."
    case ReviewLow(low) => "Review and support " + NatToString(low) + " initiative(s) with progress below 50%."
    case AttendAtRisk(atRisk) => "Immediate attention required for " + NatToString(atRisk) + " at-risk initiative(s)."
    case AllWell => "All initiatives are progressing well. " + "Keep up the excellent work!"
  }

  function RecommendationTexts(recs: seq<Recommendation>): (texts: seq<string>)
    ensures |texts| == |recs|
    ensures forall k :: 0 <= k < |recs| ==> texts[k] == RecommendationText(recs[k])
  {
    seq(|recs|, k requires 0 <= k < |recs| => RecommendationText(recs[k]))
  }

  /** The number of pledges below a progress threshold. */
  function CountBelow(ps: seq<PledgeRecord>, threshold: real): (n: nat)
    ensures n <= |ps|
    ensures n == 0 <==> forall k :: 0 <= k < |ps| ==> ps[k].progressPercent >= threshold
  {
    if ps == [] then 0
    else
      var n := CountBelow(ps[..|ps| - 1], threshold);
      assert forall k :: 0 <= k < |ps| - 1 ==> ps[..|ps| - 1][k] == ps[k];
      n + (if ps[|ps| - 1].progressPercent < threshold then 1 else 0)
  }

  /** The lines of the four rules that fire, in the source's order. */
  function FiredRules(ps: seq<PledgeRecord>, avgProgress: real): seq<Recommendation> {
    var low := CountBelow(ps, 50.0);
    var atRisk := CountStatus(ps, AtRisk);
    (if avgProgress < 70.0 then [Accelerate] else [])
    + (if (CountStatus(ps, Completed) as real) < (|ps| as real) * 0.5 then [FinishInProgress] else [])
    + (if low > 0 then [ReviewLow(low)] else [])
    + (if atRisk > 0 then [AttendAtRisk(atRisk)] else [])
  }

  /**
   * The recommendation lines: one per rule that fires, in the source's
   * order (average below 70, fewer than half completed, some pledge below
   * 50 %, some at risk), and the all-well line only when none fires.
   */
  function RecommendationList(ps: seq<PledgeRecord>, avgProgress: real): (recs: seq<Recommendation>)
    ensures recs != [] && |recs| <= 4
    ensures Accelerate in recs <==> avgProgress < 70.0
    ensures FinishInProgress in recs <==> (CountStatus(ps, Completed) as real) < (|ps| as real) * 0.5
    ensures ReviewLow(CountBelow(ps, 50.0)) in recs <==> CountBelow(ps, 50.0) > 0
    ensures AttendAtRisk(CountStatus(ps, AtRisk)) in recs <==> CountStatus(ps, AtRisk) > 0
    ensures AllWell in recs <==> recs == [AllWell]
    ensures recs == [AllWell] <==>
      avgProgress >= 70.0 && (CountStatus(ps, Completed) as real) >= (|ps| as real) * 0.5
      && CountBelow(ps, 50.0) == 0 && CountStatus(ps, AtRisk) == 0
  {
    var fired := FiredRules(ps, avgProgress);
    if fired == [] then [AllWell] else fired
  }

  /** A decimal number between a fixed prefix and suffix is read back uniquely. */
  lemma FramedNumberUnique(pre: string, n: nat, m: nat, post: string)
    requires pre + NatToString(n) + post == pre + NatToString(m) + post
    ensures n == m
  {
    var a, b := NatToString(n), NatToString(m);
    var s, t := pre + a + post, pre + b + post;
    assert |a| == |b|;
    assert a == s[|pre|..|pre| + |a|];
    assert b == t[|pre|..|pre| + |b|];
    NatToStringRoundTrip(n);
    NatToStringRoundTrip(m);
  }

  /** Different recommendations have different lines, so each stored line names its rule and count. */
  lemma RecommendationTextInjective(r: Recommendation, q: Recommendation)
    requires RecommendationText(r) == RecommendationText(q)
    ensures r == q
  {
    LeadingLetters(r);
    LeadingLetters(q);
    match r
    case ReviewLow(n) =>
      FramedNumberUnique("Review and support ", n, q.low, " initiative(s) with progress below 50%.");
    case AttendAtRisk(n) =>
      FramedNumberUnique("Immediate attention required for ", n, q.atRisk, " at-risk initiative(s).");
    case _ =>
  }

  lemma LeadingLetters(r: Recommendation)
    ensures var t := RecommendationText(r); t[0] == Letters(r).0 && t[1] == Letters(r).1
  {
    match r
    case Accelerate => AccelerateLetters();
    case FinishInProgress => FinishLetters();
    case ReviewLow(n) => ReviewLetters(n);
    case AttendAtRisk(n) => AttendLetters(n);
    case AllWell => AllWellLetters();
  }
  lemma AccelerateLetters() ensures var t := RecommendationText(Accelerate); t[0] == 'F' && t[1] == 'o' { }
  lemma FinishLetters() ensures var t := RecommendationText(FinishInProgress); t[0] == 'I' && t[1] == 'n' { }
  lemma ReviewLetters(n: nat) ensures var t := RecommendationText(ReviewLow(n)); t[0] == 'R' && t[1] == 'e' { }
  lemma AttendLetters(n: nat) ensures var t := RecommendationText(AttendAtRisk(n)); t[0] == 'I' && t[1] == 'm' { }
  lemma AllWellLetters() ensures var t := RecommendationText(AllWell); t[0] == 'A' && t[1] == 'l' { }

  /** Builds the recommendation list rule by rule, as `action_generate_report` does. */
  method Recommend(ps: seq<PledgeRecord>, avgProgress: real) returns (recs: seq<Recommendation>)
    ensures recs == RecommendationList(ps, avgProgress)
  {
    recs := [];
    if avgProgress < 70.0 {
      recs := recs + [Accelerate];
    }
    var completed := CountStatus(ps, Completed);
    if (completed as real) < (|ps| as real) * 0.5 {
      recs := recs + [FinishInProgress];
    }
    ghost var second := recs;
    var low := CountBelow(ps, 50.0);
    if low > 0 {
      recs := recs + [ReviewLow(low)];
    }
    assert recs == second + (if low > 0 then [ReviewLow(low)] else []);
    var atRisk := CountStatus(ps, AtRisk);
    if atRisk > 0 {
      recs := recs + [AttendAtRisk(atRisk)];
    }
    assert recs == FiredRules(ps, avgProgress);
    if recs == [] {
      recs := recs + [AllWell];
    }
  }

  // ---------------------------------------------------------------------
  // The report record
  // ---------------------------------------------------------------------

  class Report {
    var period: string
    var name: string
    var includeAll: bool
    var pledgeIds: seq<nat>
    var departmentIds: seq<nat>
    var statusFilter: StatusFilter
    var impactScore: real
    var onTrackStatus: string
    var aiSummary: string
    var recommendations: string
    /** `state == 'generated'`. */
    var generated: bool

    /** A new report with the field defaults, created in the given year and month. */
    constructor (year: nat, month: nat)
      requires 1 <= month <= 12
      ensures period == DefaultPeriod(year, month)
      ensures includeAll && pledgeIds == [] && departmentIds == [] && statusFilter == All && !generated
    {
      period := DefaultPeriod(year, month);
      name := "";
      includeAll := true;
      pledgeIds := [];
      departmentIds := [];
      statusFilter := All;
      impactScore := 0.0;
      onTrackStatus := "";
      aiSummary := "";
      recommendations := "";
      generated := false;
    }

    /** The pledges this report covers, given the pledge table. */
    function Covered(db: seq<PledgeRecord>): seq<PledgeRecord>
      reads this
    {
      Scope(db, includeAll, pledgeIds, departmentIds, statusFilter)
    }

    /** `_get_filtered_pledges`: build the domain, then search unless it says not to. */
    method FilteredPledges(db: seq<PledgeRecord>) returns (found: seq<PledgeRecord>)
      ensures found == Covered(db)
    {
      var domain := BuildDomain(includeAll, pledgeIds, departmentIds, statusFilter);
      if domain.None? {
        return [];
      }
      found := Search(db, domain.value);
    }

    /** `_compute_name`. */
    method ComputeName()
      modifies this
      ensures name == ReportName(period)
      ensures period == old(period) && includeAll == old(includeAll) && pledgeIds == old(pledgeIds)
      ensures departmentIds == old(departmentIds) && statusFilter == old(statusFilter)
      ensures impactScore == old(impactScore) && onTrackStatus == old(onTrackStatus)
      ensures aiSummary == old(aiSummary) && recommendations == old(recommendations) && generated == old(generated)
    {
      name := ReportName(period);
    }

    /** `_compute_impact_score`. */
    method ComputeImpactScore(db: seq<PledgeRecord>)
      modifies this
      ensures impactScore == ImpactScore(old(Covered(db)))
      ensures period == old(period) && includeAll == old(includeAll) && pledgeIds == old(pledgeIds)
      ensures departmentIds == old(departmentIds) && statusFilter == old(statusFilter) && name == old(name)
      ensures onTrackStatus == old(onTrackStatus) && aiSummary == old(aiSummary)
      ensures recommendations == old(recommendations) && generated == old(generated)
    {
      var ps := FilteredPledges(db);
      if ps != [] {
        var total := SumProgress(ps);
        impactScore := total / (|ps| as real);
      } else {
        impactScore := 0.0;
      }
    }

    /** `_compute_on_track_status`: reads the stored impact score as the average. */
    method ComputeOnTrackStatus(db: seq<PledgeRecord>)
      modifies this
      ensures var ps := old(Covered(db));
        onTrackStatus == VerdictText(Classify(|ps|, Percent(CountStatus(ps, Completed), |ps|), old(impactScore)))
      ensures period == old(period) && includeAll == old(includeAll) && pledgeIds == old(pledgeIds)
      ensures departmentIds == old(departmentIds) && statusFilter == old(statusFilter) && name == old(name)
      ensures impactScore == old(impactScore) && aiSummary == old(aiSummary)
      ensures recommendations == old(recommendations) && generated == old(generated)
    {
      var ps := FilteredPledges(db);
      if ps == [] {
        onTrackStatus := VerdictText(NoPledges);
        return;
      }
      var completed := CountStatus(ps, Completed);
      var completionRate := (completed as real) / (|ps| as real) * 100.0;
      onTrackStatus := VerdictText(Classify(|ps|, completionRate, impactScore));
    }

    /** `_compute_ai_summary`. */
    method ComputeAiSummary(db: seq<PledgeRecord>, fmt0: real -> string, fmt1: real -> string)
      modifies this
      ensures aiSummary == Summary(old(Covered(db)), fmt0, fmt1)
      ensures period == old(period) && includeAll == old(includeAll) && pledgeIds == old(pledgeIds)
      ensures departmentIds == old(departmentIds) && statusFilter == old(statusFilter) && name == old(name)
      ensures impactScore == old(impactScore) && onTrackStatus == old(onTrackStatus)
      ensures recommendations == old(recommendations) && generated == old(generated)
    {
      var ps := FilteredPledges(db);
      aiSummary := AiSummary(ps, fmt0, fmt1);
    }

    /**
     * The recommendation and state part of `action_generate_report`: with
     * no covered pledge nothing is written and a warning is returned;
     * otherwise the recommendations are stored one per line and the report
     * is marked generated.
     */
    method GenerateReport(db: seq<PledgeRecord>) returns (found: bool)
      modifies this
      ensures found <==> old(Covered(db)) != []
      ensures !found ==> recommendations == old(recommendations) && generated == old(generated)
      ensures found ==>
        generated && recommendations == JoinWith("\n", RecommendationTexts(RecommendationList(old(Covered(db)), old(impactScore))))
      ensures period == old(period) && includeAll == old(includeAll) && pledgeIds == old(pledgeIds)
      ensures departmentIds == old(departmentIds) && statusFilter == old(statusFilter) && name == old(name)
      ensures impactScore == old(impactScore) && onTrackStatus == old(onTrackStatus) && aiSummary == old(aiSummary)
    {
      var ps := FilteredPledges(db);
      if ps == [] {
        return false;
      }
      var recs := Recommend(ps, impactScore);
      recommendations := JoinWith("\n", RecommendationTexts(recs));
      generated := true;
      found := true;
    }
  }
}
