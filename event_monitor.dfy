/**
 * The event-frequency monitor: global event counters, a per-IP record of
 * counters and the last 100 events, windowed threshold checks that produce
 * typed threats, the severity-driven response, a capped threat score and a
 * global risk level.
 *
 * Scores are kept in tenths of a point, so that `requests / 10` in the score
 * is exact.
 */
module EventMonitor {
  import opened Common

  /** The marker a comment-block reason carries when the comment was judged spam. */
  const SpamMarker: string := "\U{5783}\U{573E}\U{8BC4}\U{8BBA}"

  const HistoryCap := 100
  const RequestsPerMinute := 100
  const LoginFailuresPerHour := 10
  const XssAttemptsPerHour := 5
  const SqlInjectionAttemptsPerHour := 3
  const SpamCommentsPerHour := 20

  /** The cut-offs, in tenths, of the top-threat list and of the suspicious-IP list. */
  const TopThreatCut := 500
  const SuspiciousCut := 300
  const TopThreatCount := 10

  /** A logged event as the per-IP history keeps it; `reasons` is empty when the data has none. */
  datatype Event = Event(name: string, timestamp: int, reasons: seq<string>)

  predicate IsSpamReport(reasons: seq<string>) {
    exists r :: r in reasons && Contains(r, SpamMarker)
  }

  // --------------------------------------------------------- counters

  datatype Counter =
    | Requests | BlockedIPs | XssAttempts | SqlInjectionAttempts
    | CsrfAttempts | SpamComments | LoginFailures | SuspiciousActivity

  datatype Stats = Stats(
    requests: nat, blockedIPs: nat, xssAttempts: nat, sqlInjectionAttempts: nat,
    csrfAttempts: nat, spamComments: nat, loginFailures: nat, suspiciousActivity: nat)

  const ZeroStats := Stats(0, 0, 0, 0, 0, 0, 0, 0)

  function Get(s: Stats, c: Counter): nat {
    match c
    case Requests => s.requests
    case BlockedIPs => s.blockedIPs
    case XssAttempts => s.xssAttempts
    case SqlInjectionAttempts => s.sqlInjectionAttempts
    case CsrfAttempts => s.csrfAttempts
    case SpamComments => s.spamComments
    case LoginFailures => s.loginFailures
    case SuspiciousActivity => s.suspiciousActivity
  }

  /** The counter an event increments; a blocked comment counts only when some reason marks it as spam. */
  function CounterFor(name: string, reasons: seq<string>): Option<Counter> {
    if name == "request" then Some(Requests)
    else if name == "ip_blocked" then Some(BlockedIPs)
    else if name == "xss_attempt" then Some(XssAttempts)
    else if name == "sql_injection" then Some(SqlInjectionAttempts)
    else if name == "csrf_attack" then Some(CsrfAttempts)
    else if name == "comment_blocked" then (if IsSpamReport(reasons) then Some(SpamComments) else None)
    else if name == "login_failure" then Some(LoginFailures)
    else if name == "suspicious_activity" then Some(SuspiciousActivity)
    else None
  }

  /** One more on counter `c`; every other counter keeps its value. */
  function Bump(s: Stats, c: Counter): (r: Stats)
    ensures forall d :: Get(r, d) == Get(s, d) + (if d == c then 1 else 0)
  {
    match c
    case Requests => s.(requests := s.requests + 1)
    case BlockedIPs => s.(blockedIPs := s.blockedIPs + 1)
    case XssAttempts => s.(xssAttempts := s.xssAttempts + 1)
    case SqlInjectionAttempts => s.(sqlInjectionAttempts := s.sqlInjectionAttempts + 1)
    case CsrfAttempts => s.(csrfAttempts := s.csrfAttempts + 1)
    case SpamComments => s.(spamComments := s.spamComments + 1)
    case LoginFailures => s.(loginFailures := s.loginFailures + 1)
    case SuspiciousActivity => s.(suspiciousActivity := s.suspiciousActivity + 1)
  }

  /** A blocked comment is counted as spam exactly when a reason carries the spam marker. */
  lemma BlockedCommentIsSpamIffMarked(reasons: seq<string>)
    ensures CounterFor("comment_blocked", reasons) == Some(SpamComments) <==> IsSpamReport(reasons)
    ensures CounterFor("comment_blocked", reasons) != Some(SpamComments) ==> CounterFor("comment_blocked", reasons) == None
  {
  }

  // ------------------------------------------------------- IP records

  /** The per-IP record: five of the counters, the first and last sighting and the recent events. */
  datatype IpRecord = IpRecord(
    requests: nat, loginFailures: nat, xssAttempts: nat, sqlInjectionAttempts: nat, spamComments: nat,
    firstSeen: int, lastSeen: int, events: seq<Event>)

  /** The counters a record keeps (CSRF attempts, blocks and suspicious activity are global only). */
  predicate Tracked(c: Counter) {
    c == Requests || c == LoginFailures || c == XssAttempts || c == SqlInjectionAttempts || c == SpamComments
  }

  function IpCount(r: IpRecord, c: Counter): nat
    requires Tracked(c)
  {
    match c
    case Requests => r.requests
    case LoginFailures => r.loginFailures
    case XssAttempts => r.xssAttempts
    case SqlInjectionAttempts => r.sqlInjectionAttempts
    case SpamComments => r.spamComments
  }

  function NewRecord(now: int): IpRecord {
    IpRecord(0, 0, 0, 0, 0, now, now, [])
  }

  /** `b` differs from `a` by one more on counter `c`, if the record keeps it. */
  predicate Counted(a: IpRecord, b: IpRecord, c: Option<Counter>) {
    forall d | Tracked(d) :: IpCount(b, d) == IpCount(a, d) + (if c == Some(d) then 1 else 0)
  }

  function BumpRecord(r: IpRecord, c: Option<Counter>): (r': IpRecord)
    ensures r'.firstSeen == r.firstSeen && r'.lastSeen == r.lastSeen && r'.events == r.events
    ensures Counted(r, r', c)
  {
    match c
    case Some(Requests) => r.(requests := r.requests + 1)
    case Some(LoginFailures) => r.(loginFailures := r.loginFailures + 1)
    case Some(XssAttempts) => r.(xssAttempts := r.xssAttempts + 1)
    case Some(SqlInjectionAttempts) => r.(sqlInjectionAttempts := r.sqlInjectionAttempts + 1)
    case Some(SpamComments) => r.(spamComments := r.spamComments + 1)
    case _ => r
  }

  function Lookup(m: map<string, IpRecord>, ip: string): Option<IpRecord> {
    if ip in m then Some(m[ip]) else None
  }

  /** The events recorded so far for an IP, none before its first sighting. */
  function History(prev: Option<IpRecord>): seq<Event> {
    if prev.Some? then prev.value.events else []
  }

  /**
   * The record after one event from its IP: created on first sight, the
   * event appended with the newest 100 kept, the last sighting moved to now
   * and the event's counter, if the record keeps it, one higher.
   */
  function Observed(prev: Option<IpRecord>, name: string, reasons: seq<string>, now: int): (r: IpRecord)
    ensures r.events == PushCapped(History(prev), Event(name, now, reasons), HistoryCap)
    ensures r.lastSeen == now
    ensures r.firstSeen == (if prev.Some? then prev.value.firstSeen else now)
    ensures prev.Some? ==> Counted(prev.value, r, CounterFor(name, reasons))
    ensures prev.None? ==> Counted(NewRecord(now), r, CounterFor(name, reasons))
  {
    var base := if prev.Some? then prev.value else NewRecord(now);
    var events := PushCapped(History(prev), Event(name, now, reasons), HistoryCap);
    var bumped := BumpRecord(base, CounterFor(name, reasons));
    RetimedKeepsCounts(base, bumped, CounterFor(name, reasons), now, events);
    bumped.(lastSeen := now, events := events)
  }

  /** Moving the last sighting and replacing the history leaves the counters alone. */
  lemma RetimedKeepsCounts(a: IpRecord, b: IpRecord, c: Option<Counter>, now: int, events: seq<Event>)
    requires Counted(a, b, c)
    ensures Counted(a, b.(lastSeen := now, events := events), c)
  {
    var b' := b.(lastSeen := now, events := events);
    forall d | Tracked(d) ensures IpCount(b', d) == IpCount(b, d) {
    }
  }

  // ---------------------------------------------------------- analysis

  datatype Severity = Medium | High | Critical

  datatype ThreatKind =
    | HighRequestFrequency | BruteForce | XssAttack | SqlInjectionAttack | SpamAttack | MultiVector

  datatype Threat = Threat(kind: ThreatKind, severity: Severity, count: nat)

  function SeverityOf(k: ThreatKind): Severity {
    match k
    case HighRequestFrequency => High
    case BruteForce => Critical
    case XssAttack => High
    case SqlInjectionAttack => Critical
    case SpamAttack => Medium
    case MultiVector => Critical
  }

  /** The events of the last `width` milliseconds. */
  function Recent(events: seq<Event>, now: int, width: int): (r: seq<Event>)
    ensures |r| <= |events|
  {
    Filter(events, (e: Event) => now - e.timestamp < width)
  }

  function Named(events: seq<Event>, name: string): nat {
    Count(events, (e: Event) => e.name == name)
  }

  function SpamCount(events: seq<Event>): nat {
    Count(events, (e: Event) => e.name == "comment_blocked" && IsSpamReport(e.reasons))
  }

  /** How many of the three injection vectors (XSS, SQL, CSRF) occur among `events`. */
  function Vectors(events: seq<Event>): (n: nat)
    ensures n <= 3
  {
    (if Named(events, "xss_attempt") > 0 then 1 else 0) +
    (if Named(events, "sql_injection") > 0 then 1 else 0) +
    (if Named(events, "csrf_attack") > 0 then 1 else 0)
  }

  /** The windowed measures of one record: requests in the last minute, the rest over the last hour. */
  datatype Measures = Measures(requests: nat, logins: nat, xss: nat, sql: nat, spam: nat, vectors: nat)

  function MeasureOf(k: ThreatKind, ms: Measures): nat {
    match k
    case HighRequestFrequency => ms.requests
    case BruteForce => ms.logins
    case XssAttack => ms.xss
    case SqlInjectionAttack => ms.sql
    case SpamAttack => ms.spam
    case MultiVector => ms.vectors
  }

  /** The alert conditions, each on its own measure. */
  predicate Fires(k: ThreatKind, n: nat) {
    match k
    case HighRequestFrequency => n > RequestsPerMinute
    case BruteForce => n > LoginFailuresPerHour
    case XssAttack => n > XssAttemptsPerHour
    case SqlInjectionAttack => n > SqlInjectionAttemptsPerHour
    case SpamAttack => n > SpamCommentsPerHour
    case MultiVector => n >= 2
  }

  /** The order in which the conditions are checked. */
  const CheckOrder: seq<ThreatKind> :=
    [HighRequestFrequency, BruteForce, XssAttack, SqlInjectionAttack, SpamAttack, MultiVector]

  /** The threats of the kinds `ks` whose condition holds, in the order of `ks`. */
  function ThreatsFor(ks: seq<ThreatKind>, ms: Measures): (r: seq<Threat>)
    ensures |r| <= |ks|
  {
    if ks == [] then []
    else
      var k := ks[0];
      var n := MeasureOf(k, ms);
      (if Fires(k, n) then [Threat(k, SeverityOf(k), n)] else []) + ThreatsFor(ks[1..], ms)
  }

  function WindowMeasures(rec: IpRecord, now: int): Measures {
    var hour := Recent(rec.events, now, Hour);
    Measures(|Recent(rec.events, now, Minute)|, Named(hour, "login_failure"), Named(hour, "xss_attempt"),
             Named(hour, "sql_injection"), SpamCount(hour), Vectors(hour))
  }

  /** The threats one record shows, in the order they are checked. */
  function Analyze(rec: IpRecord, now: int): seq<Threat> {
    ThreatsFor(CheckOrder, WindowMeasures(rec, now))
  }

  /** The alert thresholds; a threat fires when its measure is strictly above its threshold. */
  function Threshold(k: ThreatKind): nat {
    match k
    case HighRequestFrequency => RequestsPerMinute
    case BruteForce => LoginFailuresPerHour
    case XssAttack => XssAttemptsPerHour
    case SqlInjectionAttack => SqlInjectionAttemptsPerHour
    case SpamAttack => SpamCommentsPerHour
    case MultiVector => 1
  }

  function KindRank(k: ThreatKind): nat {
    match k
    case HighRequestFrequency => 0
    case BruteForce => 1
    case XssAttack => 2
    case SqlInjectionAttack => 3
    case SpamAttack => 4
    case MultiVector => 5
  }

  /**
   * Each condition is its measure exceeding the kind's threshold; for the
   * multi-vector alert that is two or more distinct attack kinds.
   */
  lemma FiresIffAboveThreshold(k: ThreatKind, n: nat)
    ensures Fires(k, n) <==> n > Threshold(k)
    ensures k == MultiVector ==> (Fires(k, n) <==> n >= 2)
  {
  }

  predicate RankIncreasing(ks: seq<ThreatKind>) {
    forall i, j :: 0 <= i < j < |ks| ==> KindRank(ks[i]) < KindRank(ks[j])
  }

  /** The kinds of a list of threats, in its order. */
  function KindsOf(r: seq<Threat>): (ks: seq<ThreatKind>)
    ensures |ks| == |r| && forall i :: 0 <= i < |r| ==> ks[i] == r[i].kind
  {
    seq(|r|, i requires 0 <= i < |r| => r[i].kind)
  }

  /**
   * A kind is listed exactly when it is among the kinds checked and its
   * condition holds, and each listed threat carries its kind's measure and
   * severity.
   */
  lemma {:induction false} ThreatsForFiresExactly(ks: seq<ThreatKind>, ms: Measures)
    ensures var r := ThreatsFor(ks, ms);
      (forall k :: (exists t :: t in r && t.kind == k) <==> k in ks && Fires(k, MeasureOf(k, ms))) &&
      (forall t :: t in r ==> t.count == MeasureOf(t.kind, ms) && t.severity == SeverityOf(t.kind)) &&
      (forall t :: t in r ==> t.kind in ks)
  {
    if ks != [] {
      ThreatsForFiresExactly(ks[1..], ms);
      var k := ks[0];
      var rest := ThreatsFor(ks[1..], ms);
      assert ks == [k] + ks[1..];
      if Fires(k, MeasureOf(k, ms)) {
        assert ThreatsFor(ks, ms) == [Threat(k, SeverityOf(k), MeasureOf(k, ms))] + rest;
      } else {
        assert ThreatsFor(ks, ms) == rest;
      }
    }
  }

  /** A kind ranked below every kind of an ordered list can go in front of it. */
  lemma ConsKeepsOrder(k: ThreatKind, kinds: seq<ThreatKind>)
    requires RankIncreasing(kinds)
    requires forall j :: 0 <= j < |kinds| ==> KindRank(k) < KindRank(kinds[j])
    ensures RankIncreasing([k] + kinds)
  {
    var r := [k] + kinds;
    forall i, j | 0 <= i < j < |r| ensures KindRank(r[i]) < KindRank(r[j]) {
      assert r[j] == kinds[j - 1];
      if i > 0 {
        assert r[i] == kinds[i - 1];
      }
    }
  }

  /** A kind before every kind of a list ranks below each kind drawn from that list. */
  lemma RankedBelowAll(k: ThreatKind, tail: seq<ThreatKind>, kinds: seq<ThreatKind>)
    requires RankIncreasing([k] + tail)
    requires forall j :: 0 <= j < |kinds| ==> kinds[j] in tail
    ensures forall j :: 0 <= j < |kinds| ==> KindRank(k) < KindRank(kinds[j])
  {
    forall j | 0 <= j < |kinds| ensures KindRank(k) < KindRank(kinds[j]) {
      var r := [k] + tail;
      var m :| 0 <= m < |tail| && tail[m] == kinds[j];
      assert r[0] == k && r[m + 1] == kinds[j];
      assert KindRank(r[0]) < KindRank(r[m + 1]);
    }
  }

  /** The threats come in the order of the checks. */
  lemma {:induction false} ThreatsForKeepsOrder(ks: seq<ThreatKind>, ms: Measures)
    requires RankIncreasing(ks)
    ensures RankIncreasing(KindsOf(ThreatsFor(ks, ms)))
  {
    if ks != [] {
      var k := ks[0];
      var tail := ks[1..];
      var rest := ThreatsFor(tail, ms);
      assert ks == [k] + tail;
      assert RankIncreasing(tail) by {
        forall i, j | 0 <= i < j < |tail| ensures KindRank(tail[i]) < KindRank(tail[j]) {
          assert tail[i] == ks[i + 1] && tail[j] == ks[j + 1];
        }
      }
      ThreatsForKeepsOrder(tail, ms);
      if Fires(k, MeasureOf(k, ms)) {
        var t := Threat(k, SeverityOf(k), MeasureOf(k, ms));
        assert ThreatsFor(ks, ms) == [t] + rest;
        var kinds := KindsOf(rest);
        ThreatsForFiresExactly(tail, ms);
        assert forall j :: 0 <= j < |kinds| ==> kinds[j] in tail by {
          forall j | 0 <= j < |kinds| ensures kinds[j] in tail {
            assert rest[j] in rest;
          }
        }
        RankedBelowAll(k, tail, kinds);
        ConsKeepsOrder(k, kinds);
        assert KindsOf([t] + rest) == [k] + kinds;
      } else {
        assert ThreatsFor(ks, ms) == rest;
      }
    }
  }

  /** Every kind is checked, once, in rank order. */
  lemma CheckOrderIsComplete()
    ensures RankIncreasing(CheckOrder)
    ensures forall k :: k in CheckOrder
  {
    forall k ensures k in CheckOrder {
      assert CheckOrder[KindRank(k)] == k;
    }
  }

  /**
   * An analysis reports a kind exactly when that kind's windowed measure
   * exceeds its threshold, with that measure as its count, and the threats
   * come in the order of the checks.
   */
  lemma AnalyzeFiresIffAboveThreshold(rec: IpRecord, now: int)
    ensures var r := Analyze(rec, now); var ms := WindowMeasures(rec, now);
      (forall k :: (exists t :: t in r && t.kind == k) <==> MeasureOf(k, ms) > Threshold(k)) &&
      (forall t :: t in r ==> t.count == MeasureOf(t.kind, ms) && t.severity == SeverityOf(t.kind)) &&
      RankIncreasing(KindsOf(r))
  {
    var ms := WindowMeasures(rec, now);
    CheckOrderIsComplete();
    ThreatsForFiresExactly(CheckOrder, ms);
    ThreatsForKeepsOrder(CheckOrder, ms);
    forall k ensures Fires(k, MeasureOf(k, ms)) <==> MeasureOf(k, ms) > Threshold(k) {
      FiresIffAboveThreshold(k, MeasureOf(k, ms));
    }
  }

  /**
   * A request-frequency alert never fires on a record whose history holds
   * at most 100 events: the minute window cannot exceed the history.
   */
  lemma NoRequestFrequencyAlert(rec: IpRecord, now: int)
    requires |rec.events| <= HistoryCap
    ensures forall t :: t in Analyze(rec, now) ==> t.kind != HighRequestFrequency
  {
    AnalyzeFiresIffAboveThreshold(rec, now);
  }

  // ---------------------------------------------------------- response

  datatype Action = Block | Flag | AlertOnly

  /** A critical threat blocks the IP, a high one flags it; every threat raises an alert. */
  function Response(t: Threat): Action {
    match t.severity
    case Critical => Block
    case High => Flag
    case Medium => AlertOnly
  }

  function Responses(threats: seq<Threat>): (r: seq<Action>)
    ensures |r| == |threats|
    ensures forall i :: 0 <= i < |r| ==> r[i] == Response(threats[i])
  {
    seq(|threats|, i requires 0 <= i < |threats| => Response(threats[i]))
  }

  /**
   * For a threat at its kind's severity, brute force, SQL injection and
   * multi-vector attacks block the IP, request floods and XSS flag it, and
   * spam does neither.
   */
  lemma ResponseByKind(t: Threat)
    requires t.severity == SeverityOf(t.kind)
    ensures Response(t) == Block <==> t.kind in {BruteForce, SqlInjectionAttack, MultiVector}
    ensures Response(t) == Flag <==> t.kind in {HighRequestFrequency, XssAttack}
    ensures t.kind == SpamAttack ==> Response(t) == AlertOnly
  {
  }

  // ------------------------------------------------------------ scores

  /** The threat score in tenths: the weighted counters plus requests/10 capped at 50, all capped at 100. */
  function ThreatScore(r: IpRecord): (s: nat)
    ensures s <= 1000
  {
    var raw := 100 * r.loginFailures + 150 * r.xssAttempts + 200 * r.sqlInjectionAttempts +
               50 * r.spamComments + (if r.requests < 500 then r.requests else 500);
    if raw < 1000 then raw else 1000
  }

  /** More of any counter never lowers the score. */
  lemma ScoreMonotone(a: IpRecord, b: IpRecord)
    requires forall c | Tracked(c) :: IpCount(a, c) <= IpCount(b, c)
    ensures ThreatScore(a) <= ThreatScore(b)
  {
    assert IpCount(a, Requests) <= IpCount(b, Requests);
    assert IpCount(a, LoginFailures) <= IpCount(b, LoginFailures);
    assert IpCount(a, XssAttempts) <= IpCount(b, XssAttempts);
    assert IpCount(a, SqlInjectionAttempts) <= IpCount(b, SqlInjectionAttempts);
    assert IpCount(a, SpamComments) <= IpCount(b, SpamComments);
  }

  /** Requests alone never score more than 50 points, so never reach the top-threat list. */
  lemma RequestsAloneStayBelowTopCut(r: IpRecord)
    requires r.loginFailures == 0 && r.xssAttempts == 0 && r.sqlInjectionAttempts == 0 && r.spamComments == 0
    ensures ThreatScore(r) <= TopThreatCut
  {
  }

  datatype Risk = Minimal | LowRisk | MediumRisk | HighRisk

  function RiskRank(r: Risk): nat {
    match r
    case Minimal => 0
    case LowRisk => 1
    case MediumRisk => 2
    case HighRisk => 3
  }

  /** The global risk of a number of injection attempts (XSS, SQL and CSRF together). */
  function RiskOf(total: nat): Risk {
    if total > 50 then HighRisk
    else if total > 20 then MediumRisk
    else if total > 5 then LowRisk
    else Minimal
  }

  function RiskLevel(s: Stats): Risk {
    RiskOf(s.xssAttempts + s.sqlInjectionAttempts + s.csrfAttempts)
  }

  /** More attempts never lower the risk level, and each band is entered at its threshold. */
  lemma RiskMonotone(a: nat, b: nat)
    requires a <= b
    ensures RiskRank(RiskOf(a)) <= RiskRank(RiskOf(b))
    ensures RiskOf(a) == Minimal <==> a <= 5
    ensures RiskOf(a) == HighRisk <==> a > 50
  {
  }

  // ------------------------------------------------------------ listing

  /** An IP as the threat lists show it. */
  datatype Scored = Scored(ip: string, score: nat, eventCount: nat, firstSeen: int, lastSeen: int)

  function ScoreKey(e: Scored): int { e.score }

  function ScoredOf(ip: string, r: IpRecord): Scored {
    Scored(ip, ThreatScore(r), |r.events|, r.firstSeen, r.lastSeen)
  }

  /** The listed IPs scoring strictly above `cut`, in list order. */
  function Above(ips: seq<string>, m: map<string, IpRecord>, cut: nat): (r: seq<Scored>)
    ensures |r| <= |ips|
    ensures forall e :: e in r ==> e.ip in m && e == ScoredOf(e.ip, m[e.ip]) && e.score > cut
  {
    if ips == [] then []
    else
      var ip := ips[|ips| - 1];
      Above(ips[..|ips| - 1], m, cut) +
        (if ip in m && ThreatScore(m[ip]) > cut then [ScoredOf(ip, m[ip])] else [])
  }

  /** Every listed IP with a record scoring above the cut is among the candidates. */
  lemma {:induction false} AboveIsComplete(ips: seq<string>, m: map<string, IpRecord>, cut: nat, ip: string)
    requires ip in ips && ip in m && ThreatScore(m[ip]) > cut
    ensures ScoredOf(ip, m[ip]) in Above(ips, m, cut)
  {
    var last := ips[|ips| - 1];
    if last != ip {
      assert ips == ips[..|ips| - 1] + [last];
      AboveIsComplete(ips[..|ips| - 1], m, cut, ip);
    }
  }

  /** The top-threat list: above 50 points, sorted by score descending (stably), the first ten. */
  function TopThreats(candidates: seq<Scored>): (r: seq<Scored>)
    ensures |r| <= TopThreatCount
    ensures SortedDesc(r, ScoreKey)
    ensures forall e :: e in r ==> e in candidates
    ensures |candidates| <= TopThreatCount ==> multiset(r) == multiset(candidates)
    ensures |r| == if |candidates| <= TopThreatCount then |candidates| else TopThreatCount
    ensures r == SortDesc(candidates, ScoreKey)[..|r|]
    ensures multiset(r) <= multiset(candidates)
    ensures forall e, f :: e in multiset(candidates) - multiset(r) && f in r ==> ScoreKey(f) >= ScoreKey(e)
  {
    var sorted := SortDesc(candidates, ScoreKey);
    TopOfSorted(sorted, ScoreKey, TopThreatCount);
    var r := if |sorted| <= TopThreatCount then sorted else sorted[..TopThreatCount];
    assert sorted[..|r|] == r;
    PrefixOutranksRest(sorted, ScoreKey, |r|);
    assert forall e :: e in r ==> e in multiset(sorted);
    r
  }

  datatype HourlyReport = HourlyReport(stats: Stats, topThreats: seq<Scored>, suspiciousIPs: seq<Scored>)

  // ----------------------------------------------------------- monitor

  /** Whether an IP is still in a swept table. */
  function Live(kept: map<string, IpRecord>): string -> bool {
    (ip: string) => ip in kept
  }

  /** Every kept record with its history cut to the last day. */
  function Trimmed(kept: map<string, IpRecord>, now: int): (r: map<string, IpRecord>)
    ensures r.Keys == kept.Keys
    ensures forall ip :: ip in r ==> r[ip] == kept[ip].(events := Recent(kept[ip].events, now, Day))
  {
    map ip | ip in kept :: kept[ip].(events := Recent(kept[ip].events, now, Day))
  }

  /** Sweeping the table and cutting the histories keeps the table, its order and the history cap in step. */
  lemma SweepFacts(order: seq<string>, m: map<string, IpRecord>, kept: map<string, IpRecord>, now: int)
    requires NoDuplicates(order) && (forall ip :: ip in order <==> ip in m)
    requires forall ip :: ip in m ==> |m[ip].events| <= HistoryCap
    requires forall ip :: ip in kept ==> ip in m && kept[ip] == m[ip]
    ensures NoDuplicates(Filter(order, Live(kept)))
    ensures IsSubsequence(Filter(order, Live(kept)), order)
    ensures forall ip :: ip in Filter(order, Live(kept)) <==> ip in order && ip in Trimmed(kept, now)
    ensures forall ip :: ip in Filter(order, Live(kept)) <==> ip in Trimmed(kept, now)
    ensures forall ip :: ip in Trimmed(kept, now) ==> |Trimmed(kept, now)[ip].events| <= HistoryCap
  {
    FilterKeepsNoDuplicates(order, Live(kept));
    FilterIsSubsequence(order, Live(kept));
    var t := Trimmed(kept, now);
    forall ip | ip in t ensures |t[ip].events| <= HistoryCap {
      assert |kept[ip].events| <= HistoryCap;
    }
  }

  class Monitor {
    var stats: Stats
    var suspicious: map<string, IpRecord>
    /** The recorded IPs in insertion order, the order in which a Map is walked. */
    var order: seq<string>

    ghost predicate Valid()
      reads this
    {
      NoDuplicates(order) &&
      (forall ip :: ip in order <==> ip in suspicious) &&
      (forall ip :: ip in suspicious ==> |suspicious[ip].events| <= HistoryCap)
    }

    constructor ()
      ensures Valid() && stats == ZeroStats && suspicious == map[] && order == []
    {
      stats := ZeroStats;
      suspicious := map[];
      order := [];
    }

    /** Only the event's own counter, if it has one, goes up by one. */
    method UpdateStats(name: string, reasons: seq<string>)
      modifies this`stats
      ensures forall c :: Get(stats, c) == Get(old(stats), c) + (if CounterFor(name, reasons) == Some(c) then 1 else 0)
    {
      var c := CounterFor(name, reasons);
      if c.Some? {
        stats := Bump(stats, c.value);
      }
    }

    /**
     * Records the event against its IP and returns the threats the IP's
     * record now shows; an event without an IP changes nothing.
     */
    method DetectThreats(name: string, ip: string, reasons: seq<string>, now: int) returns (threats: seq<Threat>)
      requires Valid()
      modifies this`suspicious, this`order
      ensures Valid()
      ensures ip == "" ==> threats == [] && suspicious == old(suspicious) && order == old(order)
      ensures ip != "" ==>
        suspicious == old(suspicious)[ip := Observed(Lookup(old(suspicious), ip), name, reasons, now)] &&
        threats == Analyze(suspicious[ip], now)
      ensures ip != "" && ip !in old(suspicious) ==> order == old(order) + [ip]
      ensures ip == "" || ip in old(suspicious) ==> order == old(order)
      ensures forall t :: t in threats ==> t.kind != HighRequestFrequency
    {
      threats := [];
      if ip == "" {
        return;
      }
      var rec := Observed(Lookup(suspicious, ip), name, reasons, now);
      Store(ip, rec);
      NoRequestFrequencyAlert(rec, now);
      threats := Analyze(rec, now);
    }

    /** Puts a record in the table, appending its IP to the insertion order when it is new. */
    method Store(ip: string, rec: IpRecord)
      requires Valid() && |rec.events| <= HistoryCap
      modifies this`suspicious, this`order
      ensures Valid()
      ensures suspicious == old(suspicious)[ip := rec]
      ensures order == if ip in old(suspicious) then old(order) else old(order) + [ip]
    {
      if ip !in suspicious {
        AppendFresh(order, ip);
        order := order + [ip];
      }
      suspicious := suspicious[ip := rec];
    }

    /**
     * One logged event: the counters, then the IP record and its threats,
     * and the response each threat calls for.
     */
    method Log(name: string, ip: string, reasons: seq<string>, now: int)
      returns (threats: seq<Threat>, actions: seq<Action>)
      requires Valid()
      modifies this`stats, this`suspicious, this`order
      ensures Valid()
      ensures forall c :: Get(stats, c) == Get(old(stats), c) + (if CounterFor(name, reasons) == Some(c) then 1 else 0)
      ensures ip == "" ==> threats == [] && suspicious == old(suspicious) && order == old(order)
      ensures ip != "" ==>
        suspicious == old(suspicious)[ip := Observed(Lookup(old(suspicious), ip), name, reasons, now)] &&
        threats == Analyze(suspicious[ip], now)
      ensures ip != "" && ip !in old(suspicious) ==> order == old(order) + [ip]
      ensures ip == "" || ip in old(suspicious) ==> order == old(order)
      ensures forall t :: t in threats ==> t.kind != HighRequestFrequency
      ensures actions == Responses(threats)
    {
      UpdateStats(name, reasons);
      threats := DetectThreats(name, ip, reasons, now);
      actions := Responses(threats);
    }

    /** Drops the IPs idle for more than a day and trims every other history to the last day. */
    method CleanupExpiredData(now: int)
      requires Valid()
      modifies this`suspicious, this`order
      ensures Valid()
      ensures suspicious.Keys == set ip | ip in old(suspicious) && !(now - old(suspicious)[ip].lastSeen > Day)
      ensures forall ip :: ip in suspicious ==>
        suspicious[ip] == old(suspicious)[ip].(events := Recent(old(suspicious)[ip].events, now, Day))
      ensures forall ip :: ip in order <==> ip in old(order) && ip in suspicious
      ensures IsSubsequence(order, old(order))
    {
      var kept := Sweep(suspicious, (r: IpRecord) => now - r.lastSeen > Day);
      SweepFacts(order, suspicious, kept, now);
      order := Filter(order, Live(kept));
      suspicious := Trimmed(kept, now);
    }

    /** The IPs scoring above `cut`, walked in insertion order. */
    method CollectAbove(cut: nat) returns (r: seq<Scored>)
      requires Valid()
      ensures r == Above(order, suspicious, cut)
    {
      r := [];
      var i := 0;
      while i < |order|
        invariant 0 <= i <= |order|
        invariant r == Above(order[..i], suspicious, cut)
      {
        assert order[..i + 1][..i] == order[..i];
        var ip := order[i];
        var rec := suspicious[ip];
        if ThreatScore(rec) > cut {
          r := r + [ScoredOf(ip, rec)];
        }
        i := i + 1;
      }
      assert order[..i] == order;
    }

    method GetTopThreats() returns (r: seq<Scored>)
      requires Valid()
      ensures r == TopThreats(Above(order, suspicious, TopThreatCut))
    {
      var candidates := CollectAbove(TopThreatCut);
      r := TopThreats(candidates);
    }

    /** Every IP above 30 points, sorted by score descending. */
    method GetSuspiciousIPs() returns (r: seq<Scored>)
      requires Valid()
      ensures r == SortDesc(Above(order, suspicious, SuspiciousCut), ScoreKey)
    {
      var candidates := CollectAbove(SuspiciousCut);
      r := SortDesc(candidates, ScoreKey);
    }

    /** The hourly report of the counters and the threat lists, after which every counter is zero. */
    method GenerateHourlyReport() returns (report: HourlyReport)
      requires Valid()
      modifies this`stats
      ensures report.stats == old(stats)
      ensures report.topThreats == TopThreats(Above(order, suspicious, TopThreatCut))
      ensures report.suspiciousIPs == SortDesc(Above(order, suspicious, SuspiciousCut), ScoreKey)
      ensures forall c :: Get(stats, c) == 0
    {
      var top := GetTopThreats();
      var listed := GetSuspiciousIPs();
      report := HourlyReport(stats, top, listed);
      stats := ZeroStats;
    }
  }
}
