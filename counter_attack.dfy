/**
 * The attacker ledger and counter-measure engine.
 *
 * Each attacking IP has a profile: counters, the distinct attack types in the
 * order first seen, the user agents and paths seen, a threat level, a block
 * flag with its expiry and an evidence history holding the newest 100
 * entries. The monitor also keeps a fixed registry of decoy paths
 * (honeypots), a table of collected evidence and a log of the counter
 * measures taken, each swept after 30 days.
 *
 * Time is the caller's `now` in milliseconds. The evidence id, the request
 * fingerprint (a SHA-256 digest) and the attack payload are opaque values
 * supplied by the caller.
 */
module CounterAttack {
  import opened Common

  datatype Level = Low | Medium | High | Critical

  function Rank(l: Level): nat {
    match l
    case Low => 0
    case Medium => 1
    case High => 2
    case Critical => 3
  }

  /** What the ledger reads from a request; an empty string is an absent header or body. */
  datatype Request = Request(verb: string, url: string, userAgent: string, body: string)

  /** One entry of a profile's evidence history. */
  datatype EvidenceEntry = EvidenceEntry(
    timestamp: int, attackType: string, payload: string,
    verb: string, url: string, body: Option<string>)

  datatype Attacker = Attacker(
    firstSeen: int,
    lastSeen: int,
    attackCount: nat,
    attackTypes: seq<string>,      // a Set: distinct, in insertion order
    userAgents: set<string>,
    requestedPaths: set<string>,
    threatLevel: Level,
    isBlocked: bool,
    blockExpiry: Option<int>,
    evidence: seq<EvidenceEntry>,
    honeypotHits: nat,
    fingerprint: Option<string>)

  /** A record of the evidence table. */
  datatype EvidenceRecord = EvidenceRecord(
    timestamp: int, attackerIP: string, attackType: string, severity: Level,
    request: Request, payload: string, fingerprint: string)

  datatype Measure = IpBlocked | HoneypotRedirect | ResourceLimited | EnhancedMonitoring | LegalWarning

  /** A record of the counter-measure log, keyed by IP and time. */
  datatype MeasureRecord = MeasureRecord(
    ip: string, timestamp: int, attackType: string, measures: seq<Measure>, payload: string)

  datatype Honeypot = Honeypot(hits: nat, lastHit: Option<int>, visitors: set<string>)

  datatype MeasureConfig = MeasureConfig(
    autoBlock: bool, blockDuration: int, honeypotRedirect: bool, legalNotification: bool)

  const DefaultConfig := MeasureConfig(true, Day, true, true)

  const EvidenceCap: nat := 100
  const BodyCap: nat := 1000
  const RetentionPeriod: int := 30 * Day
  const ActiveWindow: int := 6 * Hour
  const TopCount: nat := 10

  const DecoyPathList: seq<string> := [
    "/admin/login.php", "/wp-admin/admin.php", "/phpmyadmin/index.php", "/.env",
    "/config.php", "/backup.sql", "/test.php", "/debug.log"
  ]

  // ------------------------------------------------------------ scoring

  /** The weight of one attack type; a type outside the table weighs 5. */
  function TypeWeight(t: string): (w: nat)
    ensures 5 <= w <= 25
  {
    if t == "sql_injection" then 20
    else if t == "xss_attack" then 15
    else if t == "command_injection" then 25
    else if t == "path_traversal" then 15
    else if t == "brute_force" then 10
    else if t == "scanning" then 5
    else 5
  }

  /** The summed weight of a profile's distinct attack types. */
  function WeightSum(types: seq<string>): (n: nat)
    ensures 5 * |types| <= n <= 25 * |types|
  {
    if types == [] then 0
    else WeightSum(types[..|types| - 1]) + TypeWeight(types[|types| - 1])
  }

  lemma WeightSumAppend(types: seq<string>, t: string)
    ensures WeightSum(types + [t]) == WeightSum(types) + TypeWeight(t)
  {
    assert (types + [t])[..|types|] == types;
  }

  /** Recording a type already in the set leaves the weight alone; a new type adds its weight. */
  lemma AddTypeWeight(types: seq<string>, t: string)
    ensures WeightSum(AddToSet(types, t)) == WeightSum(types) + (if t in types then 0 else TypeWeight(t))
  {
    if t !in types {
      WeightSumAppend(types, t);
    }
  }

  /**
   * The unclamped threat score: the capped attack count, the type weights,
   * ten per honeypot hit and a bonus of 20 for more than ten attacks within
   * a day of the first one.
   */
  function ThreatScore(a: Attacker, now: int): (score: nat)
    ensures 5 * |a.attackTypes| + 10 * a.honeypotHits <= score
    ensures score <= 50 + 25 * |a.attackTypes| + 10 * a.honeypotHits + 20
  {
    Score(a.attackCount, a.attackTypes, a.honeypotHits, a.firstSeen, now)
  }

  function Score(attackCount: nat, attackTypes: seq<string>, honeypotHits: nat, firstSeen: int, now: int): (score: nat)
    ensures 5 * |attackTypes| + 10 * honeypotHits <= score
    ensures score <= 50 + 25 * |attackTypes| + 10 * honeypotHits + 20
  {
    var countPart := if 2 * attackCount < 50 then 2 * attackCount else 50;
    var recent := now - firstSeen < Day && attackCount > 10;
    countPart + WeightSum(attackTypes) + 10 * honeypotHits + (if recent then 20 else 0)
  }

  function LevelOf(score: int): (l: Level) {
    if score >= 80 then Critical
    else if score >= 60 then High
    else if score >= 40 then Medium
    else Low
  }

  /** The level is monotone in the score, and each level is the band the thresholds name. */
  lemma LevelBands(score: int, other: int)
    ensures score <= other ==> Rank(LevelOf(score)) <= Rank(LevelOf(other))
    ensures LevelOf(score) == Critical <==> score >= 80
    ensures LevelOf(score) == High <==> 60 <= score < 80
    ensures LevelOf(score) == Medium <==> 40 <= score < 60
    ensures LevelOf(score) == Low <==> score < 40
  {
  }

  /** Four honeypot hits make a profile at least MEDIUM, eight make it CRITICAL, whatever else it holds. */
  lemma HoneypotHitsRaiseLevel(a: Attacker, now: int)
    ensures a.honeypotHits >= 4 ==> Rank(LevelOf(ThreatScore(a, now))) >= 1
    ensures a.honeypotHits >= 8 ==> LevelOf(ThreatScore(a, now)) == Critical
  {
  }

  /**
   * The level is not monotone in time: the recency bonus lapses a day after
   * the first attack, so the same profile scores 20 less.
   */
  lemma RecencyBonusLapses(a: Attacker, before: int, after: int)
    requires a.attackCount > 10
    requires before - a.firstSeen < Day <= after - a.firstSeen
    ensures ThreatScore(a, after) == ThreatScore(a, before) - 20
  {
  }

  /** A concrete profile whose level falls from HIGH to MEDIUM with nothing but time passing. */
  lemma LevelCanDrop()
    ensures var a := Attacker(0, 0, 11, ["sql_injection", "xss_attack"], {}, {}, Low, false, None, [], 0, None);
      LevelOf(ThreatScore(a, Hour)) == High && LevelOf(ThreatScore(a, Day)) == Medium
  {
    var a := Attacker(0, 0, 11, ["sql_injection", "xss_attack"], {}, {}, Low, false, None, [], 0, None);
    assert WeightSum(a.attackTypes) == 35 by {
      assert a.attackTypes[..1] == ["sql_injection"];
      assert ["sql_injection"][..0] == [];
    }
  }

  // ----------------------------------------------------------- profiles

  /** The invariant every stored profile keeps. */
  predicate ProfileValid(a: Attacker) {
    NoDuplicates(a.attackTypes) && |a.evidence| <= EvidenceCap
  }

  predicate AllProfilesValid(m: map<string, Attacker>) {
    forall ip :: ip in m ==> ProfileValid(m[ip])
  }

  /** Recording a valid profile keeps the attacker table and its insertion order in step. */
  lemma IndexedInsert(order: seq<string>, m: map<string, Attacker>, ip: string, a: Attacker, next: seq<string>)
    requires NoDuplicates(order) && (forall x :: x in order <==> x in m) && AllProfilesValid(m) && ProfileValid(a)
    requires next == if ip in m then order else order + [ip]
    ensures NoDuplicates(next) && (forall x :: x in next <==> x in m[ip := a]) && AllProfilesValid(m[ip := a])
  {
    if ip !in m {
      AppendFresh(order, ip);
    }
  }

  /** The profile a first attack starts from. */
  function NewProfile(now: int): (a: Attacker)
    ensures ProfileValid(a) && a.attackCount == 0 && a.threatLevel == Low
    ensures !a.isBlocked && a.blockExpiry == None && a.honeypotHits == 0
  {
    Attacker(now, now, 0, [], {}, {}, Low, false, None, [], 0, None)
  }

  /** The stored body: absent when empty, otherwise its first 1000 characters. */
  function TruncatedBody(body: string): (r: Option<string>)
    ensures body == "" <==> r == None
    ensures r.Some? ==> |r.value| <= BodyCap && |r.value| <= |body| && r.value == body[..|r.value|]
  {
    if body == "" then None
    else if |body| <= BodyCap then Some(body)
    else Some(body[..BodyCap])
  }

  function EntryFor(req: Request, attackType: string, payload: string, now: int): EvidenceEntry {
    EvidenceEntry(now, attackType, payload, req.verb, req.url, TruncatedBody(req.body))
  }

  /**
   * The profile after one recorded attack: the count goes up by one, the type,
   * user agent and path join their sets, the fingerprint is replaced, the level
   * is recomputed from the updated profile and the evidence entry is appended
   * to a history that keeps its newest 100 entries.
   */
  function Recorded(prev: Option<Attacker>, req: Request, attackType: string, payload: string,
                    fingerprint: string, now: int): (a: Attacker)
    requires prev.Some? ==> ProfileValid(prev.value)
    ensures ProfileValid(a)
  {
    var base := if prev.Some? then prev.value else NewProfile(now);
    var agent := if req.userAgent == "" then "Unknown" else req.userAgent;
    var count := base.attackCount + 1;
    var types := AddToSet(base.attackTypes, attackType);
    var level := LevelOf(Score(count, types, base.honeypotHits, base.firstSeen, now));
    Attacker(base.firstSeen, now, count, types, base.userAgents + {agent}, base.requestedPaths + {req.url},
             level, base.isBlocked, base.blockExpiry,
             PushCapped(base.evidence, EntryFor(req, attackType, payload, now), EvidenceCap),
             base.honeypotHits, Some(fingerprint))
  }

  /** What one recorded attack does to a profile, new or existing. */
  lemma RecordedProfile(prev: Option<Attacker>, req: Request, attackType: string, payload: string,
                        fingerprint: string, now: int)
    requires prev.Some? ==> ProfileValid(prev.value)
    ensures var a := Recorded(prev, req, attackType, payload, fingerprint, now);
      && a.attackCount == (if prev.Some? then prev.value.attackCount else 0) + 1
      && attackType in a.attackTypes
      && (prev.Some? ==> forall t :: t in prev.value.attackTypes ==> t in a.attackTypes)
      && req.url in a.requestedPaths
      && (if req.userAgent == "" then "Unknown" else req.userAgent) in a.userAgents
      && a.lastSeen == now && a.fingerprint == Some(fingerprint)
      && a.threatLevel == LevelOf(ThreatScore(a, now))
      && (prev.None? ==> a.firstSeen == now && !a.isBlocked && a.blockExpiry == None && a.honeypotHits == 0)
      && (prev.Some? ==>
            a.firstSeen == prev.value.firstSeen && a.isBlocked == prev.value.isBlocked &&
            a.blockExpiry == prev.value.blockExpiry && a.honeypotHits == prev.value.honeypotHits)
  {
  }

  /** The evidence history keeps the newest 100 entries, the new one last. */
  lemma RecordedEvidence(prev: Option<Attacker>, req: Request, attackType: string, payload: string,
                         fingerprint: string, now: int)
    requires prev.Some? ==> ProfileValid(prev.value)
    ensures var a := Recorded(prev, req, attackType, payload, fingerprint, now);
      var before := if prev.Some? then prev.value.evidence else [];
      && |a.evidence| <= EvidenceCap
      && a.evidence[|a.evidence| - 1] == EntryFor(req, attackType, payload, now)
      && a.evidence == KeepLast(before + [EntryFor(req, attackType, payload, now)], EvidenceCap)
  {
  }

  /** At a fixed time, recording another attack never lowers a profile's score. */
  lemma RecordingNeverLowersScore(a: Attacker, req: Request, attackType: string, payload: string,
                                  fingerprint: string, now: int)
    requires ProfileValid(a)
    ensures ThreatScore(a, now) <= ThreatScore(Recorded(Some(a), req, attackType, payload, fingerprint, now), now)
  {
    AddTypeWeight(a.attackTypes, attackType);
  }

  // --------------------------------------------------------- decisions

  predicate ShouldBlockIP(a: Attacker) {
    a.attackCount >= 3 || a.threatLevel == Critical || a.honeypotHits > 0
  }

  predicate ShouldRedirectToHoneypot(a: Attacker) {
    a.attackCount >= 2 && a.threatLevel != Low
  }

  /** Two attacks, a level below CRITICAL and no honeypot hit: not yet blocked; a third attack blocks. */
  lemma BlockThreshold(a: Attacker)
    ensures a.attackCount == 2 && a.threatLevel != Critical && a.honeypotHits == 0 ==> !ShouldBlockIP(a)
    ensures a.attackCount >= 3 ==> ShouldBlockIP(a)
  {
  }

  function MeasureOrder(m: Measure): nat {
    match m
    case IpBlocked => 0
    case HoneypotRedirect => 1
    case ResourceLimited => 2
    case EnhancedMonitoring => 3
    case LegalWarning => 4
  }

  /** The measures appear in the order of the checks, each at most once. */
  predicate InCheckOrder(ms: seq<Measure>) {
    forall i, j :: 0 <= i < j < |ms| ==> MeasureOrder(ms[i]) < MeasureOrder(ms[j])
  }

  /** The pushes of the counter-measure checks, given which conditions held. */
  function MeasureList(block: bool, redirect: bool, limit: bool, warn: bool): (ms: seq<Measure>)
    ensures EnhancedMonitoring in ms
    ensures IpBlocked in ms <==> block
    ensures HoneypotRedirect in ms <==> redirect
    ensures ResourceLimited in ms <==> limit
    ensures LegalWarning in ms <==> warn
  {
    var blocked := if block then [IpBlocked] else [];
    var redirected := if redirect then blocked + [HoneypotRedirect] else blocked;
    var limited := if limit then redirected + [ResourceLimited] else redirected;
    var monitored := limited + [EnhancedMonitoring];
    if warn then monitored + [LegalWarning] else monitored
  }

  /** A measure ranked after every measure of an ordered list can be pushed onto it. */
  lemma PushKeepsCheckOrder(ms: seq<Measure>, m: Measure)
    requires InCheckOrder(ms)
    requires forall i :: 0 <= i < |ms| ==> MeasureOrder(ms[i]) < MeasureOrder(m)
    ensures InCheckOrder(ms + [m])
  {
    var r := ms + [m];
    forall i, j | 0 <= i < j < |r| ensures MeasureOrder(r[i]) < MeasureOrder(r[j]) {
      assert r[i] == ms[i];
      if j < |ms| {
        assert r[j] == ms[j];
      }
    }
  }

  lemma MeasureListInCheckOrder(block: bool, redirect: bool, limit: bool, warn: bool)
    ensures InCheckOrder(MeasureList(block, redirect, limit, warn))
  {
    var blocked: seq<Measure> := if block then [IpBlocked] else [];
    var redirected := blocked;
    if redirect {
      PushKeepsCheckOrder(blocked, HoneypotRedirect);
      redirected := blocked + [HoneypotRedirect];
    }
    var limited := redirected;
    if limit {
      PushKeepsCheckOrder(redirected, ResourceLimited);
      limited := redirected + [ResourceLimited];
    }
    PushKeepsCheckOrder(limited, EnhancedMonitoring);
    var monitored := limited + [EnhancedMonitoring];
    if warn {
      PushKeepsCheckOrder(monitored, LegalWarning);
    }
  }

  /**
   * The counter measures taken against a profile, in the fixed order of the
   * checks. Monitoring is always among them; each other measure is present
   * exactly when its condition holds.
   */
  function MeasuresFor(a: Attacker, cfg: MeasureConfig): (ms: seq<Measure>)
    ensures EnhancedMonitoring in ms
    ensures IpBlocked in ms <==> cfg.autoBlock && ShouldBlockIP(a)
    ensures HoneypotRedirect in ms <==> cfg.honeypotRedirect && ShouldRedirectToHoneypot(a)
    ensures ResourceLimited in ms <==> a.threatLevel == High || a.threatLevel == Critical
    ensures LegalWarning in ms <==> cfg.legalNotification && a.attackCount > 5
    ensures InCheckOrder(ms)
  {
    var block := cfg.autoBlock && ShouldBlockIP(a);
    var redirect := cfg.honeypotRedirect && ShouldRedirectToHoneypot(a);
    var limit := a.threatLevel == High || a.threatLevel == Critical;
    var warn := cfg.legalNotification && a.attackCount > 5;
    MeasureListInCheckOrder(block, redirect, limit, warn);
    MeasureList(block, redirect, limit, warn)
  }

  /** The profile once the counter measures have run: blocked exactly when the block check fires. */
  function Countered(a: Attacker, cfg: MeasureConfig, now: int): Attacker
  {
    if cfg.autoBlock && ShouldBlockIP(a) then a.(isBlocked := true, blockExpiry := Some(now + cfg.blockDuration)) else a
  }

  function Severity(attackType: string): (l: Level)
    ensures attackType !in {"sql_injection", "command_injection", "xss_attack", "path_traversal", "scanning"} ==> l == Medium
  {
    if attackType == "sql_injection" || attackType == "command_injection" then Critical
    else if attackType == "xss_attack" || attackType == "path_traversal" then High
    else if attackType == "brute_force" then Medium
    else if attackType == "scanning" then Low
    else Medium
  }

  /** The client address: the first present of the forwarding headers and the socket addresses. */
  function ClientIP(forwardedFor: string, realIp: string, connectionAddr: string, socketAddr: string): (ip: string)
    ensures ip != ""
    ensures ip in {forwardedFor, realIp, connectionAddr, socketAddr, "127.0.0.1"}
  {
    if forwardedFor != "" then forwardedFor
    else if realIp != "" then realIp
    else if connectionAddr != "" then connectionAddr
    else if socketAddr != "" then socketAddr
    else "127.0.0.1"
  }

  // ------------------------------------------------------- private IPs

  /** `^172\.(1[6-9]|2[0-9]|3[0-1])\.` */
  predicate Is172Private(ip: string) {
    |ip| >= 7 && ip[..4] == "172." && ip[6] == '.' &&
    ((ip[4] == '1' && '6' <= ip[5] <= '9') ||
     (ip[4] == '2' && IsDigit(ip[5])) ||
     (ip[4] == '3' && '0' <= ip[5] <= '1'))
  }

  predicate IsPrivateIP(ip: string) {
    StartsWith(ip, "10.") || Is172Private(ip) || StartsWith(ip, "192.168.") ||
    StartsWith(ip, "127.") || StartsWith(ip, "169.254.") || ip == "::1" ||
    StartsWith(ip, "fc00:") || StartsWith(ip, "fe80:")
  }

  function TwoDigits(n: nat): (s: string)
    requires 10 <= n < 100
    ensures |s| == 2
  {
    [DigitChar(n / 10), DigitChar(n % 10)]
  }

  /** The 172 pattern is exactly the block 172.16.0.0 to 172.31.255.255 written in decimal. */
  lemma Is172PrivateIsBlock(ip: string)
    ensures Is172Private(ip) <==> exists n | 16 <= n <= 31 :: StartsWith(ip, "172." + TwoDigits(n) + ".")
  {
    if Is172Private(ip) {
      var n := (ip[4] as int - '0' as int) * 10 + (ip[5] as int - '0' as int);
      assert 16 <= n <= 31;
      assert TwoDigits(n) == [ip[4], ip[5]];
      assert ip[..7] == "172." + TwoDigits(n) + ".";
    }
    if exists n | 16 <= n <= 31 :: StartsWith(ip, "172." + TwoDigits(n) + ".") {
      var n :| 16 <= n <= 31 && StartsWith(ip, "172." + TwoDigits(n) + ".");
      var p := "172." + TwoDigits(n) + ".";
      assert ip[..7] == p;
      assert ip[..4] == p[..4] == "172.";
      assert ip[4] == DigitChar(n / 10) && ip[5] == DigitChar(n % 10) && ip[6] == '.';
    }
  }

  lemma PrivateIPExamples()
    ensures IsPrivateIP("172.16.0.1") && IsPrivateIP("::1") && IsPrivateIP("10.0.0.8")
    ensures !Is172Private("172.32.0.1") && !IsPrivateIP("::10")
  {
    assert "10.0.0.8"[..3] == "10.";
    assert "172.16.0.1"[..4] == "172.";
    var v6 := "::10";
    assert v6[..3] != "10." && v6[..4] != "172." && v6[..4] != "127." && v6 != "::1";
    assert v6[0] != '1' && v6[0] != 'f';
  }

  // ------------------------------------------------------------ report

  /** The summed counters of a report over a list of profiles. */
  datatype Summary = Summary(
    activeAttackers: nat, totalAttacks: nat, blockedIPs: nat, honeypotHits: nat,
    critical: nat, high: nat, medium: nat, low: nat,
    attackTypes: map<string, nat>)

  datatype TopEntry = TopEntry(ip: string, attackCount: nat, threatLevel: Level)

  datatype AttackReport = AttackReport(
    totalAttackers: nat, evidenceCollected: nat, summary: Summary, topAttackers: seq<TopEntry>)

  const EmptySummary := Summary(0, 0, 0, 0, 0, 0, 0, 0, map[])

  /** Counts each of `types` once more in the histogram. */
  function AddTypes(hist: map<string, nat>, types: seq<string>): (r: map<string, nat>)
    ensures forall t :: t !in types ==> GetOrZero(r, t) == GetOrZero(hist, t)
  {
    if types == [] then hist
    else
      var last := types[|types| - 1];
      var h := AddTypes(hist, types[..|types| - 1]);
      h[last := GetOrZero(h, last) + 1]
  }

  /** Over distinct types the histogram grows by one exactly for the listed types. */
  lemma {:induction false} AddTypesCounts(hist: map<string, nat>, types: seq<string>, t: string)
    requires NoDuplicates(types)
    ensures GetOrZero(AddTypes(hist, types), t) == GetOrZero(hist, t) + (if t in types then 1 else 0)
  {
    if types != [] {
      var init := types[..|types| - 1];
      var last := types[|types| - 1];
      assert types == init + [last];
      assert last !in init by {
        forall i | 0 <= i < |init| ensures init[i] != last {
          assert init[i] == types[i];
        }
      }
      AddTypesCounts(hist, init, t);
    }
  }

  function LevelTally(s: Summary, l: Level): Summary {
    match l
    case Critical => s.(critical := s.critical + 1)
    case High => s.(high := s.high + 1)
    case Medium => s.(medium := s.medium + 1)
    case Low => s.(low := s.low + 1)
  }

  /** One profile's share of the report. */
  function Step(acc: Summary, a: Attacker, now: int): Summary {
    LevelTally(acc, a.threatLevel).(
      totalAttacks := acc.totalAttacks + a.attackCount,
      blockedIPs := acc.blockedIPs + (if a.isBlocked then 1 else 0),
      activeAttackers := acc.activeAttackers + (if now - a.lastSeen < ActiveWindow then 1 else 0),
      honeypotHits := acc.honeypotHits + a.honeypotHits,
      attackTypes := AddTypes(acc.attackTypes, a.attackTypes))
  }

  /** The report's counters over a list of profiles; the level histogram accounts for every profile once. */
  function Tally(s: seq<Attacker>, now: int): (r: Summary)
    ensures r.critical + r.high + r.medium + r.low == |s|
    ensures r.blockedIPs <= |s| && r.activeAttackers <= |s|
  {
    if s == [] then EmptySummary
    else Step(Tally(s[..|s| - 1], now), s[|s| - 1], now)
  }

  /** The type histogram counts, for each type, the profiles that show it. */
  lemma {:induction false} TallyTypeCounts(s: seq<Attacker>, now: int, t: string, shows: Attacker -> bool)
    requires forall i :: 0 <= i < |s| ==> NoDuplicates(s[i].attackTypes)
    requires forall a :: shows(a) == (t in a.attackTypes)
    ensures GetOrZero(Tally(s, now).attackTypes, t) == Count(s, shows)
  {
    if s != [] {
      var init := s[..|s| - 1];
      var last := s[|s| - 1];
      TallyTypeCounts(init, now, t, shows);
      AddTypesCounts(Tally(init, now).attackTypes, last.attackTypes, t);
      assert s == init + [last];
      CountAppend(init, [last], shows);
      assert Count([last], shows) == if shows(last) then 1 else 0 by {
        assert [last][1..] == [];
      }
    }
  }

  /** The profiles of the listed IPs, in list order (an IP without a profile contributes nothing). */
  function ProfilesOf(ips: seq<string>, m: map<string, Attacker>): (r: seq<Attacker>)
    ensures |r| <= |ips|
    ensures forall a :: a in r ==> exists ip :: ip in m && m[ip] == a
  {
    if ips == [] then []
    else
      var ip := ips[|ips| - 1];
      ProfilesOf(ips[..|ips| - 1], m) + (if ip in m then [m[ip]] else [])
  }

  /** The candidates for the top list, in list order. */
  function TopEntriesOf(ips: seq<string>, m: map<string, Attacker>): (r: seq<TopEntry>)
    ensures |r| <= |ips|
    ensures forall e :: e in r ==> e.ip in m && e.attackCount == m[e.ip].attackCount
  {
    if ips == [] then []
    else
      var ip := ips[|ips| - 1];
      TopEntriesOf(ips[..|ips| - 1], m) + (if ip in m then [TopEntry(ip, m[ip].attackCount, m[ip].threatLevel)] else [])
  }

  function EntryCount(e: TopEntry): int { e.attackCount }

  /** The ten most active attackers: a stable sort by attack count, descending, then the first ten. */
  function TopAttackers(entries: seq<TopEntry>): (r: seq<TopEntry>)
    ensures |r| <= TopCount
    ensures SortedDesc(r, EntryCount)
    ensures forall e :: e in r ==> e in entries
    ensures |entries| <= TopCount ==> multiset(r) == multiset(entries)
    ensures |r| == if |entries| <= TopCount then |entries| else TopCount
    ensures r == SortDesc(entries, EntryCount)[..|r|]
    ensures multiset(r) <= multiset(entries)
    ensures forall e, f :: e in multiset(entries) - multiset(r) && f in r ==> EntryCount(f) >= EntryCount(e)
  {
    var sorted := SortDesc(entries, EntryCount);
    TopOfSorted(sorted, EntryCount, TopCount);
    var r := if |sorted| <= TopCount then sorted else sorted[..TopCount];
    assert sorted[..|r|] == r;
    PrefixOutranksRest(sorted, EntryCount, |r|);
    assert forall e :: e in r ==> e in multiset(sorted);
    r
  }

  /** No attacker left out of the top list has more attacks than one listed. */
  lemma TopAttackersDominate(entries: seq<TopEntry>)
    ensures var sorted := SortDesc(entries, EntryCount);
      forall i, j :: 0 <= i < |TopAttackers(entries)| <= j < |sorted| ==>
        TopAttackers(entries)[i].attackCount >= sorted[j].attackCount
  {
    var sorted := SortDesc(entries, EntryCount);
    TopOfSorted(sorted, EntryCount, TopCount);
  }

  /** `types.forEach(t => hist[t] = (hist[t] || 0) + 1)` */
  method CountTypes(hist: map<string, nat>, types: seq<string>) returns (r: map<string, nat>)
    ensures r == AddTypes(hist, types)
  {
    r := hist;
    var j := 0;
    while j < |types|
      invariant 0 <= j <= |types|
      invariant r == AddTypes(hist, types[..j])
    {
      assert types[..j + 1][..j] == types[..j];
      r := r[types[j] := GetOrZero(r, types[j]) + 1];
      j := j + 1;
    }
    assert types[..j] == types;
  }

  /** One more profile walked: the fold and the candidate list each grow by that profile. */
  lemma ReportStep(ips: seq<string>, m: map<string, Attacker>, i: nat, now: int)
    requires i < |ips| && ips[i] in m
    ensures Tally(ProfilesOf(ips[..i + 1], m), now) == Step(Tally(ProfilesOf(ips[..i], m), now), m[ips[i]], now)
    ensures TopEntriesOf(ips[..i + 1], m) == TopEntriesOf(ips[..i], m) + [TopEntry(ips[i], m[ips[i]].attackCount, m[ips[i]].threatLevel)]
  {
    assert ips[..i + 1][..i] == ips[..i];
  }

  // ----------------------------------------------------------- monitor

  class Monitor {
    var attackers: map<string, Attacker>
    /** The attackers' IPs in insertion order, the order in which a Map is walked. */
    var order: seq<string>
    var honeypots: map<string, Honeypot>
    var evidenceDB: map<string, EvidenceRecord>
    var counterMeasures: map<(string, int), MeasureRecord>
    const config: MeasureConfig
    /** The registered decoy paths. */
    const decoys: set<string>

    ghost predicate Valid()
      reads this
    {
      NoDuplicates(order) &&
      (forall ip :: ip in order <==> ip in attackers) &&
      AllProfilesValid(attackers) &&
      (forall p :: p in honeypots <==> p in decoys)
    }

    /** A fresh monitor with every decoy path registered and unvisited. */
    constructor ()
      ensures Valid() && config == DefaultConfig && decoys == set p | p in DecoyPathList
      ensures attackers == map[] && evidenceDB == map[] && counterMeasures == map[]
      ensures forall p :: p in honeypots ==> honeypots[p] == Honeypot(0, None, {})
    {
      attackers := map[];
      order := [];
      honeypots := map p | p in DecoyPathList :: Honeypot(0, None, {});
      evidenceDB := map[];
      counterMeasures := map[];
      config := DefaultConfig;
      decoys := set p | p in DecoyPathList;
    }

    method RecordAttacker(ip: string, req: Request, attackType: string, payload: string,
                          fingerprint: string, now: int)
      requires Valid()
      modifies this`attackers, this`order
      ensures Valid()
      ensures attackers == old(attackers)[ip := Recorded(Find(old(attackers), ip),
                                                         req, attackType, payload, fingerprint, now)]
      ensures order == if ip in old(attackers) then old(order) else old(order) + [ip]
    {
      var prev := Find(attackers, ip);
      var a := Recorded(prev, req, attackType, payload, fingerprint, now);
      Store(ip, a);
    }

    /** Puts a profile in the table, appending its IP to the insertion order when it is new. */
    method Store(ip: string, a: Attacker)
      requires Valid() && ProfileValid(a)
      modifies this`attackers, this`order
      ensures Valid()
      ensures attackers == old(attackers)[ip := a]
      ensures order == if ip in old(attackers) then old(order) else old(order) + [ip]
    {
      var nextOrder := if ip in attackers then order else order + [ip];
      IndexedInsert(order, attackers, ip, a, nextOrder);
      order := nextOrder;
      attackers := attackers[ip := a];
    }

    method CollectEvidence(ip: string, req: Request, attackType: string, payload: string,
                           fingerprint: string, evidenceId: string, now: int)
      requires Valid()
      modifies this`evidenceDB
      ensures Valid()
      ensures evidenceDB == old(evidenceDB)[evidenceId :=
        EvidenceRecord(now, ip, attackType, Severity(attackType), req, payload, fingerprint)]
    {
      evidenceDB := evidenceDB[evidenceId :=
        EvidenceRecord(now, ip, attackType, Severity(attackType), req, payload, fingerprint)];
    }

    /** Blocks a known attacker until a block duration from now; an unknown IP is left alone. */
    method BlockIP(ip: string, now: int)
      requires Valid()
      modifies this`attackers
      ensures Valid()
      ensures ip in old(attackers) ==> attackers == old(attackers)[ip :=
        old(attackers)[ip].(isBlocked := true, blockExpiry := Some(now + config.blockDuration))]
      ensures ip !in old(attackers) ==> attackers == old(attackers)
    {
      if ip in attackers {
        var a := attackers[ip];
        attackers := attackers[ip := a.(isBlocked := true, blockExpiry := Some(now + config.blockDuration))];
      }
    }

    /**
     * Decides and applies the counter measures for a known attacker and logs
     * them under (ip, now); an unknown IP gets none and nothing is logged.
     */
    method ExecuteCounterMeasures(ip: string, attackType: string, payload: string, now: int)
      returns (measures: seq<Measure>)
      requires Valid()
      modifies this`attackers, this`counterMeasures
      ensures Valid()
      ensures ip !in old(attackers) ==> (measures == [] && attackers == old(attackers)
        && counterMeasures == old(counterMeasures))
      ensures ip in old(attackers) ==> (measures == MeasuresFor(old(attackers)[ip], config)
        && counterMeasures == old(counterMeasures)[(ip, now) := MeasureRecord(ip, now, attackType, measures, payload)])
      ensures ip in old(attackers) ==> attackers == old(attackers)[ip := Countered(old(attackers)[ip], config, now)]
    {
      measures := [];
      if ip !in attackers {
        return;
      }
      var a := attackers[ip];
      if config.autoBlock && ShouldBlockIP(a) {
        BlockIP(ip, now);
      }
      measures := MeasuresFor(a, config);
      counterMeasures := counterMeasures[(ip, now) := MeasureRecord(ip, now, attackType, measures, payload)];
    }

    /** Records an attack, files its evidence and applies the counter measures, in that order. */
    method DetectAndRecordAttack(ip: string, req: Request, attackType: string, payload: string,
                                 fingerprint: string, evidenceId: string, now: int)
      returns (measures: seq<Measure>)
      requires Valid()
      modifies this`attackers, this`order, this`evidenceDB, this`counterMeasures
      ensures Valid()
      ensures var rec := Recorded(Find(old(attackers), ip),
                                  req, attackType, payload, fingerprint, now);
        measures == MeasuresFor(rec, config) && attackers == old(attackers)[ip := Countered(rec, config, now)]
      ensures order == if ip in old(attackers) then old(order) else old(order) + [ip]
      ensures evidenceDB == old(evidenceDB)[evidenceId :=
        EvidenceRecord(now, ip, attackType, Severity(attackType), req, payload, fingerprint)]
      ensures counterMeasures == old(counterMeasures)[(ip, now) := MeasureRecord(ip, now, attackType, measures, payload)]
    {
      ghost var before := attackers;
      ghost var rec := Recorded(Find(attackers, ip),
                                req, attackType, payload, fingerprint, now);
      RecordAndCollect(ip, req, attackType, payload, fingerprint, evidenceId, now);
      measures := CounterRecorded(ip, rec, attackType, payload, now);
      UpdateTwice(before, ip, rec, Countered(rec, config, now));
    }

    /** The counter measures for an address whose profile has just been recorded as `a`. */
    method CounterRecorded(ip: string, ghost a: Attacker, attackType: string, payload: string, now: int)
      returns (measures: seq<Measure>)
      requires Valid() && ip in attackers && attackers[ip] == a
      modifies this`attackers, this`counterMeasures
      ensures Valid()
      ensures measures == MeasuresFor(a, config)
      ensures attackers == old(attackers)[ip := Countered(a, config, now)]
      ensures counterMeasures == old(counterMeasures)[(ip, now) := MeasureRecord(ip, now, attackType, measures, payload)]
    {
      measures := ExecuteCounterMeasures(ip, attackType, payload, now);
    }

    /** The first two steps of an attack: the profile is recorded, then its evidence filed. */
    method RecordAndCollect(ip: string, req: Request, attackType: string, payload: string,
                            fingerprint: string, evidenceId: string, now: int)
      requires Valid()
      modifies this`attackers, this`order, this`evidenceDB
      ensures Valid()
      ensures attackers == old(attackers)[ip := Recorded(Find(old(attackers), ip),
                                                         req, attackType, payload, fingerprint, now)]
      ensures order == if ip in old(attackers) then old(order) else old(order) + [ip]
      ensures evidenceDB == old(evidenceDB)[evidenceId :=
        EvidenceRecord(now, ip, attackType, Severity(attackType), req, payload, fingerprint)]
    {
      RecordAttacker(ip, req, attackType, payload, fingerprint, now);
      CollectEvidence(ip, req, attackType, payload, fingerprint, evidenceId, now);
    }

    /**
     * A request for a decoy path counts a hit on that decoy and on the
     * visitor's profile, if it has one; the level is not recomputed. Any
     * other path changes nothing.
     */
    method CheckHoneypotAccess(path: string, ip: string, now: int) returns (hit: bool)
      requires Valid()
      modifies this`honeypots, this`attackers
      ensures Valid()
      ensures hit <==> path in decoys
      ensures hit ==> honeypots == old(honeypots)[path :=
        Honeypot(old(honeypots)[path].hits + 1, Some(now), old(honeypots)[path].visitors + {ip})]
      ensures hit && ip in old(attackers) ==> attackers == old(attackers)[ip :=
        old(attackers)[ip].(honeypotHits := old(attackers)[ip].honeypotHits + 1)]
      ensures !hit || ip !in old(attackers) ==> attackers == old(attackers)
      ensures !hit ==> honeypots == old(honeypots)
    {
      hit := path in honeypots;
      if hit {
        var h := honeypots[path];
        honeypots := honeypots[path := Honeypot(h.hits + 1, Some(now), h.visitors + {ip})];
        if ip in attackers {
          var a := attackers[ip];
          attackers := attackers[ip := a.(honeypotHits := a.honeypotHits + 1)];
        }
      }
    }

    /**
     * Drops the profiles idle for more than 30 days and the evidence and
     * counter-measure records older than 30 days; every other entry stays as
     * it was.
     */
    method CleanupExpiredData(now: int)
      requires Valid()
      modifies this`attackers, this`order, this`evidenceDB, this`counterMeasures
      ensures Valid()
      ensures attackers.Keys == set ip | ip in old(attackers) && !(now - old(attackers)[ip].lastSeen > RetentionPeriod)
      ensures forall ip :: ip in attackers ==> attackers[ip] == old(attackers)[ip]
      ensures evidenceDB.Keys == set id | id in old(evidenceDB) && !(now - old(evidenceDB)[id].timestamp > RetentionPeriod)
      ensures forall id :: id in evidenceDB ==> evidenceDB[id] == old(evidenceDB)[id]
      ensures counterMeasures.Keys ==
        set k | k in old(counterMeasures) && !(now - old(counterMeasures)[k].timestamp > RetentionPeriod)
      ensures forall k :: k in counterMeasures ==> counterMeasures[k] == old(counterMeasures)[k]
      ensures forall ip :: ip in order <==> ip in old(order) && ip in attackers
      ensures IsSubsequence(order, old(order))
    {
      var kept := Sweep(attackers, (a: Attacker) => now - a.lastSeen > RetentionPeriod);
      FilterKeepsNoDuplicates(order, ip => ip in kept);
      FilterIsSubsequence(order, ip => ip in kept);
      order := Filter(order, ip => ip in kept);
      attackers := kept;
      evidenceDB := Sweep(evidenceDB, (e: EvidenceRecord) => now - e.timestamp > RetentionPeriod);
      counterMeasures := Sweep(counterMeasures, (m: MeasureRecord) => now - m.timestamp > RetentionPeriod);
    }

    /**
     * The report's aggregation: the counters summed over the profiles in
     * insertion order, the per-type histogram and the ten most active
     * attackers.
     */
    method GenerateAttackReport(now: int) returns (report: AttackReport)
      requires Valid()
      ensures report.totalAttackers == |attackers| && report.evidenceCollected == |evidenceDB|
      ensures report.summary == Tally(ProfilesOf(order, attackers), now)
      ensures report.topAttackers == TopAttackers(TopEntriesOf(order, attackers))
    {
      var acc := EmptySummary;
      var entries: seq<TopEntry> := [];
      var i := 0;
      while i < |order|
        invariant 0 <= i <= |order|
        invariant acc == Tally(ProfilesOf(order[..i], attackers), now)
        invariant entries == TopEntriesOf(order[..i], attackers)
      {
        var ip := order[i];
        var a := attackers[ip];
        var hist := CountTypes(acc.attackTypes, a.attackTypes);
        ReportStep(order, attackers, i, now);
        acc := LevelTally(acc, a.threatLevel).(
          totalAttacks := acc.totalAttacks + a.attackCount,
          blockedIPs := acc.blockedIPs + (if a.isBlocked then 1 else 0),
          activeAttackers := acc.activeAttackers + (if now - a.lastSeen < ActiveWindow then 1 else 0),
          honeypotHits := acc.honeypotHits + a.honeypotHits,
          attackTypes := hist);
        entries := entries + [TopEntry(ip, a.attackCount, a.threatLevel)];
        i := i + 1;
      }
      assert order[..i] == order;
      report := AttackReport(|attackers|, |evidenceDB|, acc, TopAttackers(entries));
    }
  }
}
