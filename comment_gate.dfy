/**
 * The comment moderation gate: sensitive-word screening, a weighted spam
 * score, a per-user rate window, a reputation ledger, the ordered
 * moderation decision and the review queue.
 *
 * The texts of reasons and errors are kept verbatim, because the queue's
 * priority and the event monitor's spam count are computed by searching
 * them for keywords.
 */
module CommentGate {
  import opened Common
  import opened Patterns

  const MinLength := 2
  const MaxLength := 1000
  const RateLimit := 5
  const RateWindow := Minute
  const DefaultReputation := 50
  const ReputationHistoryCap := 50
  const SpamThreshold := 70

  const DefaultSensitiveWords: seq<string> := [
    "政治敏感词1", "政治敏感词2", "暴力", "杀害", "伤害", "攻击", "色情词1", "色情词2",
    "代开发票", "办证", "贷款", "投资理财", "骗子", "诈骗", "传销"]

  /** The caller; an empty id stands for an anonymous user. */
  datatype User = User(id: string, isNew: bool)

  /** A submitted comment; an empty field stands for a missing one. */
  datatype Comment = Comment(id: string, content: string, author: string, email: string, userId: string)

  // ---------------------------------------------------- sensitive words

  datatype WordSeverity = NoWords | MediumWords | HighWords | CriticalWords

  /** None, medium, high and critical for no, one, two and three or more distinct words found. */
  function SeverityFor(found: nat): (s: WordSeverity)
    ensures s == NoWords <==> found == 0
    ensures s == CriticalWords <==> found >= 3
  {
    if found == 0 then NoWords
    else if found >= 3 then CriticalWords
    else if found >= 2 then HighWords
    else MediumWords
  }

  /** A word occurs in the content, ignoring case. */
  predicate MentionsWord(content: string, word: string) {
    Contains(Lower(content), Lower(word))
  }

  datatype WordCheck = WordCheck(hasSensitiveWords: bool, words: seq<string>, severity: WordSeverity)

  // ------------------------------------------------------------- spam

  function UpperChar(c: char): char {
    if IsLowerAscii(c) then (c as int - 'a' as int + 'A' as int) as char else c
  }

  function Upper(s: string): (r: string)
    ensures |r| == |s|
  {
    seq(|s|, i requires 0 <= i < |s| => UpperChar(s[i]))
  }

  /** A text equals its upper-case form exactly when it has no lower-case letter. */
  lemma UpperFixedIffNoLowerCase(s: string)
    ensures s == Upper(s) <==> forall i :: 0 <= i < |s| ==> !IsLowerAscii(s[i])
  {
    if s == Upper(s) {
      forall i | 0 <= i < |s| ensures !IsLowerAscii(s[i]) {
        assert Upper(s)[i] == UpperChar(s[i]);
      }
    }
  }

  function SpecialCount(s: string): nat {
    Count(s, IsSpamSpecial)
  }

  /** The spam score before it is capped at 100. */
  function RawSpamScore(content: string, isNew: bool, reputation: int, tooFast: bool, det: Detectors): nat {
    (if |content| < 5 then 20 else 0) +
    (if |content| > 500 then 10 else 0) +
    15 * RepeatRuns(content) +
    25 * Links(content) +
    30 * det.emailMatches(content) +
    35 * ElevenDigitRuns(content) +
    (if content == Upper(content) && |content| > 10 then 15 else 0) +
    (if 10 * SpecialCount(content) > 3 * |content| then 20 else 0) +
    (if reputation < 20 then 25 else 0) +
    (if reputation < 10 then 40 else 0) +
    (if isNew then 15 else 0) +
    (if tooFast then 30 else 0)
  }

  function SpamScore(content: string, isNew: bool, reputation: int, tooFast: bool, det: Detectors): (r: nat)
    ensures r <= 100
  {
    var raw := RawSpamScore(content, isNew, reputation, tooFast, det);
    if raw < 100 then raw else 100
  }

  /**
   * Reputation enters the score only below 20 (+25) and further below 10
   * (+40), so a lower reputation never lowers the score.
   */
  lemma ReputationPenalty(content: string, isNew: bool, reputation: int, tooFast: bool, det: Detectors)
    ensures RawSpamScore(content, isNew, reputation, tooFast, det) ==
      RawSpamScore(content, isNew, DefaultReputation, tooFast, det) +
      (if reputation < 20 then 25 else 0) + (if reputation < 10 then 40 else 0)
    ensures forall lower :: lower <= reputation ==>
      SpamScore(content, isNew, reputation, tooFast, det) <= SpamScore(content, isNew, lower, tooFast, det)
  {
  }

  datatype Confidence = VeryLow | Low | MediumConfidence | HighConfidence | VeryHigh

  function ConfidenceOf(score: int): Confidence {
    if score >= 90 then VeryHigh
    else if score >= 70 then HighConfidence
    else if score >= 50 then MediumConfidence
    else if score >= 30 then Low
    else VeryLow
  }

  /** A score is spam exactly when its confidence is high or very high. */
  lemma SpamIffHighConfidence(score: int)
    ensures score >= SpamThreshold <==> ConfidenceOf(score) in {HighConfidence, VeryHigh}
  {
  }

  function Reason(holds: bool, text: string): seq<string> {
    if holds then [text] else []
  }

  /** The reasons listed with a spam verdict, in the order they are checked. */
  function SpamReasons(content: string, isNew: bool, reputation: int, tooFast: bool, det: Detectors): (r: seq<string>)
    ensures |r| <= 9
  {
    Reason(|content| < 5, "内容过短") +
    Reason(RepeatRuns(content) > 0, "包含大量重复字符") +
    Reason(Links(content) > 0, "包含链接") +
    Reason(det.emailMatches(content) > 0, "包含邮箱地址") +
    Reason(ElevenDigitRuns(content) > 0, "包含电话号码") +
    Reason(content == Upper(content) && |content| > 10, "全部大写") +
    Reason(reputation < 20, "用户信誉较低") +
    Reason(isNew, "新用户") +
    Reason(tooFast, "评论过于频繁")
  }

  /**
   * A comment for which no reason is listed scores at most 30 (a long text
   * and many special characters are the only unlisted points), so it is
   * never judged spam.
   */
  lemma UnexplainedScoreIsLow(content: string, isNew: bool, reputation: int, tooFast: bool, det: Detectors)
    requires SpamReasons(content, isNew, reputation, tooFast, det) == []
    ensures SpamScore(content, isNew, reputation, tooFast, det) <= 30
    ensures SpamScore(content, isNew, reputation, tooFast, det) < SpamThreshold
  {
  }

  datatype SpamCheck = SpamCheck(isSpam: bool, score: nat, reasons: seq<string>, confidence: Confidence)

  function SpamCheckOf(content: string, isNew: bool, reputation: int, tooFast: bool, det: Detectors): SpamCheck {
    var score := SpamScore(content, isNew, reputation, tooFast, det);
    SpamCheck(score >= SpamThreshold, score, SpamReasons(content, isNew, reputation, tooFast, det), ConfidenceOf(score))
  }

  // ------------------------------------------------------- rate window

  /** Comments counted in the window that ends at `resetTime`. */
  datatype Limit = Limit(count: nat, resetTime: int)

  function FreshLimit(now: int): Limit {
    Limit(0, now + RateWindow)
  }

  /** The window as the rate check leaves it: an expired window restarts empty. */
  function Refreshed(limits: map<string, Limit>, userId: string, now: int): (r: map<string, Limit>)
    ensures r.Keys == limits.Keys
    ensures forall u :: u in r && u != userId ==> r[u] == limits[u]
  {
    if userId != "" && userId in limits && now > limits[userId].resetTime then limits[userId := FreshLimit(now)]
    else limits
  }

  /** Five comments in the current window are the most a user may post; an anonymous user is never too fast. */
  predicate TooFast(limits: map<string, Limit>, userId: string, now: int) {
    userId != "" && userId in limits && now <= limits[userId].resetTime && limits[userId].count >= RateLimit
  }

  /** The window after one more comment: an expired or missing window restarts with this comment. */
  function AfterComment(prev: Limit, now: int): (r: Limit)
    ensures r.count >= 1
  {
    if now > prev.resetTime then Limit(1, now + RateWindow) else Limit(prev.count + 1, prev.resetTime)
  }

  /** Comments left in the current window: none for an anonymous user, five for an unknown or expired window. */
  function RemainingComments(limits: map<string, Limit>, userId: string, now: int): (n: nat)
    ensures n <= RateLimit
  {
    if userId == "" then 0
    else if userId !in limits then RateLimit
    else if now > limits[userId].resetTime then RateLimit
    else if limits[userId].count >= RateLimit then 0
    else RateLimit - limits[userId].count
  }

  /** For a known caller, posting is refused exactly when no comment is left. */
  lemma TooFastIffNoneRemaining(limits: map<string, Limit>, userId: string, now: int)
    requires userId != ""
    ensures TooFast(limits, userId, now) <==> RemainingComments(limits, userId, now) == 0
  {
  }

  /** The rate check's refresh changes neither its own verdict nor the count left, and repeating it changes nothing. */
  lemma RefreshIsInvisible(limits: map<string, Limit>, userId: string, now: int)
    ensures TooFast(Refreshed(limits, userId, now), userId, now) == TooFast(limits, userId, now)
    ensures RemainingComments(Refreshed(limits, userId, now), userId, now) == RemainingComments(limits, userId, now)
    ensures Refreshed(Refreshed(limits, userId, now), userId, now) == Refreshed(limits, userId, now)
  {
  }

  /** Each recorded comment uses up one of the comments left, and the sixth in a window is refused. */
  lemma RecordingUsesOneComment(limits: map<string, Limit>, userId: string, now: int)
    requires userId != ""
    requires RemainingComments(limits, userId, now) > 0
    ensures var prev := if userId in limits then limits[userId] else FreshLimit(now);
      var after := limits[userId := AfterComment(prev, now)];
      RemainingComments(after, userId, now) == RemainingComments(limits, userId, now) - 1 &&
      (RemainingComments(limits, userId, now) == 1 ==> TooFast(after, userId, now))
  {
  }

  // -------------------------------------------------------- reputation

  datatype ReputationEntry = ReputationEntry(change: int, reason: string, timestamp: int, newScore: int)

  datatype Reputation = Reputation(score: int, history: seq<ReputationEntry>)

  predicate ReputationValid(r: Reputation) {
    0 <= r.score <= 100 && |r.history| <= ReputationHistoryCap
  }

  /** The stored score, or 50 for an anonymous or unknown user. */
  function UserReputation(reputations: map<string, Reputation>, userId: string): int {
    if userId != "" && userId in reputations then reputations[userId].score else DefaultReputation
  }

  function Clamp(x: int): (r: int)
    ensures 0 <= r <= 100
    ensures 0 <= x <= 100 ==> r == x
  {
    if x < 0 then 0 else if x > 100 then 100 else x
  }

  /** A reputation after a change: the score moved and clamped to [0, 100], the change logged, the newest 50 kept. */
  function Adjusted(prev: Reputation, change: int, reason: string, now: int): (r: Reputation)
    ensures r.score == Clamp(prev.score + change)
    ensures ReputationValid(r)
    ensures r.history == PushCapped(prev.history, ReputationEntry(change, reason, now, r.score), ReputationHistoryCap)
  {
    var score := Clamp(prev.score + change);
    Reputation(score, PushCapped(prev.history, ReputationEntry(change, reason, now, score), ReputationHistoryCap))
  }

  /** Approvals raise a score by 2 up to 100 and rejections lower it by 5 down to 0. */
  lemma ModerationMovesReputation(prev: Reputation, reason: string, now: int)
    requires ReputationValid(prev)
    ensures Adjusted(prev, 2, reason, now).score == (if prev.score <= 98 then prev.score + 2 else 100)
    ensures Adjusted(prev, -5, reason, now).score == (if prev.score >= 5 then prev.score - 5 else 0)
  {
  }

  // --------------------------------------------------------- validation

  /** The errors of the basic checks, in the order they are made. */
  function ValidationErrors(c: Comment, det: Detectors): seq<string> {
    Reason(c.content == "", "评论内容不能为空") +
    Reason(c.author == "", "评论作者不能为空") +
    Reason(c.content != "" && |c.content| < MinLength, "评论内容太短，至少需要2个字符") +
    Reason(c.content != "" && |c.content| > MaxLength, "评论内容太长，最多1000个字符") +
    Reason(c.content != "" && !det.isXssFree(c.content), "评论内容包含危险脚本") +
    Reason(c.content != "" && det.hasSqlInjection(c.content), "评论内容包含危险SQL代码") +
    Reason(c.email != "" && !IsValidEmail(c.email), "邮箱格式不正确")
  }

  /** A comment is valid exactly when every basic check passes. */
  lemma ValidIffChecksPass(c: Comment, det: Detectors)
    ensures ValidationErrors(c, det) == [] <==>
      c.content != "" && c.author != "" && MinLength <= |c.content| <= MaxLength &&
      det.isXssFree(c.content) && !det.hasSqlInjection(c.content) &&
      (c.email != "" ==> IsValidEmail(c.email))
  {
  }

  // ---------------------------------------------------------- decision

  datatype Moderation = Moderation(approved: bool, needsReview: bool, blocked: bool, reasons: seq<string>, score: nat)

  /**
   * The moderation decision, check by check: validation, sensitive words,
   * spam, rate, new user, reputation. A blocking check ends the decision.
   */
  function Decide(errors: seq<string>, words: seq<string>, spam: SpamCheck, tooFast: bool,
                  isNew: bool, reputation: int): (m: Moderation)
  {
    if errors != [] then Moderation(false, false, true, errors, 0)
    else if SeverityFor(|words|) == CriticalWords then
      Moderation(false, false, true, ["包含严重敏感词: " + Join(words, ", ")], 0)
    else
      var wordReview := words != [];
      var reasons1 := Reason(wordReview, "包含敏感词: " + Join(words, ", "));
      var verdict := NatToString(spam.score) + "分): " + Join(spam.reasons, ", ");
      if spam.isSpam && spam.confidence == VeryHigh then
        Moderation(false, wordReview, true, reasons1 + ["垃圾评论 (" + verdict], spam.score)
      else
        var spamReview := spam.isSpam;
        var reasons2 := reasons1 + Reason(spamReview, "疑似垃圾评论 (" + verdict);
        if tooFast then
          Moderation(false, wordReview || spamReview, true, reasons2 + ["评论过于频繁，请稍后再试"], spam.score)
        else
          var reasons3 := reasons2 + Reason(isNew, "新用户评论需要审核") +
            Reason(reputation < 30, "用户信誉较低 (" + IntToString(reputation) + "分)");
          var review := wordReview || spamReview || isNew || reputation < 30;
          Moderation(!review, review, false, reasons3, spam.score)
  }

  function IntToString(x: int): string {
    if x < 0 then "-" + NatToString(-x) else NatToString(x)
  }

  /**
   * A comment is approved exactly when it is neither blocked nor sent to
   * review, and it is blocked exactly when it fails validation, names three
   * or more sensitive words, is spam with very high confidence, or comes
   * too fast. A failed validation returns exactly the validation errors.
   */
  lemma DecisionIsConsistent(errors: seq<string>, words: seq<string>, spam: SpamCheck, tooFast: bool,
                             isNew: bool, reputation: int)
    ensures var m := Decide(errors, words, spam, tooFast, isNew, reputation);
      !(m.approved && m.blocked) &&
      (m.approved <==> !m.needsReview && !m.blocked) &&
      (m.blocked <==> errors != [] || |words| >= 3 || (spam.isSpam && spam.confidence == VeryHigh) || tooFast) &&
      (errors != [] ==> m.reasons == errors) &&
      (m.approved ==> words == [] && !spam.isSpam && !isNew && reputation >= 30)
  {
  }

  // ------------------------------------------------------------ queue

  datatype QueueItem = QueueItem(id: string, comment: Comment, reasons: seq<string>, addedAt: int,
                                 status: string, priority: nat)

  function ItemPriority(item: QueueItem): int { item.priority }

  /** Each reason adds 50, 30, 20 and 10 for each of the four keywords it contains. */
  function Priority(reasons: seq<string>): nat {
    50 * Count(reasons, r => Contains(r, "敏感词")) +
    30 * Count(reasons, r => Contains(r, "垃圾评论")) +
    20 * Count(reasons, r => Contains(r, "信誉较低")) +
    10 * Count(reasons, r => Contains(r, "新用户"))
  }

  function ReasonWeight(r: string): nat {
    (if Contains(r, "敏感词") then 50 else 0) +
    (if Contains(r, "垃圾评论") then 30 else 0) +
    (if Contains(r, "信誉较低") then 20 else 0) +
    (if Contains(r, "新用户") then 10 else 0)
  }

  /** The priority of a list grows by each further reason's weight. */
  lemma PrioritySnoc(reasons: seq<string>, r: string)
    ensures Priority(reasons + [r]) == Priority(reasons) + ReasonWeight(r)
  {
    CountAppend(reasons, [r], r => Contains(r, "敏感词"));
    CountAppend(reasons, [r], r => Contains(r, "垃圾评论"));
    CountAppend(reasons, [r], r => Contains(r, "信誉较低"));
    CountAppend(reasons, [r], r => Contains(r, "新用户"));
  }

  /** The first queue position holding `id`. */
  function FindIndex(queue: seq<QueueItem>, id: string): (r: Option<nat>)
    ensures r.Some? ==> (r.value < |queue| && queue[r.value].id == id &&
                         forall k :: 0 <= k < r.value ==> queue[k].id != id)
    ensures r.None? ==> forall k :: 0 <= k < |queue| ==> queue[k].id != id
  {
    if queue == [] then None
    else if queue[0].id == id then Some(0)
    else
      var rest := FindIndex(queue[1..], id);
      if rest.Some? then Some(rest.value + 1) else None
  }

  /** Taking one item out of a sorted queue leaves it sorted. */
  lemma RemovalKeepsOrder(queue: seq<QueueItem>, i: nat)
    requires i < |queue| && SortedDesc(queue, ItemPriority)
    ensures SortedDesc(queue[..i] + queue[i + 1..], ItemPriority)
  {
    var r := queue[..i] + queue[i + 1..];
    forall a, b | 0 <= a < b < |r| ensures ItemPriority(r[a]) >= ItemPriority(r[b]) {
      var a' := if a < i then a else a + 1;
      var b' := if b < i then b else b + 1;
      assert r[a] == queue[a'] && r[b] == queue[b'];
    }
  }

  // ------------------------------------------------------------- gate

  class Gate {
    var sensitiveWords: seq<string>
    var limits: map<string, Limit>
    var reputations: map<string, Reputation>
    var queue: seq<QueueItem>
    /** The pattern tests shared with the validation utilities. */
    const det: Detectors

    ghost predicate Valid()
      reads this
    {
      NoDuplicates(sensitiveWords) &&
      (forall u :: u in reputations ==> ReputationValid(reputations[u])) &&
      SortedDesc(queue, ItemPriority)
    }

    constructor (det: Detectors)
      ensures Valid() && this.det == det
      ensures sensitiveWords == DefaultSensitiveWords
      ensures limits == map[] && reputations == map[] && queue == []
    {
      sensitiveWords := DefaultSensitiveWords;
      limits := map[];
      reputations := map[];
      queue := [];
      this.det := det;
    }

    /** The listed words the content mentions, ignoring case, in list order. */
    method CheckSensitiveWords(content: string) returns (check: WordCheck)
      ensures check.words == Filter(sensitiveWords, w => MentionsWord(content, w))
      ensures check.hasSensitiveWords <==> check.words != []
      ensures check.severity == SeverityFor(|check.words|)
    {
      var found: seq<string> := [];
      var i := 0;
      while i < |sensitiveWords|
        invariant 0 <= i <= |sensitiveWords|
        invariant found == Filter(sensitiveWords[..i], w => MentionsWord(content, w))
      {
        FilterSnoc(sensitiveWords[..i], sensitiveWords[i], w => MentionsWord(content, w));
        assert sensitiveWords[..i + 1] == sensitiveWords[..i] + [sensitiveWords[i]];
        if MentionsWord(content, sensitiveWords[i]) {
          found := found + [sensitiveWords[i]];
        }
        i := i + 1;
      }
      assert sensitiveWords[..i] == sensitiveWords;
      check := WordCheck(|found| > 0, found, SeverityFor(|found|));
    }

    /** The rate check; an expired window of a known user is restarted on the way. */
    method IsCommentingTooFast(userId: string, now: int) returns (tooFast: bool)
      modifies this`limits
      ensures tooFast == TooFast(old(limits), userId, now)
      ensures limits == Refreshed(old(limits), userId, now)
    {
      if userId == "" {
        return false;
      }
      if userId in limits {
        if now > limits[userId].resetTime {
          limits := limits[userId := FreshLimit(now)];
        }
        tooFast := limits[userId].count >= RateLimit;
      } else {
        tooFast := FreshLimit(now).count >= RateLimit;
      }
    }

    method RecordComment(userId: string, now: int)
      modifies this`limits
      ensures userId == "" ==> limits == old(limits)
      ensures userId != "" ==> limits == old(limits)[userId :=
        AfterComment(if userId in old(limits) then old(limits)[userId] else FreshLimit(now), now)]
    {
      if userId == "" {
        return;
      }
      var cur := if userId in limits then limits[userId] else FreshLimit(now);
      if now > cur.resetTime {
        cur := Limit(1, now + RateWindow);
      } else {
        cur := cur.(count := cur.count + 1);
      }
      limits := limits[userId := cur];
    }

    method UpdateUserReputation(userId: string, change: int, reason: string, now: int)
      requires Valid()
      modifies this`reputations
      ensures Valid()
      ensures userId == "" ==> reputations == old(reputations)
      ensures userId != "" ==> reputations == old(reputations)[userId :=
        Adjusted(if userId in old(reputations) then old(reputations)[userId] else Reputation(DefaultReputation, []),
                 change, reason, now)]
    {
      if userId == "" {
        return;
      }
      var prev := if userId in reputations then reputations[userId] else Reputation(DefaultReputation, []);
      PutReputation(userId, Adjusted(prev, change, reason, now));
    }

    /** Stores a user's reputation. */
    method PutReputation(userId: string, r: Reputation)
      requires Valid() && ReputationValid(r)
      modifies this`reputations
      ensures Valid()
      ensures reputations == old(reputations)[userId := r]
    {
      reputations := reputations[userId := r];
    }

    /** The spam score; its rate check may restart the caller's expired window. */
    method CalculateSpamScore(content: string, user: User, now: int) returns (score: nat)
      modifies this`limits
      ensures score == SpamScore(content, user.isNew, UserReputation(reputations, user.id),
                                 TooFast(old(limits), user.id, now), det)
      ensures limits == Refreshed(old(limits), user.id, now)
    {
      var tooFast := IsCommentingTooFast(user.id, now);
      score := SpamScore(content, user.isNew, UserReputation(reputations, user.id), tooFast, det);
    }

    /** The spam verdict; the score and the reasons each run the rate check, which gives the same answer twice. */
    method DetectSpam(content: string, user: User, now: int) returns (check: SpamCheck)
      modifies this`limits
      ensures check == SpamCheckOf(content, user.isNew, UserReputation(reputations, user.id),
                                   TooFast(old(limits), user.id, now), det)
      ensures limits == Refreshed(old(limits), user.id, now)
    {
      var score := CalculateSpamScore(content, user, now);
      RefreshIsInvisible(old(limits), user.id, now);
      var tooFast := IsCommentingTooFast(user.id, now);
      var reasons := SpamReasons(content, user.isNew, UserReputation(reputations, user.id), tooFast, det);
      check := SpamCheck(score >= SpamThreshold, score, reasons, ConfidenceOf(score));
    }

    /**
     * Moderates a comment, check by check as `Decide` lays out. A decision
     * that stops at validation or at the sensitive words leaves the rate
     * windows alone; otherwise the caller's expired window is restarted.
     */
    method AutoModerate(comment: Comment, user: User, now: int) returns (result: Moderation)
      modifies this`limits
      ensures result == Decide(ValidationErrors(comment, det),
                               Filter(sensitiveWords, w => MentionsWord(comment.content, w)),
                               SpamCheckOf(comment.content, user.isNew, UserReputation(reputations, user.id),
                                           TooFast(old(limits), user.id, now), det),
                               TooFast(old(limits), user.id, now), user.isNew, UserReputation(reputations, user.id))
      ensures limits == if ValidationErrors(comment, det) != [] ||
                           |Filter(sensitiveWords, w => MentionsWord(comment.content, w))| >= 3
                        then old(limits) else Refreshed(old(limits), user.id, now)
    {
      var errors := ValidationErrors(comment, det);
      if errors != [] {
        return Decide(errors, [], SpamCheck(false, 0, [], VeryLow), false, user.isNew, 0);
      }
      var words := CheckSensitiveWords(comment.content);
      if words.severity == CriticalWords {
        return Decide(errors, words.words, SpamCheck(false, 0, [], VeryLow), false, user.isNew, 0);
      }
      result := ModerateScreened(comment, user, now, words.words);
    }

    /** The spam and rate checks of a comment that passed validation and the sensitive-word screen. */
    method ModerateScreened(comment: Comment, user: User, now: int, words: seq<string>) returns (result: Moderation)
      requires |words| < 3
      modifies this`limits
      ensures result == Decide([], words,
                               SpamCheckOf(comment.content, user.isNew, UserReputation(reputations, user.id),
                                           TooFast(old(limits), user.id, now), det),
                               TooFast(old(limits), user.id, now), user.isNew, UserReputation(reputations, user.id))
      ensures limits == Refreshed(old(limits), user.id, now)
    {
      var reputation := UserReputation(reputations, user.id);
      var spam := DetectSpam(comment.content, user, now);
      if spam.isSpam && spam.confidence == VeryHigh {
        return Decide([], words, spam, false, user.isNew, reputation);
      }
      RefreshIsInvisible(old(limits), user.id, now);
      var tooFast := IsCommentingTooFast(user.id, now);
      result := Decide([], words, spam, tooFast, user.isNew, reputation);
    }

    /** Sums the keyword weights of the reasons. */
    method CalculateModerationPriority(reasons: seq<string>) returns (priority: nat)
      ensures priority == Priority(reasons)
    {
      priority := 0;
      var i := 0;
      while i < |reasons|
        invariant 0 <= i <= |reasons|
        invariant priority == Priority(reasons[..i])
      {
        PrioritySnoc(reasons[..i], reasons[i]);
        assert reasons[..i + 1] == reasons[..i] + [reasons[i]];
        if Contains(reasons[i], "敏感词") { priority := priority + 50; }
        if Contains(reasons[i], "垃圾评论") { priority := priority + 30; }
        if Contains(reasons[i], "信誉较低") { priority := priority + 20; }
        if Contains(reasons[i], "新用户") { priority := priority + 10; }
        i := i + 1;
      }
      assert reasons[..i] == reasons;
    }

    /** Queues a comment for review; the queue stays sorted by priority, highest first. */
    method AddToModerationQueue(comment: Comment, reasons: seq<string>, now: int)
      requires Valid()
      modifies this`queue
      ensures Valid()
      ensures multiset(queue) == multiset(old(queue)) + multiset{QueueItem(comment.id, comment, reasons, now, "pending", Priority(reasons))}
      ensures queue == SortDesc(old(queue) + [QueueItem(comment.id, comment, reasons, now, "pending", Priority(reasons))], ItemPriority)
      ensures Filter(queue, KeyIs(ItemPriority, Priority(reasons))) ==
        Filter(old(queue), KeyIs(ItemPriority, Priority(reasons))) + [QueueItem(comment.id, comment, reasons, now, "pending", Priority(reasons))]
      ensures forall k :: k != Priority(reasons) ==>
        Filter(queue, KeyIs(ItemPriority, k)) == Filter(old(queue), KeyIs(ItemPriority, k))
    {
      var priority := CalculateModerationPriority(reasons);
      var item := QueueItem(comment.id, comment, reasons, now, "pending", priority);
      forall k {
        FilterSnoc(queue, item, KeyIs(ItemPriority, k));
      }
      queue := SortDesc(queue + [item], ItemPriority);
    }

    /**
     * Takes the first item with this id out of the queue and, when its
     * comment has a user, moves that user's reputation by +2 for an
     * approval and -5 otherwise. An unknown id changes nothing.
     */
    method ProcessModerationResult(commentId: string, action: string, moderatorId: string, now: int)
      requires Valid()
      modifies this`queue, this`reputations
      ensures Valid()
      ensures FindIndex(old(queue), commentId).None? ==> queue == old(queue) && reputations == old(reputations)
      ensures FindIndex(old(queue), commentId).Some? ==>
        var i := FindIndex(old(queue), commentId).value;
        var userId := old(queue)[i].comment.userId;
        queue == old(queue)[..i] + old(queue)[i + 1..] &&
        (userId == "" ==> reputations == old(reputations)) &&
        (userId != "" ==> reputations == old(reputations)[userId := Adjusted(
           if userId in old(reputations) then old(reputations)[userId] else Reputation(DefaultReputation, []),
           if action == "approve" then 2 else -5,
           "评论" + (if action == "approve" then "通过" else "被拒绝") + "审核", now)])
    {
      var index := FindIndex(queue, commentId);
      if index.None? {
        return;
      }
      var item := queue[index.value];
      RemovalKeepsOrder(queue, index.value);
      queue := queue[..index.value] + queue[index.value + 1..];
      if item.comment.userId != "" {
        var change := if action == "approve" then 2 else -5;
        UpdateUserReputation(item.comment.userId, change,
          "评论" + (if action == "approve" then "通过" else "被拒绝") + "审核", now);
      }
    }

    /** Merges new words into the list: no duplicates, the old words first and in order. */
    method UpdateSensitiveWords(words: seq<string>)
      requires Valid()
      modifies this`sensitiveWords
      ensures Valid()
      ensures forall w :: w in sensitiveWords <==> w in old(sensitiveWords) || w in words
      ensures |old(sensitiveWords)| <= |sensitiveWords| && sensitiveWords[..|old(sensitiveWords)|] == old(sensitiveWords)
      ensures sensitiveWords == old(sensitiveWords) + Dedup(Filter(words, Outside(old(sensitiveWords))))
    {
      DedupKeepsDistinctPrefix(sensitiveWords, words);
      DedupAppend(sensitiveWords, words);
      sensitiveWords := Dedup(sensitiveWords + words);
    }
  }
}
