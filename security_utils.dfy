/**
 * The validation utilities: HTML escaping, one-time CSRF tokens with a one
 * hour lifetime, password, user-name and file-type checks, the login lockout
 * after five failures, and the per-field validation and sanitising of a
 * submitted object.
 *
 * The tokens are produced by a random generator outside the model; here the
 * caller passes them in. The pattern tests the sanitiser runs (the XSS and
 * SQL-injection lists, the HTML tag filter) are the function values of
 * `Detectors`.
 */
module SecurityUtils {
  import opened Common
  import opened Patterns

  // ------------------------------------------------------- HTML escaping

  /** The eight characters the escaper rewrites. */
  predicate IsHtmlSpecial(c: char) {
    c in "&<>\"'/`="
  }

  /** The characters that can open a tag, close an attribute value or start one. */
  predicate IsMarkup(c: char) {
    c in "<>\"'`=/"
  }

  /** The entity table: each special character's replacement, every other character as itself. */
  function Entity(c: char): (r: string)
    ensures IsHtmlSpecial(c) ==> 4 <= |r| && r[0] == '&' && r[|r| - 1] == ';'
    ensures !IsHtmlSpecial(c) ==> r == [c]
    ensures forall k :: 0 <= k < |r| ==> !IsMarkup(r[k])
  {
    if c == '&' then "&amp;"
    else if c == '<' then "&lt;"
    else if c == '>' then "&gt;"
    else if c == '"' then "&quot;"
    else if c == '\'' then "&#x27;"
    else if c == '/' then "&#x2F;"
    else if c == '`' then "&#x60;"
    else if c == '=' then "&#x3D;"
    else [c]
  }

  /**
   * escapeHtml: every special character replaced by its entity, every other
   * character kept. The output holds none of the markup characters, and a
   * text without special characters comes back unchanged.
   */
  function EscapeHtml(s: string): (r: string)
    ensures |s| <= |r|
    ensures forall k :: 0 <= k < |r| ==> !IsMarkup(r[k])
    ensures (forall k :: 0 <= k < |s| ==> !IsHtmlSpecial(s[k])) ==> r == s
  {
    if s == [] then [] else Entity(s[0]) + EscapeHtml(s[1..])
  }

  /** Escaping works character by character: it distributes over concatenation. */
  lemma {:induction false} EscapeAppend(a: string, b: string)
    ensures EscapeHtml(a + b) == EscapeHtml(a) + EscapeHtml(b)
  {
    if a != [] {
      assert (a + b)[0] == a[0];
      assert (a + b)[1..] == a[1..] + b;
      EscapeAppend(a[1..], b);
      calc {
        EscapeHtml(a + b);
        Entity(a[0]) + EscapeHtml(a[1..] + b);
        Entity(a[0]) + (EscapeHtml(a[1..]) + EscapeHtml(b));
        (Entity(a[0]) + EscapeHtml(a[1..])) + EscapeHtml(b);
      }
    } else {
      assert a + b == b;
    }
  }

  /** The first character an entity-aware reader sees at the head of `s`, and how much it consumes. */
  function Decoded(s: string): (r: (char, nat))
    requires s != []
    ensures 1 <= r.1 <= |s|
  {
    if StartsWith(s, "&amp;") then ('&', 5)
    else if StartsWith(s, "&lt;") then ('<', 4)
    else if StartsWith(s, "&gt;") then ('>', 4)
    else if StartsWith(s, "&quot;") then ('"', 6)
    else if StartsWith(s, "&#x27;") then ('\'', 6)
    else if StartsWith(s, "&#x2F;") then ('/', 6)
    else if StartsWith(s, "&#x60;") then ('`', 6)
    else if StartsWith(s, "&#x3D;") then ('=', 6)
    else (s[0], 1)
  }

  /** The reader that turns each entity of the table back into its character. */
  function UnescapeHtml(s: string): (r: string)
    ensures |r| <= |s|
    decreases |s|
  {
    if s == [] then [] else [Decoded(s).0] + UnescapeHtml(s[Decoded(s).1..])
  }

  /** An escaped character followed by anything is read back as that character. */
  lemma DecodedEntity(c: char, rest: string)
    ensures Decoded(Entity(c) + rest) == (c, |Entity(c)|)
  {
    var s := Entity(c) + rest;
    assert s[..|Entity(c)|] == Entity(c);
    if !IsHtmlSpecial(c) {
      assert s[0] == c;
    } else if c == '&' {
    } else {
      assert s[1] == Entity(c)[1];
      if c == '\'' || c == '/' || c == '`' || c == '=' {
        assert s[4] == Entity(c)[4];
        assert s[3] == Entity(c)[3];
      }
    }
  }

  /** Escaping loses nothing: reading the entities back gives the original text. */
  lemma {:induction false} UnescapeEscape(s: string)
    ensures UnescapeHtml(EscapeHtml(s)) == s
  {
    if s != [] {
      var e := EscapeHtml(s);
      DecodedEntity(s[0], EscapeHtml(s[1..]));
      assert e[|Entity(s[0])|..] == EscapeHtml(s[1..]);
      UnescapeEscape(s[1..]);
    }
  }

  /** Two different texts never escape to the same output. */
  lemma EscapeIsInjective(a: string, b: string)
    requires EscapeHtml(a) == EscapeHtml(b)
    ensures a == b
  {
    UnescapeEscape(a);
    UnescapeEscape(b);
  }

  // ---------------------------------------------------------- passwords

  const WeakPasswordError: string := "不能使用常见弱密码"
  const CommonPasswords: seq<string> := ["password", "123456", "admin", "root", "user"]

  /** The class `[!@#$%^&*()_+\-=\[\]{};':"\\|,.<>\/?]`. */
  predicate IsPasswordSpecial(c: char) {
    c in "!@#$%^&*()_+-=[]{};':\"\\|,.<>/?"
  }

  predicate HasUpper(p: string) { exists k | 0 <= k < |p| :: IsUpperAscii(p[k]) }
  predicate HasLower(p: string) { exists k | 0 <= k < |p| :: IsLowerAscii(p[k]) }
  predicate HasDigit(p: string) { exists k | 0 <= k < |p| :: IsDigit(p[k]) }
  predicate HasPasswordSpecial(p: string) { exists k | 0 <= k < |p| :: IsPasswordSpecial(p[k]) }

  /** One strength rule: whether the password meets it, and the message when it does not. */
  datatype PasswordRule = PasswordRule(met: bool, message: string)

  /** The five rules in the order they are checked. */
  function PasswordRules(p: string): seq<PasswordRule> {
    [ PasswordRule(|p| >= 8, "密码长度至少8位"),
      PasswordRule(HasUpper(p), "密码必须包含大写字母"),
      PasswordRule(HasLower(p), "密码必须包含小写字母"),
      PasswordRule(HasDigit(p), "密码必须包含数字"),
      PasswordRule(HasPasswordSpecial(p), "密码必须包含特殊字符") ]
  }

  /** The messages of the rules a password misses, in checking order. */
  function Missed(rules: seq<PasswordRule>): (r: seq<string>)
    ensures |r| + Count(rules, (x: PasswordRule) => x.met) == |rules|
  {
    if rules == [] then []
    else (if rules[0].met then [] else [rules[0].message]) + Missed(rules[1..])
  }

  predicate IsCommonPassword(p: string) {
    Lower(p) in CommonPasswords
  }

  datatype PasswordCheck = PasswordCheck(isValid: bool, errors: seq<string>, strength: nat)

  /**
   * The outcome of the five rules and the common-password test: one point of
   * strength per rule met, one message per rule missed; a common password
   * adds its own message and forces the strength to 0.
   */
  function PasswordVerdict(rules: seq<PasswordRule>, common: bool): (r: PasswordCheck)
    ensures r.isValid <==> r.errors == []
    ensures r.strength <= |rules|
    ensures !common ==> r.strength + |r.errors| == |rules|
    ensures common ==> !r.isValid && r.strength == 0 && r.errors != [] && r.errors[|r.errors| - 1] == WeakPasswordError
    ensures r.isValid <==> !common && forall i :: 0 <= i < |rules| ==> rules[i].met
  {
    var missed := Missed(rules);
    MissedIsEmptyIffAllMet(rules);
    if common then PasswordCheck(false, missed + [WeakPasswordError], 0)
    else PasswordCheck(missed == [], missed, Count(rules, (x: PasswordRule) => x.met))
  }

  /** validatePassword. */
  function ValidatePassword(p: string): (r: PasswordCheck)
    ensures r.isValid <==> r.errors == []
    ensures r.strength <= 5
    ensures !IsCommonPassword(p) ==> r.strength + |r.errors| == 5
    ensures IsCommonPassword(p) ==>
      !r.isValid && r.strength == 0 && r.errors != [] && r.errors[|r.errors| - 1] == WeakPasswordError
    ensures r.isValid <==> r.strength == 5
  {
    PasswordVerdict(PasswordRules(p), IsCommonPassword(p))
  }

  /** A password passes exactly when it meets all five rules and is not a common one. */
  lemma ValidPasswordMeetsEveryRule(p: string)
    ensures ValidatePassword(p).isValid <==>
      |p| >= 8 && HasUpper(p) && HasLower(p) && HasDigit(p) && HasPasswordSpecial(p) && !IsCommonPassword(p)
  {
    var rules := PasswordRules(p);
    assert rules[0].met == (|p| >= 8) && rules[1].met == HasUpper(p) && rules[2].met == HasLower(p);
    assert rules[3].met == HasDigit(p) && rules[4].met == HasPasswordSpecial(p);
  }

  lemma {:induction false} MissedIsEmptyIffAllMet(rules: seq<PasswordRule>)
    ensures Missed(rules) == [] <==> forall i :: 0 <= i < |rules| ==> rules[i].met
  {
    if rules != [] {
      MissedIsEmptyIffAllMet(rules[1..]);
      assert forall i :: 1 <= i < |rules| ==> rules[i] == rules[1..][i - 1];
    }
  }

  // ------------------------------------------------------- user names

  predicate IsUsernameChar(c: char) {
    IsLetter(c) || IsDigit(c) || c == '_' || c == '-'
  }

  /** isValidUsername: 3 to 20 characters, each from `[a-zA-Z0-9_-]`. */
  predicate IsValidUsername(u: string) {
    3 <= |u| <= 20 && forall k :: 0 <= k < |u| ==> IsUsernameChar(u[k])
  }

  /** A valid user name contains no special HTML character, so escaping leaves it as it is. */
  lemma ValidUsernameNeedsNoEscaping(u: string)
    requires IsValidUsername(u)
    ensures EscapeHtml(u) == u
    ensures forall k :: 0 <= k < |u| ==> !IsSpace(u[k])
  {
    forall k | 0 <= k < |u| ensures !IsHtmlSpecial(u[k]) && !IsSpace(u[k]) {
      UsernameCharIsPlain(u[k]);
    }
  }

  lemma UsernameCharIsPlain(c: char)
    requires IsUsernameChar(c)
    ensures !IsHtmlSpecial(c) && !IsSpace(c)
  {
  }

  // --------------------------------------------------------- file types

  const DefaultFileTypes: seq<string> := [".jpg", ".jpeg", ".png", ".gif"]

  /**
   * `split('.').pop()`: the text after the last '.', or the whole text when
   * it has no '.'. It is the longest suffix without a '.'.
   */
  function LastSegment(s: string): (r: string)
    ensures |r| <= |s| && r == s[|s| - |r|..]
    ensures forall k :: 0 <= k < |r| ==> r[k] != '.'
    ensures |r| < |s| ==> s[|s| - |r| - 1] == '.'
  {
    if s == [] || s[|s| - 1] == '.' then []
    else LastSegment(s[..|s| - 1]) + [s[|s| - 1]]
  }

  /**
   * isValidFileType as written: a non-empty name whose lower-cased last
   * segment, with a '.' put in front, is in the allowed list. A name without
   * any '.' is its own last segment.
   */
  predicate IsValidFileTypeAsWritten(name: string, allowed: seq<string>) {
    name != "" && "." + LastSegment(Lower(name)) in allowed
  }

  /** A text without any '.' is its own last segment. */
  lemma {:induction false} NoDotIsOwnSegment(s: string)
    requires forall k :: 0 <= k < |s| ==> s[k] != '.'
    ensures LastSegment(s) == s
  {
    if s != [] {
      NoDotIsOwnSegment(s[..|s| - 1]);
      assert s[..|s| - 1] + [s[|s| - 1]] == s;
    }
  }

  /** Any name without a '.' passes as written when '.' followed by the lower-cased name is an allowed extension. */
  lemma ExtensionlessNamePasses(name: string, allowed: seq<string>)
    requires name != "" && forall k :: 0 <= k < |name| ==> name[k] != '.'
    requires "." + Lower(name) in allowed
    ensures IsValidFileTypeAsWritten(name, allowed)
  {
    NoDotIsOwnSegment(Lower(name));
  }

  /** Lower-casing a text without upper-case letters changes nothing. */
  lemma LowerOfLowerCase(s: string)
    requires forall k :: 0 <= k < |s| ==> !IsUpperAscii(s[k])
    ensures Lower(s) == s
  {
  }

  /** The name "jpg" has no extension at all, yet it passes as a JPEG file under the default list. */
  lemma JpgPasses()
    ensures IsValidFileTypeAsWritten("jpg", DefaultFileTypes) && '.' !in "jpg"
  {
    var name := "jpg";
    assert name[0] == 'j' && name[1] == 'p' && name[2] == 'g';
    LowerOfLowerCase(name);
    assert "." + name == DefaultFileTypes[0];
    ExtensionlessNamePasses(name, DefaultFileTypes);
  }

  /** The file-type check with the extension required: the name must contain a '.'. */
  predicate IsValidFileType(name: string, allowed: seq<string>) {
    '.' in name && IsValidFileTypeAsWritten(name, allowed)
  }

  /** An accepted name ends, up to case, with '.' and an allowed extension. */
  lemma AcceptedNameEndsWithAllowedExtension(name: string, allowed: seq<string>)
    requires IsValidFileType(name, allowed)
    ensures exists e :: e in allowed && |e| >= 1 && e[0] == '.' && EndsWith(Lower(name), e)
  {
    var low := Lower(name);
    var seg := LastSegment(low);
    var k :| 0 <= k < |name| && name[k] == '.';
    assert low[k] == '.';
    assert |seg| < |low|;
    var e := "." + seg;
    assert low[|low| - |seg| - 1..] == [low[|low| - |seg| - 1]] + low[|low| - |seg|..];
    assert EndsWith(low, e);
  }

  // ---------------------------------------------- per-field sanitising

  /** A field value of a submitted object, by its `typeof`. */
  datatype Value = Str(s: string) | Num(n: int) | Bool(b: bool) | List(items: seq<Value>)

  function TypeOf(v: Value): string {
    match v
    case Str(_) => "string"
    case Num(_) => "number"
    case Bool(_) => "boolean"
    case List(_) => "object"
  }

  /** `value.length`, where the value has one. */
  function LengthOf(v: Value): Option<nat> {
    match v
    case Str(s) => Some(|s|)
    case List(items) => Some(|items|)
    case _ => None
  }

  /**
   * A field's rule: the required `typeof` ("" for none), the maximum length
   * (0 for none) and whether HTML is allowed.
   */
  datatype Rule = Rule(typeName: string, maxLength: nat, allowHtml: bool)

  const NoRule: Rule := Rule("", 0, false)

  function RuleFor(rules: map<string, Rule>, key: string): Rule {
    if key in rules then rules[key] else NoRule
  }

  /** What happens to one field: its error message, or the value stored in the result. */
  datatype Outcome = Rejected(error: string) | Accepted(value: Value)

  /**
   * The four checks of one field in order (type, length, dangerous script,
   * SQL injection); the first one failing rejects the field. A string that
   * passes is escaped, or filtered when the rule allows HTML; any other value
   * is kept.
   */
  function FieldOutcome(key: string, v: Value, rule: Rule, det: Detectors): Outcome
  {
    if rule.typeName != "" && TypeOf(v) != rule.typeName then Rejected(key + " 类型错误")
    else if rule.maxLength > 0 && LengthOf(v).Some? && LengthOf(v).value > rule.maxLength then
      Rejected(key + " 长度超过限制")
    else if v.Str? && !det.isXssFree(v.s) then Rejected(key + " 包含危险内容")
    else if v.Str? && det.hasSqlInjection(v.s) then Rejected(key + " 包含危险SQL")
    else if v.Str? then Accepted(Str(if rule.allowHtml then det.sanitizeHtml(v.s) else EscapeHtml(v.s)))
    else Accepted(v)
  }

  /**
   * The checks run in order and the first failing one names the error: the
   * type, then the length, then dangerous script, then SQL injection. A field
   * is accepted exactly when all four pass; it then keeps its type and fits
   * the maximum length, a string is stored escaped (free of every markup
   * character) or, when the rule allows HTML, filtered, and any other value
   * is stored unchanged.
   */
  lemma FieldChecks(key: string, v: Value, rule: Rule, det: Detectors)
    ensures var r := FieldOutcome(key, v, rule, det);
      var badType := rule.typeName != "" && TypeOf(v) != rule.typeName;
      var tooLong := rule.maxLength > 0 && LengthOf(v).Some? && LengthOf(v).value > rule.maxLength;
      var script := v.Str? && !det.isXssFree(v.s);
      var sql := v.Str? && det.hasSqlInjection(v.s);
      && (badType ==> r == Rejected(key + " 类型错误"))
      && (!badType && tooLong ==> r == Rejected(key + " 长度超过限制"))
      && (!badType && !tooLong && script ==> r == Rejected(key + " 包含危险内容"))
      && (!badType && !tooLong && !script && sql ==> r == Rejected(key + " 包含危险SQL"))
      && (r.Accepted? <==> !badType && !tooLong && !script && !sql)
      && (r.Accepted? ==> TypeOf(r.value) == TypeOf(v))
      && (r.Accepted? && rule.maxLength > 0 && LengthOf(v).Some? ==> LengthOf(v).value <= rule.maxLength)
      && (r.Accepted? && v.Str? && !rule.allowHtml ==>
            r.value == Str(EscapeHtml(v.s)) && forall k :: 0 <= k < |r.value.s| ==> !IsMarkup(r.value.s[k]))
      && (r.Accepted? && v.Str? && rule.allowHtml ==> r.value == Str(det.sanitizeHtml(v.s)))
      && (r.Accepted? && !v.Str? ==> r.value == v)
  {
  }

  /** The errors of the first fields, one per rejected field, in field order. */
  function ErrorsOf(fields: seq<(string, Value)>, rules: map<string, Rule>, det: Detectors): (r: seq<string>)
    ensures |r| <= |fields|
  {
    if fields == [] then []
    else
      var (key, v) := fields[|fields| - 1];
      var o := FieldOutcome(key, v, RuleFor(rules, key), det);
      ErrorsOf(fields[..|fields| - 1], rules, det) + (if o.Rejected? then [o.error] else [])
  }

  /** The cleaned data after the first fields: each accepted field under its key. */
  function DataOf(fields: seq<(string, Value)>, rules: map<string, Rule>, det: Detectors): map<string, Value> {
    if fields == [] then map[]
    else
      var (key, v) := fields[|fields| - 1];
      var o := FieldOutcome(key, v, RuleFor(rules, key), det);
      var before := DataOf(fields[..|fields| - 1], rules, det);
      if o.Accepted? then before[key := o.value] else before
  }

  predicate IsRejected(rules: map<string, Rule>, det: Detectors, f: (string, Value)) {
    FieldOutcome(f.0, f.1, RuleFor(rules, f.0), det).Rejected?
  }

  function Rejects(rules: map<string, Rule>, det: Detectors): ((string, Value)) -> bool {
    f => IsRejected(rules, det, f)
  }

  /** The last field adds one error when it is rejected and none otherwise. */
  lemma ErrorsStep(fields: seq<(string, Value)>, rules: map<string, Rule>, det: Detectors)
    requires fields != []
    ensures |ErrorsOf(fields, rules, det)| ==
      |ErrorsOf(fields[..|fields| - 1], rules, det)| + (if IsRejected(rules, det, fields[|fields| - 1]) then 1 else 0)
  {
  }

  lemma CountOne<T>(x: T, p: T -> bool)
    ensures Count([x], p) == if p(x) then 1 else 0
  {
    assert [x][1..] == [];
  }

  /** Every rejected field adds exactly one error and every accepted field none. */
  lemma {:induction false} OneErrorPerRejectedField(fields: seq<(string, Value)>, rules: map<string, Rule>, det: Detectors)
    ensures |ErrorsOf(fields, rules, det)| == Count(fields, Rejects(rules, det))
  {
    if fields != [] {
      var init := fields[..|fields| - 1];
      var last := fields[|fields| - 1];
      OneErrorPerRejectedField(init, rules, det);
      ErrorsStep(fields, rules, det);
      assert fields == init + [last];
      CountAppend(init, [last], Rejects(rules, det));
      CountOne(last, Rejects(rules, det));
    }
  }

  /** The keys of an object are distinct. */
  predicate DistinctKeys(fields: seq<(string, Value)>) {
    forall i, j :: 0 <= i < j < |fields| ==> fields[i].0 != fields[j].0
  }

  /**
   * With distinct keys, the cleaned data holds exactly the accepted fields,
   * each with its cleaned value; a rejected field is absent.
   */
  lemma {:induction false} DataHoldsExactlyTheAcceptedFields(fields: seq<(string, Value)>, rules: map<string, Rule>, det: Detectors)
    requires DistinctKeys(fields)
    ensures forall i :: 0 <= i < |fields| ==>
      var o := FieldOutcome(fields[i].0, fields[i].1, RuleFor(rules, fields[i].0), det);
      (fields[i].0 in DataOf(fields, rules, det) <==> o.Accepted?) &&
      (o.Accepted? ==> DataOf(fields, rules, det)[fields[i].0] == o.value)
    ensures forall key :: key in DataOf(fields, rules, det) ==> exists i :: 0 <= i < |fields| && fields[i].0 == key
  {
    if fields != [] {
      var init := fields[..|fields| - 1];
      DataHoldsExactlyTheAcceptedFields(init, rules, det);
      forall i | 0 <= i < |init| ensures init[i] == fields[i] && init[i].0 != fields[|fields| - 1].0 { }
    }
  }

  datatype Sanitized = Sanitized(data: map<string, Value>, isValid: bool, errors: seq<string>)

  // ---------------------------------------------------- tokens and logins

  /** A CSRF token as stored for a session: its text, when it was issued, whether it was spent. */
  datatype CsrfToken = CsrfToken(token: string, timestamp: int, used: bool)

  const CsrfLifetime: int := Hour

  predicate TokenExpired(t: CsrfToken, now: int) {
    now - t.timestamp > CsrfLifetime
  }

  datatype CsrfVerdict = NoToken | AlreadyUsed | Mismatch | Expired | Valid

  /** The checks of validateCSRFToken in order: present, unspent, equal, fresh. */
  function CsrfVerdictOf(entry: Option<CsrfToken>, token: string, now: int): (r: CsrfVerdict)
    ensures r == Valid <==>
      entry.Some? && !entry.value.used && entry.value.token == token && !TokenExpired(entry.value, now)
    ensures entry.Some? && entry.value.used ==> r == AlreadyUsed
    ensures r == Expired ==> entry.Some? && TokenExpired(entry.value, now)
  {
    if entry.None? then NoToken
    else if entry.value.used then AlreadyUsed
    else if entry.value.token != token then Mismatch
    else if TokenExpired(entry.value, now) then Expired
    else Valid
  }

  /** The record of failed logins kept for an address. */
  datatype LoginRecord = LoginRecord(attempts: nat, lastAttempt: int, blocked: bool)

  const MaxLoginAttempts: nat := 5

  /** The record after one attempt at time `now`. */
  function Attempted(prev: Option<LoginRecord>, success: bool, now: int): (r: LoginRecord)
    ensures r.lastAttempt == now
    ensures success ==> r.attempts == 0 && !r.blocked
    ensures !success ==> r.attempts == (if prev.Some? then prev.value.attempts else 0) + 1
    ensures !success ==> (r.blocked <==> r.attempts >= MaxLoginAttempts || (prev.Some? && prev.value.blocked))
  {
    var rec := if prev.Some? then prev.value else LoginRecord(0, now, false);
    if success then rec.(attempts := 0, blocked := false, lastAttempt := now)
    else
      var n := rec.attempts + 1;
      rec.(attempts := n, blocked := rec.blocked || n >= MaxLoginAttempts, lastAttempt := now)
  }

  /** getRemainingAttempts on a record: 5 for an unknown address, else what is left of 5. */
  function Remaining(rec: Option<LoginRecord>): (n: nat)
    ensures n <= MaxLoginAttempts
    ensures rec.None? ==> n == MaxLoginAttempts
  {
    if rec.None? then MaxLoginAttempts
    else if rec.value.attempts >= MaxLoginAttempts then 0
    else MaxLoginAttempts - rec.value.attempts
  }

  /**
   * A failure uses up one remaining attempt, and none remain exactly when the
   * failure counter has reached the lockout threshold; a success restores
   * all five.
   */
  lemma AttemptMovesRemaining(prev: Option<LoginRecord>, success: bool, now: int)
    ensures success ==> Remaining(Some(Attempted(prev, success, now))) == MaxLoginAttempts
    ensures !success ==>
      Remaining(Some(Attempted(prev, success, now))) == (if Remaining(prev) == 0 then 0 else Remaining(prev) - 1)
    ensures !success ==>
      (Remaining(Some(Attempted(prev, success, now))) == 0 <==> Attempted(prev, success, now).attempts >= MaxLoginAttempts)
  {
  }

  /** The singleton's state: the CSRF tokens by session, the login records and the blocked addresses. */
  class Utils {
    var csrfTokens: map<string, CsrfToken>
    var loginAttempts: map<string, LoginRecord>
    var blockedIPs: set<string>
    const det: Detectors

    /** A record marked blocked always has its address in the blocked set. */
    ghost predicate Valid()
      reads this
    {
      forall ip :: ip in loginAttempts && loginAttempts[ip].blocked ==> ip in blockedIPs
    }

    constructor (det: Detectors)
      ensures Valid() && this.det == det
      ensures csrfTokens == map[] && loginAttempts == map[] && blockedIPs == {}
    {
      this.det := det;
      csrfTokens := map[];
      loginAttempts := map[];
      blockedIPs := {};
    }

    /**
     * generateCSRFToken with the random text passed in: stores an unspent
     * token for the session, then sweeps the expired ones.
     */
    method GenerateCsrfToken(sessionId: string, token: string, now: int) returns (r: string)
      modifies this`csrfTokens
      ensures r == token
      ensures sessionId in csrfTokens && csrfTokens[sessionId] == CsrfToken(token, now, false)
      ensures forall s :: s != sessionId ==>
        (s in csrfTokens <==> s in old(csrfTokens) && !TokenExpired(old(csrfTokens)[s], now))
      ensures forall s :: s in csrfTokens && s != sessionId ==> csrfTokens[s] == old(csrfTokens)[s]
    {
      csrfTokens := csrfTokens[sessionId := CsrfToken(token, now, false)];
      CleanupExpiredTokens(now);
      r := token;
    }

    /**
     * validateCSRFToken: accepts an unspent, equal, unexpired token and
     * spends it; deletes an expired one; otherwise changes nothing.
     */
    method ValidateCsrfToken(sessionId: string, token: string, now: int) returns (ok: bool)
      modifies this`csrfTokens
      ensures ok <==> CsrfVerdictOf(Find(old(csrfTokens), sessionId), token, now) == CsrfVerdict.Valid
      ensures ok ==> csrfTokens == old(csrfTokens)[sessionId := old(csrfTokens)[sessionId].(used := true)]
      ensures CsrfVerdictOf(Find(old(csrfTokens), sessionId), token, now) == Expired ==>
        csrfTokens == old(csrfTokens) - {sessionId}
      ensures CsrfVerdictOf(Find(old(csrfTokens), sessionId), token, now) in {NoToken, AlreadyUsed, Mismatch} ==>
        csrfTokens == old(csrfTokens)
      ensures ok ==> forall t, later :: CsrfVerdictOf(Find(csrfTokens, sessionId), t, later) == AlreadyUsed
    {
      if sessionId !in csrfTokens {
        return false;
      }
      var data := csrfTokens[sessionId];
      if data.used {
        return false;
      }
      if data.token != token {
        return false;
      }
      if now - data.timestamp > CsrfLifetime {
        csrfTokens := csrfTokens - {sessionId};
        return false;
      }
      csrfTokens := csrfTokens[sessionId := data.(used := true)];
      ok := true;
    }

    /** cleanupExpiredTokens: deletes exactly the tokens older than one hour. */
    method CleanupExpiredTokens(now: int)
      modifies this`csrfTokens
      ensures csrfTokens.Keys == set s | s in old(csrfTokens) && !TokenExpired(old(csrfTokens)[s], now)
      ensures forall s :: s in csrfTokens ==> csrfTokens[s] == old(csrfTokens)[s]
    {
      csrfTokens := Sweep(csrfTokens, (t: CsrfToken) => TokenExpired(t, now));
    }

    /**
     * recordLoginAttempt: a success clears the counter and the record's
     * block flag; a failure counts one more, and the fifth and every later
     * failure blocks the address.
     */
    method RecordLoginAttempt(ip: string, success: bool, now: int)
      requires Valid()
      modifies this`loginAttempts, this`blockedIPs
      ensures Valid()
      ensures loginAttempts == old(loginAttempts)[ip := Attempted(Find(old(loginAttempts), ip), success, now)]
      ensures blockedIPs ==
        if !success && loginAttempts[ip].attempts >= MaxLoginAttempts then old(blockedIPs) + {ip} else old(blockedIPs)
    {
      var rec := Attempted(Find(loginAttempts, ip), success, now);
      loginAttempts := loginAttempts[ip := rec];
      if !success && rec.attempts >= MaxLoginAttempts {
        blockedIPs := blockedIPs + {ip};
      }
    }

    /** The timer that lifts a block thirty minutes later, run as an explicit step. */
    method ReleaseBlock(ip: string)
      requires Valid()
      modifies this`loginAttempts, this`blockedIPs
      ensures Valid()
      ensures blockedIPs == old(blockedIPs) - {ip}
      ensures ip in old(loginAttempts) ==> loginAttempts == old(loginAttempts)[ip := old(loginAttempts)[ip].(blocked := false)]
      ensures ip !in old(loginAttempts) ==> loginAttempts == old(loginAttempts)
    {
      blockedIPs := blockedIPs - {ip};
      if ip in loginAttempts {
        loginAttempts := loginAttempts[ip := loginAttempts[ip].(blocked := false)];
      }
    }

    /** isIPBlocked. */
    predicate IsIPBlocked(ip: string)
      reads this
    {
      ip in blockedIPs
    }

    /** getRemainingAttempts. */
    function GetRemainingAttempts(ip: string): (n: nat)
      reads this
      ensures n <= MaxLoginAttempts
      ensures ip !in loginAttempts ==> n == MaxLoginAttempts
      ensures ip in loginAttempts && n == 0 ==> loginAttempts[ip].attempts >= MaxLoginAttempts
    {
      Remaining(Find(loginAttempts, ip))
    }

    /**
     * validateAndSanitize over the object's entries in order: one error per
     * rejected field, every accepted field stored cleaned, valid exactly
     * when there is no error.
     */
    method ValidateAndSanitize(fields: seq<(string, Value)>, rules: map<string, Rule>) returns (result: Sanitized)
      ensures result.errors == ErrorsOf(fields, rules, det)
      ensures result.data == DataOf(fields, rules, det)
      ensures result.isValid <==> result.errors == []
    {
      var data: map<string, Value> := map[];
      var errors: seq<string> := [];
      var i := 0;
      while i < |fields|
        invariant 0 <= i <= |fields|
        invariant errors == ErrorsOf(fields[..i], rules, det)
        invariant data == DataOf(fields[..i], rules, det)
      {
        var (key, v) := fields[i];
        assert fields[..i + 1][..i] == fields[..i];
        var o := FieldOutcome(key, v, RuleFor(rules, key), det);
        if o.Rejected? {
          errors := errors + [o.error];
        } else {
          data := data[key := o.value];
        }
        i := i + 1;
      }
      assert fields[..|fields|] == fields;
      result := Sanitized(data, errors == [], errors);
    }
  }
}
