# Security components of a blog front end, modelled in Dafny

This project models the in-memory security layer of a small blog site
(articles, comments and likes). That layer is seven JavaScript components:

- **Attacker ledger and counter-measure engine** (`counter_attack.dfy`, module `CounterAttack`).
  - It keeps one profile per attacking IP: attack count, attack types, an evidence history of at most 100 entries, honeypot hits and a block with its expiry.
  - It scores each profile into LOW / MEDIUM / HIGH / CRITICAL.
  - It decides the counter-measures: monitoring, block, honeypot redirect, resource limit and legal warning.
  - It also covers the decoy-path registry, the 30-day retention sweep and the aggregate attack report.
- **Event-frequency monitor** (`event_monitor.dfy`, module `EventMonitor`).
  - It keeps global event counters and a per-IP record with an event history of at most 100 entries.
  - It runs windowed threshold checks that raise typed threats, each answered by a block, a flag or an alert.
  - It also covers the capped threat score, the global risk level, the one-day sweep, the top-threat and suspicious-IP lists and the hourly reset.
- **Comment moderation gate** (`comment_gate.dfy`, module `CommentGate`).
  - Sensitive-word severity; a weighted spam score capped at 100 and its confidence band.
  - A five-comments-per-minute rate window per user.
  - A reputation ledger clamped to [0, 100] with a history of at most 50 entries.
  - The short-circuiting moderation decision, and a review queue kept sorted by priority.
- **Validation utilities** (`security_utils.dfy`, module `SecurityUtils`).
  - HTML escaping, with its inverse and a round-trip proof.
  - Password, user-name and file-type checks, and per-field validation and sanitising.
  - One-time CSRF tokens that expire after an hour.
  - A login lockout after five failures.
- **Session table and request gates** (`auth.dfy`, module `Auth`).
  - Sessions that expire after 24 idle hours.
  - The one-time refresh-token ledger.
  - The `authorize`, CSRF and login-protection decisions with their status codes.
  - The event-severity table.
- **Security configuration** (`config.dfy`, module `Config`).
  - The Content-Security-Policy table and its header serialisation.
  - The response headers, the two-rule validation and the shallow configuration update.
- **Article store** (`store.dfy`, module `Store`).
  - The article, comment and like tables, with one like per (article, visitor) pair.
  - Cascading deletes, and like and comment counts recomputed after every change.
  - Search and statistics.

Two more files support these. `common.dfy` (module `Common`) holds the shared sequence, string, filter, sweep and stable-sort definitions. `patterns.dfy` (module `Patterns`) holds hand-written scanners for the simple regular expressions (repeated characters, eleven-digit runs, links, e-mail addresses). The regular expressions that are not simple are modelled as opaque detector functions, passed in as parameters.

## How the source is represented

- **Time.** Every read of the clock becomes an explicit `now` parameter in milliseconds. Windows and expiries are stated against it.
- **Objects that change in place** become classes with `seq` and `map` fields and field-granular `modifies` frames:
  - the attacker ledger, the event monitor, the moderation gate, the utilities, the middleware, the configuration singleton and the article database.
  - A JavaScript `Map` is a Dafny `map`, together with a sequence that records insertion order wherever the source walks the map in that order.
- **Pure parts** become functions, and their properties become lemmas. This covers scoring, levels, decisions, header rendering and validation.
- **Opaque values are parameters.** This applies to random identifiers and tokens, hashes and fingerprints, locale time stamps, and JWT signing and verification (a `Jwt` value of two functions).
- **Absent values.** A value that JavaScript tests for truthiness is modelled as the empty string when absent.
- **Where the code and its written description disagree, the model follows the code.**
  - The attacker threat level is not monotone over time. The 20-point recency bonus lapses a day after the first attack, so a level can drop (`CounterAttack.LevelCanDrop`).
  - The attack-signature table of the counter-attack component is declared but never read. No signature matching is modelled.
  - In the validation utilities, a successful login clears the attempt record's block but does not remove the IP from the blocked set. Only the thirty-minute release does that (`SecurityUtils.Utils.ReleaseBlock`).
  - The request-frequency alert of the event monitor can never fire (`EventMonitor.NoRequestFrequencyAlert`).

## Model

| member | source | states |
|---|---|---|
| SecurityUtils.Entity | security-utils.js:13-22 | each of the eight special characters becomes an entity that starts with '&', ends with ';' and is at least four characters long; every other character stays as it is; no entity contains a markup character |
| SecurityUtils.EscapeHtml | security-utils.js:51-54 | the escaped text is at least as long as the input, contains no '<', '>', quote, backquote or '='; a text without special characters comes back unchanged |
| SecurityUtils.EscapeAppend | security-utils.js:51-54 | escaping works character by character: escaping a concatenation is the concatenation of the escapes |
| SecurityUtils.UnescapeEscape | security-utils.js:13-22 | round trip: reading the entities of the table back gives the original text |
| SecurityUtils.EscapeIsInjective | security-utils.js:51-54 | two different texts never escape to the same output |
| SecurityUtils.PasswordVerdict | security-utils.js:186-237 | valid iff no errors; the strength plus the number of errors is the number of rules for an uncommon password; a common password is invalid with strength 0 and the weak-password message last; valid iff uncommon and every rule met |
| SecurityUtils.ValidatePassword | security-utils.js:186-237 | valid iff no errors iff strength is 5; strength at most 5; strength plus errors is 5 for an uncommon password |
| SecurityUtils.ValidPasswordMeetsEveryRule | security-utils.js:193-234 | a password passes iff it has at least 8 characters, an upper-case letter, a lower-case letter, a digit and a special character, and is not one of the five common passwords |
| SecurityUtils.MissedIsEmptyIffAllMet | security-utils.js:193-226 | the list of missed-rule messages is empty iff every rule is met |
| SecurityUtils.IsValidUsername | security-utils.js:244-247 | definition: 3 to 20 characters, each a letter, a digit, '_' or '-' (its consequence for escaping is ValidUsernameNeedsNoEscaping) |
| SecurityUtils.ValidUsernameNeedsNoEscaping | security-utils.js:244-247 | a valid user name has no special HTML character and no white space, so escaping leaves it unchanged |
| SecurityUtils.LastSegment | security-utils.js:269 | the text after the last '.' (the whole text when there is none): a suffix of the name containing no '.', preceded by a '.' when shorter than the name |
| SecurityUtils.IsValidFileTypeAsWritten | security-utils.js:266-271 | definition, as the source has it: a non-empty name whose lower-cased text after the last '.', with a '.' put in front, is an allowed extension; a name without '.' is judged by itself |
| SecurityUtils.IsValidFileType | security-utils.js:266-271 | definition, corrected: as written, and the name contains a '.' (so it ends with an allowed extension: AcceptedNameEndsWithAllowedExtension) |
| SecurityUtils.ExtensionlessNamePasses | security-utils.js:266-271 | as written, a name without any '.' passes when '.' followed by the lower-cased name is an allowed type |
| SecurityUtils.JpgPasses | security-utils.js:266-271 | as written, the name "jpg", which has no extension, passes under the default list |
| SecurityUtils.AcceptedNameEndsWithAllowedExtension | security-utils.js:266-271 | with the extension required, an accepted name ends (up to ASCII case) with '.' and an allowed extension |
| SecurityUtils.FieldOutcome | security-utils.js:431-466 | definition of one field's outcome; what it guarantees is stated by FieldChecks |
| SecurityUtils.FieldChecks | security-utils.js:430-466 | the checks run in the order type, length, script, SQL and the first failing one gives its message (" 类型错误", " 长度超过限制", " 包含危险内容", " 包含危险SQL" after the key); a field is accepted exactly when all pass and then keeps its type and fits the maximum length; an accepted text is stored HTML-escaped (free of every markup character), or sanitised when HTML is allowed; any other value is stored unchanged |
| SecurityUtils.OneErrorPerRejectedField | security-utils.js:430-467 | the error list holds exactly one message per rejected field |
| SecurityUtils.DataHoldsExactlyTheAcceptedFields | security-utils.js:430-467 | with distinct keys, the cleaned data holds exactly the accepted fields, each under its key with its cleaned value |
| SecurityUtils.CsrfVerdictOf | security-utils.js:138-155 | the token is valid iff one is stored for the session, it is unspent, equal to the one presented and at most one hour old; a spent token is reported as used; an expired verdict means a stored, stale token |
| SecurityUtils.Attempted | security-utils.js:280-311 | the attempt time is recorded; a success resets the count and the block; a failure adds one and blocks at five attempts or when already blocked |
| SecurityUtils.Remaining | security-utils.js:328-332 | at most 5; 5 for an unknown address |
| SecurityUtils.AttemptMovesRemaining | security-utils.js:280-332 | after a success 5 attempts remain; after a failure one fewer remain, down to 0 |
| SecurityUtils.Utils.constructor | security-utils.js:7-10 | empty token, attempt and block tables |
| SecurityUtils.Utils.GenerateCsrfToken | security-utils.js:116-130 | stores an unspent token stamped now for the session and returns it; of the other sessions' tokens it keeps exactly the unexpired ones, unchanged |
| SecurityUtils.Utils.ValidateCsrfToken | security-utils.js:138-155 | accepts iff the verdict is valid and then marks the token spent, so it can never be accepted again; deletes an expired token; otherwise changes nothing |
| SecurityUtils.Utils.CleanupExpiredTokens | security-utils.js:160-167 | keeps exactly the tokens at most one hour old, unchanged |
| SecurityUtils.Utils.RecordLoginAttempt | security-utils.js:280-303 | stores the updated record and adds the address to the blocked set when the record becomes blocked; keeps every blocked record's address in the set |
| SecurityUtils.Utils.ReleaseBlock | security-utils.js:304-309 | the thirty-minute timer: removes the address from the blocked set and clears the record's block |
| SecurityUtils.Utils.IsIPBlocked | security-utils.js:319-321 | definition: the address is in the blocked set |
| SecurityUtils.Utils.GetRemainingAttempts | security-utils.js:328-332 | at most 5; 5 for an unknown address; 0 only when five or more attempts are recorded |
| SecurityUtils.Utils.ValidateAndSanitize | security-utils.js:423-470 | the errors and the data are those of the field-by-field specification; valid iff there is no error |
| Patterns.RunLength | comment-security.js:139 | the run of copies of one character starting at a position: at least one long, maximal, all equal |
| Patterns.RepeatRuns | comment-security.js:139-140 | the matches of the repeated-character pattern, each at least four characters, so four times their number fits in the text |
| Patterns.RepeatedCharIsOneRun | comment-security.js:139 | one character repeated four or more times is exactly one match |
| Patterns.ElevenDigitRuns | comment-security.js:151-152 | the matches of the eleven-digit pattern, each eleven characters |
| Patterns.NonSpaceRun | comment-security.js:143 | the maximal run of non-space characters from a position |
| Patterns.Links | comment-security.js:143-144 | the matches of the link pattern, each at least eight characters |
| Patterns.EmailNeedsAtAndNoSpace | security-utils.js:176-179 | an address the e-mail check accepts contains an '@' and no white space |
| Patterns.SampleEmailIsValid | security-utils.js:176-179 | the e-mail test accepts a local part, '@', a domain, '.', and two letters |
| Auth.IssueAsWritten | auth-middleware.js:45-68 | as written: the minted refresh token is stored as unspent, whatever record was already stored under it |
| Auth.RefreshAsWritten | auth-middleware.js:97-127 | as written: the exchange succeeds exactly when the token verifies as a refresh token, is stored and unspent |
| Auth.SameSecondRefreshIsReplayable | auth-middleware.js:45-127 | as written: a token issued and exchanged in the same second is re-minted and re-stored unspent, so it is accepted a second time |
| Auth.Issue | auth-middleware.js:45-68 | the minted token is stored as unspent when new; a record already in the ledger is kept; no other record changes |
| Auth.Refresh | auth-middleware.js:97-127 | succeeds exactly when the token is redeemable; a failure changes nothing; after a success the token is spent; a spent token stays spent and no record disappears |
| Auth.ExchangedAtMostOnce | auth-middleware.js:107-113 | a refresh token that was exchanged is refused at any later time |
| Auth.Revoked | auth-middleware.js:133-135 | only that token is removed; every other record is unchanged |
| Auth.Authorize | auth-middleware.js:259-277 | proceeds exactly when there is a user and the role list is empty or holds the user's role; no user is 401 NO_AUTH; a user without a listed role is 403 NO_PERMISSION |
| Auth.MoreRolesAdmitMore | auth-middleware.js:268 | adding roles to a non-empty list never turns an admitted user away |
| Auth.CsrfGate | auth-middleware.js:282-308 | GET always proceeds; a missing session or token is 403 NO_CSRF_TOKEN; otherwise it proceeds exactly when the token validates; every refusal is 403 |
| Auth.CsrfTokenIsNotReplayable | auth-middleware.js:282-308 | once a state-changing request has passed, the same token is refused with 403 INVALID_CSRF_TOKEN |
| Auth.LoginProtection | auth-middleware.js:313-328 | proceeds with the client address exactly when it is not blocked; a blocked address is 429 IP_BLOCKED with 0 attempts left |
| Auth.EventSeverity | auth-middleware.js:427-440 | one of the four levels; INFO for any event name outside the table (inherited object keys: see Left out); CRITICAL exactly for sql_injection; WARN exactly for login failures and invalid tokens |
| Auth.Middleware.constructor | auth-middleware.js:11-15 | empty session table and ledger |
| Auth.Middleware.CreateSession | auth-middleware.js:146-166 | stores the new session and its unspent CSRF token; of the other sessions it keeps exactly those not idle for more than 24 hours, unchanged; of the other sessions' CSRF tokens it keeps exactly the unexpired ones, unchanged |
| Auth.Middleware.GetSession | auth-middleware.js:173-188 | an unknown id returns nothing; an idle session is deleted and not returned; a live one has its activity moved to now and is returned |
| Auth.Middleware.DestroySession | auth-middleware.js:194-196 | only that session is removed |
| Auth.Middleware.CleanupExpiredSessions | auth-middleware.js:201-208 | keeps exactly the sessions idle for at most 24 hours, unchanged |
| Auth.Middleware.GenerateRefreshToken | auth-middleware.js:45-68 | the ledger and token of Issue |
| Auth.Middleware.RefreshAccessToken | auth-middleware.js:97-127 | the answer and the ledger of Refresh |
| Auth.Middleware.RevokeRefreshToken | auth-middleware.js:133-135 | the ledger becomes Revoked |
| Auth.Middleware.CsrfProtection | auth-middleware.js:282-308 | the decision of CsrfGate on the stored token; a GET or a missing session or token changes nothing; a passed state-changing request marks exactly its session's token used and changes no other entry; an expired token is refused and deleted; an absent, spent or mismatched one is refused and the table is unchanged |
| Auth.Middleware.CheckLogin | auth-middleware.js:313-328 | proceeds exactly when the address is not in the blocked set |
| Config.DefaultSettings | security-config.js:78-84 | the JWT secret is the JWT_SECRET environment variable when set, the shipped secret otherwise |
| Config.RenderDirective | security-config.js:110-113 | a directive renders as its name alone when it has no sources, else as its name, a space and its sources |
| Config.RenderAll | security-config.js:109-113 | one rendering per directive, in table order |
| Config.CspHeader | security-config.js:107-115 | definition: the rendered directives in table order joined by "; " (its shape is stated by CspHeaderSnoc, CspHeaderSingle and the lemmas after them) |
| Config.CspHeaderSnoc | security-config.js:107-115 | a directive added at the end of the table adds "; " and its rendering at the end of the header |
| Config.CspHeaderSingle | security-config.js:107-115 | a one-directive table renders as that directive alone |
| Config.HeaderEndsWithLast | security-config.js:107-115 | the header ends with "; " and the last directive of the table |
| Config.HeaderStartsWithFirst | security-config.js:107-115 | the header starts with the first directive of the table |
| Config.DefaultUpgradeIsBare | security-config.js:22 | the last directive of the default table renders as "upgrade-insecure-requests" alone |
| Config.SecurityHeaders | security-config.js:123-128 | the configured headers, with the policy header set to the rendered table and every other header unchanged |
| Config.Validate | security-config.js:136-153 | valid iff no errors; the weak-secret error iff the secret is the shipped one; the open-CORS error iff "*" is an allowed origin; at most two errors |
| Config.DefaultSettingsValidIffSecretSet | security-config.js:7-153 | the start-up configuration is valid exactly when JWT_SECRET is set to something other than the shipped secret |
| Config.Merge | security-config.js:156-157 | each supplied section replaces the whole section; an absent one keeps its value |
| Config.MergeIdempotent | security-config.js:156-157 | applying a patch twice is applying it once; the empty patch changes nothing |
| Config.LaterPatchWins | security-config.js:156-157 | two patches in a row are one patch in which the later one wins for every section it supplies |
| Config.SecurityConfig.constructor | security-config.js:7-104 | the configuration built at start-up |
| Config.SecurityConfig.UpdateConfig | security-config.js:156-159 | the configuration becomes the merge and the result is the validation of the new configuration |
| CommentGate.SeverityFor | comment-security.js:84-89 | none exactly for zero words; critical exactly for three or more |
| CommentGate.Gate.CheckSensitiveWords | comment-security.js:62-77 | the words found are exactly the listed words the content mentions ignoring case, in list order; found iff non-empty; severity from their number |
| CommentGate.UpperFixedIffNoLowerCase | comment-security.js:155 | a text equals its upper-case form exactly when it has no lower-case letter |
| CommentGate.RawSpamScore | comment-security.js:131-170 | definition: the twelve weighted signals of the content and the user, summed before the cap (the reputation part is isolated by ReputationPenalty) |
| CommentGate.SpamScore | comment-security.js:131-173 | the weighted sum of the signals, capped at 100 |
| CommentGate.ReputationPenalty | comment-security.js:162-164 | reputation adds 25 below 20 and 40 more below 10, so a lower reputation never lowers the score |
| CommentGate.ConfidenceOf | comment-security.js:202-208 | definition: very high from 90, high from 70, medium from 50, low from 30, otherwise very low |
| CommentGate.SpamIffHighConfidence | comment-security.js:113-123 | a score is spam (70 or more) exactly when its confidence is high or very high |
| CommentGate.SpamReasons | comment-security.js:181-195 | at most nine reasons, listed in the order of the checks |
| CommentGate.UnexplainedScoreIsLow | comment-security.js:131-195 | a comment with no listed reason scores at most 30 and is never spam |
| CommentGate.Refreshed | comment-security.js:224-227 | the rate check restarts only the caller's expired window; every other window and the set of users stay the same |
| CommentGate.AfterComment | comment-security.js:243-248 | the window after a comment counts it: an expired window restarts at one |
| CommentGate.RemainingComments | comment-security.js:258-268 | at most five; none for an anonymous user; five for an unknown or expired window |
| CommentGate.TooFast | comment-security.js:217-231 | definition: a named user whose unexpired window already counts five comments; an anonymous user never is |
| CommentGate.TooFastIffNoneRemaining | comment-security.js:217-268 | for a known user, posting is refused exactly when no comment is left |
| CommentGate.RefreshIsInvisible | comment-security.js:217-231 | the refresh changes neither the verdict nor the count left, and doing it twice changes nothing |
| CommentGate.RecordingUsesOneComment | comment-security.js:237-268 | each recorded comment uses up one comment left; after the fifth the user is too fast |
| CommentGate.UserReputation | comment-security.js:277-282 | definition: the stored score, or 50 for an anonymous or unknown user |
| CommentGate.Clamp | comment-security.js:298 | the result lies in [0, 100] and equals its argument there |
| CommentGate.Adjusted | comment-security.js:293-309 | the score is moved by the change and clamped; the change is logged with the new score; at most the newest 50 entries are kept |
| CommentGate.ModerationMovesReputation | comment-security.js:519 | an approval raises a score by 2 up to 100 and a rejection lowers it by 5 down to 0 |
| CommentGate.ValidationErrors | comment-security.js:400-447 | definition: one message per failing basic check, in the order of the checks (validity is stated by ValidIffChecksPass) |
| CommentGate.ValidIffChecksPass | comment-security.js:400-447 | a comment is valid exactly when its content is present, 2 to 1000 characters, free of script and SQL, its author present, and its e-mail valid when given |
| CommentGate.Decide | comment-security.js:322-393 | definition of the moderation decision, check by check (its guarantees are stated by DecisionIsConsistent) |
| CommentGate.DecisionIsConsistent | comment-security.js:322-393 | a comment is approved iff neither blocked nor sent to review; blocked iff it fails validation, names three or more words, is very-high-confidence spam or comes too fast; a failed validation returns exactly its errors; an approved comment has no word, is not spam, not new and has reputation 30 or more |
| CommentGate.Priority | comment-security.js:477-488 | definition: 50, 30, 20 and 10 for each reason containing the respective keyword (the loop of the source is Gate.CalculateModerationPriority) |
| CommentGate.PrioritySnoc | comment-security.js:477-488 | each further reason adds its keyword weights to the priority |
| CommentGate.FindIndex | comment-security.js:506 | the first position holding the id, or none when no item has it |
| CommentGate.RemovalKeepsOrder | comment-security.js:515 | removing an item from a queue sorted by priority keeps it sorted |
| CommentGate.Gate.constructor | comment-security.js:9-53 | the fifteen default words, empty windows, reputations and queue |
| CommentGate.Gate.IsCommentingTooFast | comment-security.js:217-231 | answers the rate verdict on the old windows and restarts only the caller's expired window |
| CommentGate.Gate.RecordComment | comment-security.js:237-251 | counts the comment in the caller's window; an anonymous caller changes nothing |
| CommentGate.Gate.UpdateUserReputation | comment-security.js:290-312 | stores the adjusted reputation (from 50 for a new user); every stored score stays within [0, 100] |
| CommentGate.Gate.CalculateSpamScore | comment-security.js:131-173 | the score of the content with the caller's reputation and rate verdict |
| CommentGate.Gate.DetectSpam | comment-security.js:113-123 | the score, the verdict at 70, the reasons and the confidence, with one rate verdict for both |
| CommentGate.Gate.AutoModerate | comment-security.js:322-393 | the decision of the checks in order; windows are touched only when the decision passes validation and the word screen |
| CommentGate.Gate.CalculateModerationPriority | comment-security.js:477-488 | the sum of 50, 30, 20 and 10 per reason containing each keyword |
| CommentGate.Gate.AddToModerationQueue | comment-security.js:456-470 | the queue gains exactly the new pending item and stays sorted by priority, highest first; the sort is stable, so the new item comes after every queued item of equal priority and the items of each priority keep their order |
| CommentGate.Gate.ProcessModerationResult | comment-security.js:505-523 | removes the first item with the id and moves its user's reputation by +2 on approval and -5 otherwise; an unknown id changes nothing |
| CommentGate.Gate.UpdateSensitiveWords | comment-security.js:588-590 | the list holds exactly the old and the new words, without duplicates: the old list unchanged, then the given words not already in it, each once, in order of first occurrence |
| CommentGate.Gate.PutReputation | comment-security.js:311 | only the user's reputation record changes, and every record stays within [0, 100] |
| CommentGate.Gate.ModerateScreened | comment-security.js:341-393 | past validation and with fewer than three sensitive words, the decision of the checks on the refreshed rate window, which is the only state touched |
| CounterAttack.TypeWeight | counter-attack-monitor.js:297-307 | definition: the weight table, with 5 for a type outside it (inherited object keys: see Left out); how the weights add up is stated by AddTypeWeight |
| CounterAttack.WeightSum | counter-attack-monitor.js:306-308 | the summed weight of the distinct types lies between 5 and 25 per type |
| CounterAttack.AddTypeWeight | counter-attack-monitor.js:237-308 | recording a known type leaves the weight alone; a new type adds its own weight |
| CounterAttack.Score | counter-attack-monitor.js:290-318 | the unclamped score lies between the type and honeypot parts and that plus 50 for the count and 20 for recent activity |
| CounterAttack.ThreatScore | counter-attack-monitor.js:290-318 | the score of a profile, with the same bounds |
| CounterAttack.LevelOf | counter-attack-monitor.js:321-324 | definition: CRITICAL from 80, HIGH from 60, MEDIUM from 40, otherwise LOW (bands and monotonicity: LevelBands) |
| CounterAttack.LevelBands | counter-attack-monitor.js:321-324 | the level is monotone in the score; CRITICAL from 80, HIGH from 60, MEDIUM from 40, LOW below |
| CounterAttack.HoneypotHitsRaiseLevel | counter-attack-monitor.js:311-324 | four honeypot hits make a profile at least MEDIUM and eight make it CRITICAL |
| CounterAttack.RecencyBonusLapses | counter-attack-monitor.js:314-318 | a day after the first attack the same profile scores 20 less |
| CounterAttack.LevelCanDrop | counter-attack-monitor.js:290-325 | a profile with eleven attacks of two types is HIGH an hour after its first attack and MEDIUM a day after it |
| CounterAttack.NewProfile | counter-attack-monitor.js:215-231 | a new profile has no attacks, level LOW, no block, no expiry and no honeypot hits |
| CounterAttack.TruncatedBody | counter-attack-monitor.js:256 | an empty body is stored as absent; any other body as its prefix of at most 1000 characters |
| CounterAttack.RecordedProfile | counter-attack-monitor.js:214-245 | one more attack, the type, agent ("Unknown" when absent) and path added, last seen now, the fingerprint replaced, the level recomputed from the updated profile; a new profile starts unblocked with no hits; an old one keeps its first sighting, block and hits |
| CounterAttack.RecordedEvidence | counter-attack-monitor.js:248-263 | the history holds the newest 100 entries, the new one last |
| CounterAttack.RecordingNeverLowersScore | counter-attack-monitor.js:234-245 | at a fixed time, another recorded attack never lowers the score |
| CounterAttack.ShouldBlockIP | counter-attack-monitor.js:609-613 | definition: three or more attacks, a CRITICAL level or a honeypot hit |
| CounterAttack.ShouldRedirectToHoneypot | counter-attack-monitor.js:638-640 | definition: two or more attacks at a level above LOW |
| CounterAttack.BlockThreshold | counter-attack-monitor.js:609-613 | two attacks, a level below CRITICAL and no hits do not block; three attacks do |
| CounterAttack.MeasureList | counter-attack-monitor.js:562-590 | monitoring is always pushed; each other measure exactly when its condition holds |
| CounterAttack.MeasureListInCheckOrder | counter-attack-monitor.js:562-590 | the measures come in the fixed order of the checks, each at most once |
| CounterAttack.MeasuresFor | counter-attack-monitor.js:558-590 | monitoring always; a block iff auto-block is on and the profile should be blocked; a redirect iff redirects are on and the profile has two attacks and a level above LOW; a resource limit iff HIGH or CRITICAL; a warning iff warnings are on and there are more than five attacks; in check order |
| CounterAttack.Severity | counter-attack-monitor.js:965-976 | the fixed table; MEDIUM for any type outside it (inherited object keys: see Left out) |
| CounterAttack.ClientIP | counter-attack-monitor.js:952-958 | the first present of the forwarding headers and socket addresses, else 127.0.0.1 |
| CounterAttack.IsPrivateIP | counter-attack-monitor.js:535-548 | definition: one of the eight private or local prefixes, or exactly "::1" |
| CounterAttack.Is172PrivateIsBlock | counter-attack-monitor.js:538 | the 172 pattern accepts exactly the addresses starting with 172.N. for N from 16 to 31 |
| CounterAttack.PrivateIPExamples | counter-attack-monitor.js:535-548 | 172.16.0.1, ::1 and 10.0.0.8 are private; 172.32.0.1 and ::10 are not |
| CounterAttack.AddTypes | counter-attack-monitor.js:816-818 | types not listed keep their histogram count |
| CounterAttack.AddTypesCounts | counter-attack-monitor.js:816-818 | over distinct types, the count of a type grows by one exactly when it is listed |
| CounterAttack.Tally | counter-attack-monitor.js:801-833 | the level histogram counts every profile once; blocked and active counts are at most the number of profiles |
| CounterAttack.TallyTypeCounts | counter-attack-monitor.js:816-818 | the type histogram counts, for each type, the profiles that show it |
| CounterAttack.TopAttackers | counter-attack-monitor.js:836-837 | exactly min(n, 10) entries for n candidates: the first ones of the stable sort by attack count, highest first, so a sub-multiset of the candidates (all of them when there are ten or fewer); no candidate left out has more attacks than any listed one |
| CounterAttack.TopAttackersDominate | counter-attack-monitor.js:836-837 | no candidate left out of the top list has more attacks than one listed |
| CounterAttack.CountTypes | counter-attack-monitor.js:816-818 | the loop computes the histogram update of AddTypes |
| CounterAttack.Monitor.constructor | counter-attack-monitor.js:124-145 | every one of the eight decoy paths registered with no hits; empty tables |
| CounterAttack.Monitor.RecordAttacker | counter-attack-monitor.js:214-264 | stores the recorded profile under the IP, appending a new IP to the walk order; every stored profile keeps distinct types and at most 100 evidence entries |
| CounterAttack.Monitor.CollectEvidence | counter-attack-monitor.js:336-375 | files the evidence record with the type's severity under its id |
| CounterAttack.Monitor.BlockIP | counter-attack-monitor.js:619-631 | a known attacker is blocked until now plus the block duration; an unknown IP changes nothing |
| CounterAttack.Monitor.ExecuteCounterMeasures | counter-attack-monitor.js:558-602 | for a known attacker: the measures of MeasuresFor, logged under (ip, now), and the profile replaced by Countered, which blocks it until now plus the block duration exactly when auto-blocking is on and ShouldBlockIP holds; an unknown IP gets no measure and changes nothing |
| CounterAttack.Monitor.DetectAndRecordAttack | counter-attack-monitor.js:185-205 | the profile becomes Recorded from the previous one (a new IP is appended to the order), the evidence record is filed under its id, and the measures are MeasuresFor of the recorded profile, logged under (ip, now), with the profile blocked as Countered decides; no other profile changes |
| CounterAttack.Monitor.CheckHoneypotAccess | counter-attack-monitor.js:710-726 | a hit exactly for a registered decoy path: its hits go up by one and the visitor joins it; the visitor's profile, if any, counts one more hit and keeps its level; any other path changes nothing |
| CounterAttack.Monitor.CleanupExpiredData | counter-attack-monitor.js:1030-1056 | keeps exactly the profiles seen and the records made in the last 30 days, unchanged, and keeps the walk order of the survivors |
| CounterAttack.Monitor.GenerateAttackReport | counter-attack-monitor.js:776-837 | the report counters are the tally over the profiles in walk order; the top list is the ten most active |
| CounterAttack.Recorded | counter-attack-monitor.js:214-263 | recording an attack keeps a profile well formed (history within 100 entries, level matching the score) |
| CounterAttack.Monitor.Store | counter-attack-monitor.js:214-245 | the ledger maps the IP to the profile; the walk order gains the IP only when it is new |
| EventMonitor.CounterFor | security-monitor.js:156-185 | definition: the counter each event name increments; a blocked comment counts only when a reason marks it as spam, and other names count nowhere |
| EventMonitor.Bump | security-monitor.js:156-185 | one more on the named counter, every other counter unchanged |
| EventMonitor.BlockedCommentIsSpamIffMarked | security-monitor.js:173-177 | a blocked comment is counted as spam exactly when one of its reasons carries the spam marker, and otherwise counts nowhere |
| EventMonitor.BumpRecord | security-monitor.js:222-240 | a per-IP record differs only by one more on the event's own counter, if the record keeps it; sightings and history unchanged |
| EventMonitor.Observed | security-monitor.js:194-240 | the record after an event: created at `now` when new, last sighting `now`, the event pushed onto a history capped at the last 100, the event's counter bumped |
| EventMonitor.RetimedKeepsCounts | security-monitor.js:212-219 | moving the last sighting and replacing the history leaves every counter as it was |
| EventMonitor.Recent | security-monitor.js:257-258 | a time window of the history is no longer than the history |
| EventMonitor.Vectors | security-monitor.js:322-327 | the number of distinct injection vectors among the events is at most three |
| EventMonitor.FiresIffAboveThreshold | security-monitor.js:30-36 | each alert condition is its measure strictly above its threshold (100 requests a minute; 10, 5, 3 and 20 an hour); the multi-vector alert fires at two or more distinct attack kinds, its threshold being 1 |
| EventMonitor.ThreatsFor | security-monitor.js:261-335 | the conditions checked produce at most one threat each |
| EventMonitor.ThreatsForFiresExactly | security-monitor.js:261-335 | a kind is listed exactly when it is checked and its condition holds; each threat carries its measure as count and its kind's severity |
| EventMonitor.ThreatsForKeepsOrder | security-monitor.js:261-335 | the threats come out in the order of the checks |
| EventMonitor.CheckOrderIsComplete | security-monitor.js:264-335 | all six kinds are checked, each once, in source order |
| EventMonitor.Analyze | security-monitor.js:251-335 | definition: the checks in order on the record's windowed measures (what it reports is stated by AnalyzeFiresIffAboveThreshold) |
| EventMonitor.AnalyzeFiresIffAboveThreshold | security-monitor.js:251-335 | the analysis of a record reports a kind exactly when its windowed measure (last minute for requests, last hour otherwise) exceeds the threshold, in check order |
| EventMonitor.NoRequestFrequencyAlert | security-monitor.js:217-271 | with the history capped at 100 events the request-frequency alert (more than 100 in a minute) can never fire |
| EventMonitor.Response | security-monitor.js:358-362 | definition: a CRITICAL threat blocks, a HIGH one flags, any other only alerts |
| EventMonitor.Responses | security-monitor.js:348-367 | one response per threat, in order |
| EventMonitor.ResponseByKind | security-monitor.js:358-362 | brute force, SQL injection and multi-vector threats block the IP; request frequency and XSS flag it; spam only alerts |
| EventMonitor.ThreatScore | security-monitor.js:521-531 | the threat score never exceeds 100 points |
| EventMonitor.ScoreMonotone | security-monitor.js:521-531 | more of any per-IP counter never lowers the score |
| EventMonitor.RequestsAloneStayBelowTopCut | security-monitor.js:503-528 | an IP with only requests scores at most 50 and so never reaches the top-threat list |
| EventMonitor.RiskLevel | security-monitor.js:580-589 | definition: the band of the XSS, SQL-injection and CSRF counts together: HIGH above 50, MEDIUM above 20, LOW above 5, else MINIMAL |
| EventMonitor.RiskMonotone | security-monitor.js:580-589 | more injection attempts never lower the risk level; MINIMAL exactly up to 5, HIGH exactly above 50 |
| EventMonitor.Above | security-monitor.js:501-511 | every candidate is a recorded IP with its own score, strictly above the cut |
| EventMonitor.AboveIsComplete | security-monitor.js:501-511 | every recorded IP scoring above the cut is a candidate |
| EventMonitor.TopThreats | security-monitor.js:513 | exactly min(n, 10) entries for n candidates: the first ones of the stable sort by score, highest first, so a sub-multiset of the candidates (all of them when there are ten or fewer); no candidate left out scores above any listed one |
| EventMonitor.Trimmed | security-monitor.js:452 | every kept record keeps its key and has its history cut to the last day |
| EventMonitor.SweepFacts | security-monitor.js:447-454 | after the sweep the insertion order lists exactly the kept IPs, without duplicates, as a subsequence of the old order, and every history stays within the cap |
| EventMonitor.Monitor.constructor | security-monitor.js:16-29 | all counters zero, no IP recorded |
| EventMonitor.Monitor.UpdateStats | security-monitor.js:156-185 | only the event's own global counter, if it has one, goes up by one |
| EventMonitor.Monitor.DetectThreats | security-monitor.js:194-244 | an event without an IP changes nothing; otherwise the IP's record becomes the observed one (appended to the walk order when new) and the threats are its analysis, never a request-frequency alert |
| EventMonitor.Monitor.Store | security-monitor.js:199-212 | the table maps the IP to the record; the walk order gains the IP only when it is new |
| EventMonitor.Monitor.Log | security-monitor.js:64-95 | the event's counter goes up by one and no other; an event with an IP replaces that IP's record by Observed of the old one, appends a new IP to the order and yields the threats Analyze finds in the record, never a request-frequency one; an event without an IP changes no record and yields none; one response per threat |
| EventMonitor.Monitor.CleanupExpiredData | security-monitor.js:442-455 | the table keeps exactly the IPs seen within a day, each with its history cut to the last day, and the walk order follows |
| EventMonitor.Monitor.CollectAbove | security-monitor.js:501-511 | the walk over the table in insertion order yields exactly the candidates above the cut |
| EventMonitor.Monitor.GetTopThreats | security-monitor.js:498-514 | the top-threat list of the IPs above 50 points |
| EventMonitor.Monitor.GetSuspiciousIPs | security-monitor.js:537-554 | the IPs above 30 points, sorted by score descending |
| EventMonitor.Monitor.GenerateHourlyReport | security-monitor.js:460-475 | the report holds the counters as they were and both threat lists; afterwards every counter is zero |
| Common.SortDesc | security-monitor.js:553 | a stable sort: sorted by descending key, of the same length, a permutation of its input, and for every key value the entries with that key come out in their input order |
| Common.InsertLastStable | security-monitor.js:553 | inserting the last entry into a stable sort of the others gives, per key, the entries in input order |
| Common.InsertDescStable | security-monitor.js:553 | inserting into a sorted list places the entry after every entry of equal key and keeps the order of the others of that key |
| Common.PrefixOutranksRest | counter-attack-monitor.js:836-837 | the first n entries of a descending list are a sub-multiset of it and outrank every entry left out |
| Common.DedupSnoc | comment-security.js:589 | deduplicating a list extended by one element adds that element at the end exactly when it did not occur before, so the result lists first occurrences in order |
| Common.DedupDistinct | comment-security.js:589 | a list without duplicates is unchanged by deduplication |
| Common.DedupAppend | comment-security.js:589 | merging onto a list without duplicates keeps it, then appends the new elements once each, in order of first occurrence |
| Common.Sweep | security-monitor.js:447-454 | the expiry sweep keeps exactly the unexpired entries, with their values untouched |
| Common.PushCapped | security-monitor.js:214-219 | an appended history holds at most the cap, grows by one below it, ends with the new entry and keeps the newest of the older ones in order |
| Store.IndexOf | database.js:216 | the first position holding the id, or none exactly when no article has it |
| Store.IndexOfSameIds | database.js:214-227 | tables with the same ids in the same places find every id at the same position |
| Store.Updated | database.js:214-227 | only the first article with the id changes, to the merged one; an absent id changes nothing; the ids stay where they were |
| Store.FindComment | database.js:282-283 | a comment is found exactly when some comment has the id, and it is one of them |
| Store.FilterKeepsOneLikePerPair | database.js:350-369 | removing likes keeps every visitor at one like per article |
| Store.AppendNewPair | database.js:326-341 | appending a like for a pair that has none keeps one like per pair |
| Store.HeadPairIsOnly | database.js:352-354 | with one like per pair, a visitor's like at the head is their only one |
| Store.HasLikePastHead | database.js:379-384 | past a like of another pair, the visitor has liked exactly when they did in the rest |
| Store.UnlikeCount | database.js:350-363 | with one like per pair, unliking removes exactly one like of the article when the visitor had liked it and none otherwise |
| Store.DisjointCounts | database.js:433-434 | two tests no row passes together count at most the whole table |
| Store.StatisticsOf | database.js:426-439 | the totals are the table sizes, and published plus drafts never exceed the articles |
| Store.NewArticleStatistics | database.js:198-212 | a new article adds one article and no views, and counts as published exactly when its status is published |
| Store.FilterTwice | database.js:447-473 | filtering twice is filtering once by both tests |
| Store.OptionalFilter | database.js:450-473 | a filter applied only when its option is given is a filter by a test that passes everything otherwise |
| Store.Search | database.js:443-476 | definition: the status, category, author and keyword filters applied one after the other, each only when given (its result is stated by SearchSelectsExactly) |
| Store.SearchIsOneFilter | database.js:443-476 | the search is one filter by all the given tests together |
| Store.SearchSelectsExactly | database.js:443-476 | the result keeps table order and holds exactly the articles passing every given filter (status, category, author, case-insensitive keyword) |
| Store.FilterDropsOne | database.js:356 | a row the test rejects makes the filtered table shorter, so a removal is detected by the length |
| Store.ArticleDatabase.constructor | database.js:7-17 | the article, comment and like tables start empty (the sample rows seeded on first use are left out) |
| Store.ArticleDatabase.AddArticle | database.js:198-212 | the new article carries the given fields, every count at zero, and goes first |
| Store.ArticleDatabase.UpdateArticle | database.js:214-227 | the table becomes the updated one; the merged article is returned exactly when the id is present |
| Store.ArticleDatabase.DeleteArticle | database.js:229-237 | the article goes with every comment and like on it, and likes stay one per pair |
| Store.ArticleDatabase.UpdateArticleCommentCount | database.js:297-303 | the first article with the id records its current number of comments; an absent id changes nothing |
| Store.ArticleDatabase.UpdateArticleLikeCount | database.js:371-377 | the first article with the id records its current number of likes; an absent id changes nothing |
| Store.ArticleDatabase.AddComment | database.js:263-279 | an approved comment without likes is appended, the article's comment count goes up by one and the article records it |
| Store.ArticleDatabase.DeleteComment | database.js:281-289 | an unknown id changes nothing; otherwise the comments with the id go and their article is recounted |
| Store.ArticleDatabase.HasUserLiked | database.js:379-384 | definition: some stored like pairs the article with the visitor |
| Store.ArticleDatabase.AddLike | database.js:322-348 | succeeds exactly when the visitor had not liked the article; then one like is appended, the count goes up by one and the article records it; otherwise nothing changes; likes stay one per pair |
| Store.ArticleDatabase.RemoveLike | database.js:350-363 | succeeds exactly when the visitor had liked the article; then their like goes, the count goes down by one and the article records it; otherwise nothing changes |
| Store.ArticleDatabase.GetStatistics | database.js:426-439 | the statistics of the three tables |
| Store.ArticleDatabase.SearchArticles | database.js:443-476 | exactly the stored articles passing every given filter |

## Left out

- File and storage I/O is not modelled: evidence and report files, log files and their rotation, the attacker database file, directory creation. The article store keeps its tables in class fields instead of browser local storage.
- Network calls are not modelled. The geolocation lookup of the counter-attack component (`getGeoLocation`, `fetchGeoData`) is left out.
- Timers are not modelled: every `setInterval` and `setTimeout`. Each timer body that matters is a method taking `now`, such as the cleanups and `SecurityUtils.Utils.ReleaseBlock` for the thirty-minute unblock.
- Cryptography and randomness are parameters: the SHA-256 request fingerprint, random evidence ids, CSRF and session tokens, UUIDs, password hashing, and JWT signing and verification.
- The XSS, SQL-injection and e-mail-in-text regular expressions and `sanitizeHtml` are opaque detector functions. They are stateless in the model. The source calls `.test` on global (`/g`) regular expressions, which carry `lastIndex` from one call to the next; that hidden state is not modelled.
- In the event monitor, `log` → `detectThreats` → `handleThreats` → `log` can re-enter itself. That recursion is not modelled. `handleThreats` is the decision `EventMonitor.Responses`, and the block, flag and alert it triggers are not carried out on the monitor's state.
- Report, warning and recommendation texts are not modelled, nor console output, colours, the daily report, the security summary object and the real-time statistics of the event monitor.
- Case mapping (`toLowerCase`, `toUpperCase`) is ASCII only. String lengths count characters rather than UTF-16 code units.
- Configuration sections that no modelled operation reads are left out: rate limits, password policy, file upload, validation limits, login protection. So are `getCORSConfig`, `getRateLimitConfig` and `getConfig`. `updateConfig` accepts only the four modelled sections; keys outside them are not modelled.
- `null` and `undefined` are not modelled apart from the empty string and `Option`.
- Not modelled in the validation utilities: `getClientIP`, `generateRandomString`, `generateUUID`, `hashPassword`. (The client-address rule is modelled once, as `CounterAttack.ClientIP`.)
- Not modelled in the authentication middleware: `authenticate`, `optionalAuth`, `generateAccessToken`, `verifyAccessToken`, cookie handling, `setSecurityHeaders` and `logSecurityEvent`. Only the severity table `Auth.EventSeverity` of the last one is modelled.
- Not modelled in the moderation gate: `filterSensitiveWords`, `sanitizeComment`, `getStats`, `calculateAverageReputation`, `resetLimits`, `getModerationQueue`.
- Not modelled in the article store: `incrementViewCount`, the user, settings and homepage tables, export and import, change notification, and the sample rows seeded on first use.
- Auth.Middleware.GenerateRefreshToken: follows the corrected ledger `Auth.Issue`, which keeps a record already stored under the minted token. The source overwrites it; that behaviour is `Auth.IssueAsWritten` (see Findings).
- SecurityUtils.IsValidFileType: requires the name to contain a '.'. The source accepts an extensionless name equal to an allowed extension; that behaviour is `SecurityUtils.IsValidFileTypeAsWritten` (see Findings).
- Auth.EventSeverity: looks the event up in a table and defaults to INFO. In the source the table is an object literal, so an event named after an inherited object property ("constructor", "toString", "__proto__") finds that property instead of the default. The model treats every unlisted name as unknown.
- CounterAttack.TypeWeight: same as above for the type-weight table; an inherited property name would add a non-number to the score in the source. The model gives such a type the default weight 5.
- CounterAttack.Severity: same as above for the severity table; the model gives such a type the default MEDIUM.
- Store.ArticleDatabase.AddArticle: the draft holds only title, author, content, status, category and tags. The source spreads the whole submitted object after `id`, so extra fields are copied and a submitted `id` replaces the time-based one. The model always takes `now` as the id.
- Store.ArticleDatabase.AddComment: the draft holds only article, author, e-mail, content and parent. The source spreads the whole submitted object after `id`, so extra fields are copied and a submitted `id` replaces the time-based one. The model always takes `now` as the id.
- Store.ArticleDatabase.UpdateArticle: the patch covers the text fields, tags and counts. The source spreads the whole update object, so it can also replace `id` and `createTime`, or add fields. The model keeps `id` and `createTime`.

## Findings

| source | as written | input that shows it | evidently intended | confidence | as-written member | corrected member |
|---|---|---|---|---|---|---|
| auth-middleware.js:45-127 | `refreshAccessToken` marks the token used, then mints a new refresh token with `iat` in whole seconds and stores it as unused. A token minted for the same user in the same second is the very token just spent, so it is re-armed | a refresh token issued and exchanged within the same second: the second exchange of that token succeeds | a refresh token can be exchanged at most once | not executed | Auth.SameSecondRefreshIsReplayable | Auth.ExchangedAtMostOnce |
| security-utils.js:266-271 | the extension is the text after the last '.', which is the whole name when there is no '.' | the file name `jpg` passes as an allowed `.jpg` file | only a name that ends in '.' plus an allowed extension passes | not executed | SecurityUtils.JpgPasses | SecurityUtils.AcceptedNameEndsWithAllowedExtension |
