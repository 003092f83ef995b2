/**
 * Nickname rules: the validation schema with its messages in the order the schema
 * reports them, the length and safety reports, and the formatter that repairs a
 * nickname as the user leaves the field. Lengths are counted in characters; every
 * character the charset admits is a single UTF-16 unit.
 */
module NicknameValidation {
  import opened JsStrings

  // ---------------------------------------------------------------------------
  // Constants
  // ---------------------------------------------------------------------------

  const MaxLength: nat := 10
  const MinLength: nat := 2

  /** Nicknames refused outright, compared with the nickname lower-cased. */
  const ForbiddenNicknames: seq<string> := [
    "admin", "administrator", "root", "system", "guest",
    "운영자", "관리자", "시스템", "테스트",
    "test", "null", "undefined", "anonymous", "익명"
  ]

  /** The forbidden regular expressions, in their order. */
  datatype Pattern =
    | StartsWithAdmin   // ^admin, case-insensitive
    | Contains(word: string)
    | DigitsOnly        // ^\d+$
    | DashesOnly        // ^[_-]+$

  const ForbiddenPatterns: seq<Pattern> := [StartsWithAdmin, Contains("운영자"), Contains("관리자"), DigitsOnly, DashesOnly]

  const MsgRequired := "닉네임을 입력해주세요"
  const MsgTooShort := "닉네임은 최소 2자 이상이어야 합니다"
  const MsgTooLong := "닉네임은 최대 10자까지 가능합니다"
  const MsgCharset := "닉네임은 한글, 영문, 숫자, _, - 만 사용 가능합니다"
  const MsgBlank := "닉네임은 공백만으로 구성될 수 없습니다"
  const MsgPadded := "닉네임 앞뒤로 공백이 있을 수 없습니다"
  const MsgForbidden := "사용할 수 없는 닉네임입니다"
  const MsgPattern := "사용할 수 없는 닉네임 패턴입니다"

  const SafetyForbidden := "금지된 닉네임입니다"
  const SafetyPattern := "금지된 패턴이 포함되어 있습니다"
  const SafetyDigits := "숫자만으로는 닉네임을 만들 수 없습니다"
  const SafetyDashes := "특수문자만으로는 닉네임을 만들 수 없습니다"

  // ---------------------------------------------------------------------------
  // Character classes and patterns
  // ---------------------------------------------------------------------------

  /** The class `[가-힣a-zA-Z0-9_-]`: Hangul syllables, ASCII letters and digits, `_` and `-`. */
  predicate IsAllowed(c: char) {
    ('\U{AC00}' <= c <= '\U{D7A3}') || ('a' <= c <= 'z') || ('A' <= c <= 'Z') || IsDigit(c) || c == '_' || c == '-'
  }

  /** `^[가-힣a-zA-Z0-9_-]+$`. */
  predicate MatchesCharset(s: string) {
    |s| >= 1 && forall i | 0 <= i < |s| :: IsAllowed(s[i])
  }

  predicate IsDash(c: char) { c == '_' || c == '-' }

  /** Whether pattern `p` matches `s`. */
  predicate Matches(p: Pattern, s: string) {
    match p
    case StartsWithAdmin => StartsWith(AsciiLower(s), "admin")
    case Contains(w) => Includes(s, w)
    case DigitsOnly => |s| >= 1 && AllDigits(s)
    case DashesOnly => |s| >= 1 && forall i | 0 <= i < |s| :: IsDash(s[i])
  }

  predicate AnyForbiddenPattern(s: string) {
    exists i | 0 <= i < |ForbiddenPatterns| :: Matches(ForbiddenPatterns[i], s)
  }

  predicate IsForbiddenName(s: string) {
    AsciiLower(s) in ForbiddenNicknames
  }

  /** No allowed character is whitespace. */
  lemma AllowedIsNotWhitespace(c: char)
    requires IsAllowed(c)
    ensures !IsJsWhitespace(c)
  {
  }

  // ---------------------------------------------------------------------------
  // The schema
  // ---------------------------------------------------------------------------

  /** The schema's checks, in the order it runs them. */
  datatype Issue = Required | TooShort | TooLong | Charset | Blank | Padded | ForbiddenName | ForbiddenPattern {
    function Message(): string {
      match this
      case Required => MsgRequired
      case TooShort => MsgTooShort
      case TooLong => MsgTooLong
      case Charset => MsgCharset
      case Blank => MsgBlank
      case Padded => MsgPadded
      case ForbiddenName => MsgForbidden
      case ForbiddenPattern => MsgPattern
    }
  }

  /** Each check has its own message, so the message shown names the check that failed. */
  lemma MessagesDistinct(a: Issue, b: Issue)
    ensures a.Message() == b.Message() <==> a == b
  {
  }

  datatype Verdict = Accepted | Rejected(issue: Issue) {
    /** The message shown for a rejection. */
    function Error(): string
      requires Rejected?
    {
      issue.Message()
    }
  }

  /**
   * `validateNickname`: the schema runs every check and the first issue it reports is
   * shown, so the verdict is the first failing check in the schema's order.
   */
  function ValidateNickname(s: string): (v: Verdict)
    ensures v.Rejected? && v.issue == Required <==> |s| == 0
    ensures v == Accepted ==> MinLength <= |s| <= MaxLength && MatchesCharset(s)
  {
    if |s| < 1 then Rejected(Required)
    else if |s| < MinLength then Rejected(TooShort)
    else if |s| > MaxLength then Rejected(TooLong)
    else if !MatchesCharset(s) then Rejected(Charset)
    else if |Trim(s)| == 0 then Rejected(Blank)
    else if Trim(s) != s then Rejected(Padded)
    else if IsForbiddenName(s) then Rejected(ForbiddenName)
    else if AnyForbiddenPattern(s) then Rejected(ForbiddenPattern)
    else Accepted
  }

  /** The rules a valid nickname meets, stated without the schema's order. */
  predicate ValidNickname(s: string) {
    MinLength <= |s| <= MaxLength && MatchesCharset(s) && !IsForbiddenName(s) && !AnyForbiddenPattern(s)
  }

  /** The schema accepts exactly the nicknames of 2 to 10 allowed characters that are neither forbidden names nor forbidden patterns. */
  lemma ValidateAcceptsExactlyValid(s: string)
    ensures ValidateNickname(s).Accepted? <==> ValidNickname(s)
  {
    if MatchesCharset(s) {
      AllowedIsNotWhitespace(s[0]);
      AllowedIsNotWhitespace(s[|s| - 1]);
      assert Trim(s) == s;
    }
  }

  /**
   * Which issue comes first: an empty nickname asks for input, a one-character one is
   * too short, an overlong one too long, a nickname of acceptable length with a
   * character outside the class gets the charset issue, and one that passes those but
   * is a forbidden name gets that.
   */
  lemma FirstErrorOrder(s: string)
    ensures |s| == 0 ==> ValidateNickname(s) == Rejected(Required)
    ensures |s| == 1 ==> ValidateNickname(s) == Rejected(TooShort)
    ensures |s| > MaxLength ==> ValidateNickname(s) == Rejected(TooLong)
    ensures MinLength <= |s| <= MaxLength && !MatchesCharset(s) ==> ValidateNickname(s) == Rejected(Charset)
    ensures MinLength <= |s| <= MaxLength && MatchesCharset(s) && IsForbiddenName(s) ==>
      ValidateNickname(s) == Rejected(ForbiddenName)
  {
    if MatchesCharset(s) {
      AllowedIsNotWhitespace(s[0]);
      AllowedIsNotWhitespace(s[|s| - 1]);
      assert Trim(s) == s;
    }
  }

  /**
   * The two whitespace issues are never the one reported: whitespace is outside the
   * charset, so the charset issue (or an earlier one) always comes first.
   */
  lemma WhitespaceMessagesNeverFirst(s: string)
    ensures ValidateNickname(s) != Rejected(Blank)
    ensures ValidateNickname(s) != Rejected(Padded)
  {
    if MatchesCharset(s) {
      AllowedIsNotWhitespace(s[0]);
      AllowedIsNotWhitespace(s[|s| - 1]);
      assert Trim(s) == s;
    }
  }

  // ---------------------------------------------------------------------------
  // checkLength
  // ---------------------------------------------------------------------------

  datatype LengthReport = LengthReport(current: nat, max: nat, isNearLimit: bool, isOverLimit: bool, remaining: int)

  /** The counter under the input: warns from 8 characters, errs above 10. */
  function CheckLength(s: string): (r: LengthReport)
    ensures r.current == |s| && r.max == MaxLength
    ensures r.current + r.remaining == r.max
    ensures r.isOverLimit <==> r.remaining < 0
    ensures r.isOverLimit ==> r.isNearLimit
    ensures r.isNearLimit <==> r.remaining <= 2
  {
    LengthReport(|s|, 10, |s| >= 8, |s| > 10, 10 - |s|)
  }

  /** The counter's error agrees with the schema: over the limit exactly when the schema reports it too long. */
  lemma CheckLengthAgreesWithSchema(s: string)
    requires |s| >= MinLength
    ensures CheckLength(s).isOverLimit <==> ValidateNickname(s) == Rejected(TooLong)
  {
    if MatchesCharset(s) {
      AllowedIsNotWhitespace(s[0]);
      AllowedIsNotWhitespace(s[|s| - 1]);
      assert Trim(s) == s;
    }
  }

  // ---------------------------------------------------------------------------
  // checkSafety
  // ---------------------------------------------------------------------------

  /** The safety report's entries. */
  datatype SafetyIssue = NameBanned | PatternBanned | OnlyDigits | OnlyDashes {
    function Message(): string {
      match this
      case NameBanned => SafetyForbidden
      case PatternBanned => SafetyPattern
      case OnlyDigits => SafetyDigits
      case OnlyDashes => SafetyDashes
    }
  }

  /** One entry per forbidden pattern in `ps` that matches, in order. */
  function PatternHits(ps: seq<Pattern>, s: string): (r: seq<SafetyIssue>)
    ensures |r| == |MatchingIndices(ps, s)|
    ensures forall i | 0 <= i < |r| :: r[i] == PatternBanned
    ensures r == [] <==> forall i | 0 <= i < |ps| :: !Matches(ps[i], s)
  {
    if ps == [] then []
    else
      var n := |ps| - 1;
      var front := ps[..n];
      assert forall i | 0 <= i < n :: front[i] == ps[i];
      assert MatchingIndices(ps, s) ==
        MatchingIndices(front, s) + (if Matches(ps[n], s) then {n} else {});
      PatternHits(front, s) + (if Matches(ps[n], s) then [PatternBanned] else [])
  }

  /** The positions of the patterns in `ps` that match `s`. */
  function MatchingIndices(ps: seq<Pattern>, s: string): set<nat> {
    set i: nat | i < |ps| && Matches(ps[i], s)
  }

  /** The issues `checkSafety` collects, in order. */
  function SafetyIssues(s: string): seq<SafetyIssue> {
    (if IsForbiddenName(s) then [NameBanned] else []) +
    PatternHits(ForbiddenPatterns, s) +
    (if Matches(DigitsOnly, s) then [OnlyDigits] else []) +
    (if Matches(DashesOnly, s) then [OnlyDashes] else [])
  }

  /** The `forEach` over the patterns: one entry per pattern that matches, in order. */
  method CollectPatternHits(ps: seq<Pattern>, s: string) returns (hits: seq<SafetyIssue>)
    ensures hits == PatternHits(ps, s)
  {
    hits := [];
    for i := 0 to |ps|
      invariant hits == PatternHits(ps[..i], s)
    {
      assert ps[..i + 1][..i] == ps[..i];
      if Matches(ps[i], s) {
        hits := hits + [PatternBanned];
      }
    }
    assert ps[..|ps|] == ps;
  }

  /** `checkSafety`: the forbidden-name entry, the pattern entries, then the two dedicated checks. */
  method CheckSafety(s: string) returns (isSafe: bool, issues: seq<SafetyIssue>)
    ensures issues == SafetyIssues(s)
    ensures isSafe <==> issues == []
  {
    issues := [];
    if IsForbiddenName(s) {
      issues := issues + [NameBanned];
    }
    var hits := CollectPatternHits(ForbiddenPatterns, s);
    issues := issues + hits;
    if Matches(DigitsOnly, s) {
      issues := issues + [OnlyDigits];
    }
    if Matches(DashesOnly, s) {
      issues := issues + [OnlyDashes];
    }
    isSafe := |issues| == 0;
  }

  /** The safety report is clean exactly when the schema's last two refinements pass. */
  lemma SafetyAgreesWithSchema(s: string)
    ensures SafetyIssues(s) == [] <==> !IsForbiddenName(s) && !AnyForbiddenPattern(s)
  {
    var hits := PatternHits(ForbiddenPatterns, s);
    if Matches(DigitsOnly, s) {
      assert ForbiddenPatterns[3] == DigitsOnly;
    }
    if Matches(DashesOnly, s) {
      assert ForbiddenPatterns[4] == DashesOnly;
    }
  }

  /** A nickname of digits only is reported twice: once by the pattern walk and once by the dedicated check. */
  lemma DigitsOnlyReportedTwice(s: string)
    requires |s| >= 1 && AllDigits(s) && !IsForbiddenName(s)
    ensures SafetyIssues(s) == [PatternBanned, OnlyDigits]
  {
    var ps := ForbiddenPatterns;
    assert !Matches(ps[0], s) by {
      if |s| >= 5 { assert AsciiLower(s)[0] == LowerChar(s[0]); }
    }
    assert !Matches(ps[1], s) by { DigitsExcludeWord(s, "운영자"); }
    assert !Matches(ps[2], s) by { DigitsExcludeWord(s, "관리자"); }
    assert !Matches(ps[4], s) by { assert !IsDash(s[0]); }
    assert Matches(ps[3], s);
    assert PatternHits(ps[..1], s) == [] by { assert ps[..1][..0] == []; }
    assert PatternHits(ps[..2], s) == [] by { assert ps[..2][..1] == ps[..1]; }
    assert PatternHits(ps[..3], s) == [] by { assert ps[..3][..2] == ps[..2]; }
    assert PatternHits(ps[..4], s) == [PatternBanned] by { assert ps[..4][..3] == ps[..3]; }
    assert PatternHits(ps, s) == [PatternBanned] by { assert ps[..4] == ps[..|ps| - 1]; }
  }

  /**
   * A nickname of `_` and `-` only is reported twice: once by the pattern walk and once by
   * the dedicated check. No forbidden name is made of those characters.
   */
  lemma DashesOnlyReportedTwice(s: string)
    requires |s| >= 1 && forall i | 0 <= i < |s| :: IsDash(s[i])
    ensures SafetyIssues(s) == [PatternBanned, OnlyDashes]
  {
    var ps := ForbiddenPatterns;
    assert AsciiLower(s)[0] == LowerChar(s[0]);
    assert !IsForbiddenName(s);
    assert !Matches(ps[0], s);
    assert !Matches(ps[1], s) by { DashesExcludeWord(s, "운영자"); }
    assert !Matches(ps[2], s) by { DashesExcludeWord(s, "관리자"); }
    assert !Matches(ps[3], s) by { assert !IsDigit(s[0]); }
    assert Matches(ps[4], s);
    assert PatternHits(ps[..1], s) == [] by { assert ps[..1][..0] == []; }
    assert PatternHits(ps[..2], s) == [] by { assert ps[..2][..1] == ps[..1]; }
    assert PatternHits(ps[..3], s) == [] by { assert ps[..3][..2] == ps[..2]; }
    assert PatternHits(ps[..4], s) == [] by { assert ps[..4][..3] == ps[..3]; }
    assert PatternHits(ps, s) == [PatternBanned] by { assert ps[..4] == ps[..|ps| - 1]; }
  }

  /** A word that starts with neither `_` nor `-` does not occur in a string of those characters. */
  lemma DashesExcludeWord(s: string, w: string)
    requires (forall i | 0 <= i < |s| :: IsDash(s[i])) && |w| >= 1 && !IsDash(w[0])
    ensures !Includes(s, w)
  {
    forall k: nat | k + |w| <= |s| ensures !OccursAt(s, w, k) {
      assert s[k..k + |w|][0] == s[k];
    }
  }

  /** A word that starts with a non-digit does not occur in a string of digits. */
  lemma DigitsExcludeWord(s: string, w: string)
    requires AllDigits(s) && |w| >= 1 && !IsDigit(w[0])
    ensures !Includes(s, w)
  {
    forall k: nat | k + |w| <= |s| ensures !OccursAt(s, w, k) {
      assert s[k..k + |w|][0] == s[k];
    }
  }

  // ---------------------------------------------------------------------------
  // formatNickname
  // ---------------------------------------------------------------------------

  /** `replace(/\s+/g, "")`. */
  function RemoveWhitespace(s: string): (r: string)
    ensures |r| <= |s|
    ensures forall i | 0 <= i < |r| :: !IsJsWhitespace(r[i])
    ensures (forall i | 0 <= i < |s| :: !IsJsWhitespace(s[i])) ==> r == s
    ensures |s| == 1 ==> r == (if IsJsWhitespace(s[0]) then [] else s)
  {
    if s == [] then []
    else (if IsJsWhitespace(s[0]) then [] else [s[0]]) + RemoveWhitespace(s[1..])
  }

  /**
   * The whitespace filter works character by character: with the one-character case in
   * its contract, this pins it down as keeping exactly the other characters, in order.
   */
  lemma {:induction false} RemoveWhitespaceAppend(a: string, b: string)
    ensures RemoveWhitespace(a + b) == RemoveWhitespace(a) + RemoveWhitespace(b)
  {
    if a == [] {
      assert a + b == b;
    } else {
      assert (a + b)[1..] == a[1..] + b;
      RemoveWhitespaceAppend(a[1..], b);
    }
  }

  /** `replace(/[^가-힣a-zA-Z0-9_-]/g, "")`. */
  function KeepAllowed(s: string): (r: string)
    ensures |r| <= |s|
    ensures forall i | 0 <= i < |r| :: IsAllowed(r[i])
    ensures (forall i | 0 <= i < |s| :: IsAllowed(s[i])) ==> r == s
    ensures |s| == 1 ==> r == (if IsAllowed(s[0]) then s else [])
  {
    if s == [] then []
    else (if IsAllowed(s[0]) then [s[0]] else []) + KeepAllowed(s[1..])
  }

  /**
   * The charset filter works character by character: with the one-character case in
   * its contract, this pins it down as keeping exactly the allowed characters, in order.
   */
  lemma {:induction false} KeepAllowedAppend(a: string, b: string)
    ensures KeepAllowed(a + b) == KeepAllowed(a) + KeepAllowed(b)
  {
    if a == [] {
      assert a + b == b;
    } else {
      assert (a + b)[1..] == a[1..] + b;
      KeepAllowedAppend(a[1..], b);
    }
  }

  /** `slice(0, 10)`. */
  function Slice10(s: string): (r: string)
    ensures |r| == if |s| <= MaxLength then |s| else MaxLength
    ensures r == s[..|r|]
  {
    if |s| <= MaxLength then s else s[..MaxLength]
  }

  /** `formatNickname`: trim, drop whitespace, drop characters outside the class, keep the first 10. */
  function FormatNickname(s: string): (r: string)
    ensures |r| <= MaxLength
    ensures forall i | 0 <= i < |r| :: IsAllowed(r[i])
  {
    Slice10(KeepAllowed(RemoveWhitespace(Trim(s))))
  }

  /** Formatting a formatted nickname changes nothing. */
  lemma FormatIdempotent(s: string)
    ensures FormatNickname(FormatNickname(s)) == FormatNickname(s)
  {
    var t := FormatNickname(s);
    if t != [] {
      AllowedIsNotWhitespace(t[0]);
      AllowedIsNotWhitespace(t[|t| - 1]);
      assert Trim(t) == t;
    }
    forall i | 0 <= i < |t| ensures !IsJsWhitespace(t[i]) {
      AllowedIsNotWhitespace(t[i]);
    }
  }

  /** A string of allowed characters passes the whitespace and charset filters unchanged. */
  lemma FiltersKeepAllowed(s: string)
    requires forall i | 0 <= i < |s| :: IsAllowed(s[i])
    ensures KeepAllowed(RemoveWhitespace(s)) == s
  {
    forall i | 0 <= i < |s| ensures !IsJsWhitespace(s[i]) {
      AllowedIsNotWhitespace(s[i]);
    }
    assert RemoveWhitespace(s) == s;
  }

  /** A nickname the schema accepts is left as it is by the formatter. */
  lemma FormatKeepsValid(s: string)
    requires ValidNickname(s)
    ensures FormatNickname(s) == s
  {
    AllowedIsNotWhitespace(s[0]);
    AllowedIsNotWhitespace(s[|s| - 1]);
    assert Trim(s) == s;
    FiltersKeepAllowed(s);
  }

  /**
   * What the formatter returns fails the schema only by its length (empty or a single
   * character) or by being a forbidden name or pattern; the charset, length limit and
   * whitespace rules always hold.
   */
  lemma FormattedMeetsCharset(s: string)
    ensures var r := FormatNickname(s);
      r == [] || MatchesCharset(r)
    ensures var r := FormatNickname(s);
      |r| >= MinLength && !IsForbiddenName(r) && !AnyForbiddenPattern(r) ==> ValidateNickname(r).Accepted?
  {
    var r := FormatNickname(s);
    ValidateAcceptsExactlyValid(r);
  }
}
