/**
 * The pure checks of the control bot (bot.py): task-description
 * sanitisation, the single-user authorisation test and the generic error text.
 */
module BotInput {
  import opened Wrappers
  import opened Text
  import opened Decimal

  /** MAX_TASK_DESCRIPTION_LENGTH. */
  const MaxTaskDescriptionLength: nat := 500

  /** The three reasons `sanitize_task_description` raises `ValueError`, in the order it tests them. */
  datatype SanitizeError = TooLong | ForbiddenCharacters | PathSeparators {

    /** The text of the `ValueError`, shown verbatim to the requester. */
    function Message(): string {
      match this
      case TooLong => "Description too long (max " + IntText(MaxTaskDescriptionLength) + " chars)"
      case ForbiddenCharacters => "Description contains forbidden characters"
      case PathSeparators => "Path separators not allowed in description"
    }
  }

  /** One character of the class `[a-zA-Z0-9\s\-_.,!?]` of ALLOWED_TASK_CHARS. */
  predicate IsAllowedChar(c: char) {
    || ('a' <= c <= 'z')
    || ('A' <= c <= 'Z')
    || ('0' <= c <= '9')
    || IsSpace(c)
    || c == '-' || c == '_' || c == '.' || c == ',' || c == '!' || c == '?'
  }

  /**
   * `ALLOWED_TASK_CHARS.match(s)` for `^[...]+$`: one or more allowed
   * characters and nothing else. (`$` may also match before a final newline,
   * but a newline is itself allowed, so that changes nothing.)
   */
  predicate MatchesAllowedChars(s: string) {
    |s| > 0 && forall i :: 0 <= i < |s| ==> IsAllowedChar(s[i])
  }

  /** The third test: `'/' in s or '\\' in s or '..' in s`. */
  predicate HasPathSeparator(s: string) {
    '/' in s || '\\' in s || Contains(s, "..")
  }

  /** `sanitize_task_description`: strip, then reject by length, character set and separators, in that order. */
  function Sanitize(description: string): (r: Result<string, SanitizeError>)
  {
    var d := Strip(description);
    if |d| > MaxTaskDescriptionLength then Err(TooLong)
    else if !MatchesAllowedChars(d) then Err(ForbiddenCharacters)
    else if HasPathSeparator(d) then Err(PathSeparators)
    else Ok(d)
  }

  /**
   * What an acceptable description is, stated without the redundant
   * separator characters: non-empty, at most 500 characters, only allowed
   * characters, and no "..".
   */
  predicate IsSafeDescription(d: string) {
    0 < |d| <= MaxTaskDescriptionLength
    && (forall i :: 0 <= i < |d| ==> IsAllowedChar(d[i]))
    && !Contains(d, "..")
  }

  /** The length text names the bound of 500 characters. */
  lemma TooLongMessageText()
    ensures TooLong.Message() == "Description too long (max 500 chars)"
  {
    assert IntText(500) == "500";
  }

  /** The requester is told which check failed: the three texts differ. */
  lemma SanitizeMessagesIdentifyCheck(e1: SanitizeError, e2: SanitizeError)
    ensures e1 != e2 ==> e1.Message() != e2.Message()
  {
    // The three texts have three different lengths.
    TooLongMessageText();
    assert |ForbiddenCharacters.Message()| == 41;
    assert |PathSeparators.Message()| == 42;
  }

  /** `sanitize_task_description` accepts exactly the inputs whose stripped form is a safe description. */
  lemma SanitizeAcceptsExactlySafe(description: string)
    ensures Sanitize(description).Ok? <==> IsSafeDescription(Strip(description))
  {
    var d := Strip(description);
    if MatchesAllowedChars(d) {
      assert !IsAllowedChar('/') && !IsAllowedChar('\\');
      assert '/' !in d && '\\' !in d;
    }
  }

  /**
   * An accepted description is the stripped input, within the length bound,
   * and contains no '/', '\' or "..".
   */
  lemma SanitizedIsSafe(description: string)
    requires Sanitize(description).Ok?
    ensures Sanitize(description).value == Strip(description)
    ensures 0 < |Sanitize(description).value| <= MaxTaskDescriptionLength
    ensures '/' !in Sanitize(description).value && '\\' !in Sanitize(description).value
    ensures !Contains(Sanitize(description).value, "..")
  {
  }

  /** The length test comes first: any stripped text longer than 500 characters gets the length error, whatever it contains. */
  lemma SanitizeLengthFirst(description: string)
    ensures Sanitize(description) == Err(TooLong) <==> |Strip(description)| > MaxTaskDescriptionLength
  {
  }

  /** The character test comes second: an empty or out-of-class text within the bound gets the character error. */
  lemma SanitizeCharactersSecond(description: string)
    ensures Sanitize(description) == Err(ForbiddenCharacters)
        <==> |Strip(description)| <= MaxTaskDescriptionLength && !MatchesAllowedChars(Strip(description))
  {
  }

  /**
   * The separator test comes last, and by then '/' and '\' have already been
   * excluded by the character class: only ".." can trigger it.
   */
  lemma PathSeparatorErrorMeansDotDot(description: string)
    ensures Sanitize(description) == Err(PathSeparators)
        <==> (|Strip(description)| <= MaxTaskDescriptionLength
              && MatchesAllowedChars(Strip(description))
              && Contains(Strip(description), ".."))
  {
    var d := Strip(description);
    if MatchesAllowedChars(d) {
      assert !IsAllowedChar('/') && !IsAllowedChar('\\');
      assert '/' !in d && '\\' !in d;
    }
  }

  /** An accepted description is a fixed point: sanitising it again returns it unchanged. */
  lemma SanitizeIdempotent(description: string, d: string)
    requires Sanitize(description) == Ok(d)
    ensures Sanitize(d) == Ok(d)
  {
    StripIdempotent(description);
  }

  /** A description of exactly 500 allowed characters, with no surrounding whitespace and no "..", is accepted unchanged. */
  lemma SanitizeAcceptsMaximumLength(d: string)
    requires |d| == MaxTaskDescriptionLength && Trimmed(d) && IsSafeDescription(d)
    ensures Sanitize(d) == Ok(d)
  {
    StripOfTrimmed(d);
    SanitizeAcceptsExactlySafe(d);
    SanitizedIsSafe(d);
  }

  /** A 600-character text that starts with '/' fails on length, not on its separator. */
  lemma SanitizeLongPathFailsOnLength()
    ensures Sanitize(seq(600, i => if i == 0 then '/' else 'a')) == Err(TooLong)
  {
    var s := seq(600, i => if i == 0 then '/' else 'a');
    StripOfTrimmed(s);
  }

  /** "../etc" fails at the character test, on its '/'. */
  lemma SanitizeRejectsSlash()
    ensures Sanitize("../etc") == Err(ForbiddenCharacters)
  {
    StripOfTrimmed("../etc");
    assert !IsAllowedChar("../etc"[2]);
  }

  /** "fix a..b" passes the character test and is rejected for its "..". */
  lemma SanitizeRejectsDotDot()
    ensures Sanitize("fix a..b") == Err(PathSeparators)
  {
    StripOfTrimmed("fix a..b");
    assert OccursAt("fix a..b", "..", 5);
  }

  /** A description that is only whitespace is empty after stripping and fails the `+` of the pattern. */
  lemma SanitizeRejectsBlank(description: string)
    requires AllSpace(description)
    ensures Sanitize(description) == Err(ForbiddenCharacters)
  {
    StripPadded(description, [], []);
    assert description + [] + [] == description;
  }

  /** Whitespace around a description never changes the verdict, and an accepted result never carries it. */
  lemma SanitizeIgnoresPadding(pre: string, t: string, post: string)
    requires AllSpace(pre) && AllSpace(post) && Trimmed(t)
    ensures Sanitize(pre + t + post) == Sanitize(t)
  {
    StripPadded(pre, t, post);
    StripOfTrimmed(t);
  }

  /** `is_authorized`: `str(user_id) == AUTHORIZED_USER_ID`; an unset identity authorises nobody. */
  predicate IsAuthorized(userId: int, authorizedUserId: Option<string>) {
    authorizedUserId == Some(IntText(userId))
  }

  /** Fail closed: with no configured identity no user is authorised. */
  lemma UnsetIdentityAuthorizesNobody(userId: int)
    ensures !IsAuthorized(userId, None)
  {
  }

  /** At most one user is authorised: the decimal text of a user id determines the id. */
  lemma AtMostOneAuthorizedUser(a: int, b: int, authorizedUserId: Option<string>)
    requires IsAuthorized(a, authorizedUserId) && IsAuthorized(b, authorizedUserId)
    ensures a == b
  {
    IntTextInjective(a, b);
  }

  /** An exception caught by a handler: its type name and its text. */
  datatype Failure = Failure(typeName: string, detail: string)

  /** `safe_error_message`: the requester sees one fixed sentence, never the exception's details. */
  function SafeErrorMessage(error: Failure): string {
    "An error occurred. Please try again or contact support."
  }

  /** The generic text does not depend on the exception. */
  lemma SafeErrorMessageIsUniform(e1: Failure, e2: Failure)
    ensures SafeErrorMessage(e1) == SafeErrorMessage(e2)
    ensures |SafeErrorMessage(e1)| > 0
  {
  }
}
