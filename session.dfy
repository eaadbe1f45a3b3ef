/**
 * The session helpers of db_connect.php: the one-time CSRF token kept in `$_SESSION`, and the
 * logged-in test on `$_SESSION['user_id']`. Session values are decoded values; JNull stands for
 * a key that is not set.
 */
module Session {
  import opened Wrappers
  import opened Text
  import opened Json

  // ---------------------------------------------------------------- the logged-in user

  /**
   * is_numeric() on text, for the integer form: optional leading white space, an optional sign,
   * at least one digit, then only trailing white space.
   */
  predicate IsIntegerText(s: string) {
    var t := DropCSpace(s);
    var body := if t != [] && (t[0] == '-' || t[0] == '+') then t[1..] else t;
    var ds := LeadingDigits(body);
    ds != [] && forall i :: |ds| <= i < |body| ==> IsCSpace(body[i])
  }

  /** is_logged_in: user_id is set, numeric and greater than 0. */
  predicate IsLoggedIn(userId: Json) {
    match userId
    case JInt(i) => i > 0
    case JStr(s) => IsIntegerText(s) && IntCast(s) > 0
    case _ => false
  }

  /** get_current_user_id: `(int)` of user_id for a logged-in session, null otherwise. */
  function CurrentUserId(userId: Json): (r: Option<int>)
    ensures r.Some? <==> IsLoggedIn(userId)
    ensures r.Some? ==> r.value > 0
    ensures userId.JInt? && r.Some? ==> r.value == userId.i
  {
    if !IsLoggedIn(userId) then None
    else match userId
      case JInt(i) => Some(i)
      case JStr(s) => Some(IntCast(s))
  }

  /** The decimal text of an integer is numeric text. */
  lemma IntToStringIsIntegerText(n: int)
    ensures IsIntegerText(IntToString(n))
  {
    var s := IntToString(n);
    var digits := if n < 0 then NatToString(-n) else NatToString(n);
    assert !IsCSpace(s[0]) by {
      assert s[0] == '-' || IsDigit(s[0]);
    }
    assert DropCSpace(s) == s;
    if n < 0 {
      assert s[1..] == digits;
    }
    LeadingDigitsAll(digits, []);
    assert digits + [] == digits;
  }

  /** A positive id stored as a number or as its decimal text reads back as the same id. */
  lemma CurrentUserIdOfId(n: int)
    requires n > 0
    ensures CurrentUserId(JInt(n)) == Some(n)
    ensures CurrentUserId(JStr(IntToString(n))) == Some(n)
  {
    IntToStringIsIntegerText(n);
    IntCastOfIntToString(n);
  }

  /** No id at all, and the ids 0 and "0", mean nobody is logged in. */
  lemma NobodyLoggedIn()
    ensures CurrentUserId(JNull).None? && CurrentUserId(JInt(0)).None? && CurrentUserId(JStr("0")).None?
  {
    IntCastOfIntToString(0);
    assert IntToString(0) == "0";
  }

  // ---------------------------------------------------------------- the one-time CSRF token

  /**
   * csrf_token: the stored token when it is non-empty; otherwise the generated one, stored. The
   * result is the token and the new value of `$_SESSION['csrf_token']`.
   */
  function IssueToken(stored: Option<string>, generated: string): (r: (string, Option<string>))
    ensures r.1 == Some(r.0)
    ensures stored.Some? && !Falsy(stored.value) ==> r.0 == stored.value
    ensures !(stored.Some? && !Falsy(stored.value)) ==> r.0 == generated
  {
    if stored.Some? && !Falsy(stored.value) then (stored.value, stored) else (generated, Some(generated))
  }

  /**
   * csrf_validate: false without a stored token or for an argument that is not a string; true
   * exactly when the argument equals the stored token, which is then removed.
   */
  function ValidateToken(stored: Option<string>, given: Json): (r: (bool, Option<string>))
    ensures r.0 <==> stored.Some? && given == JStr(stored.value)
    ensures r.0 ==> r.1.None?
    ensures !r.0 ==> r.1 == stored
  {
    if stored.None? || !given.JStr? then (false, stored)
    else if given.s == stored.value then (true, None)
    else (false, stored)
  }

  /** Asking again gives the same token, as long as the generated one is not empty. */
  lemma TokenStable(stored: Option<string>, generated: string, generated2: string)
    requires !Falsy(generated)
    ensures var first := IssueToken(stored, generated);
      IssueToken(first.1, generated2) == first
  {
  }

  /** The token handed out validates, once: the same token presented again is refused. */
  lemma TokenIsOneTime(stored: Option<string>, generated: string)
    ensures var issued := IssueToken(stored, generated);
      var first := ValidateToken(issued.1, JStr(issued.0));
      first.0 && !ValidateToken(first.1, JStr(issued.0)).0
  {
  }

  /** The session object holding `$_SESSION['csrf_token']`. */
  class CsrfSession {
    var stored: Option<string>

    constructor(stored: Option<string>)
      ensures this.stored == stored
    {
      this.stored := stored;
    }

    /** csrf_token; `generated` is the text bin2hex(random_bytes(32)) would give. */
    method CsrfToken(generated: string) returns (token: string)
      modifies this
      ensures (token, stored) == IssueToken(old(stored), generated)
    {
      if stored.None? || Falsy(stored.value) {
        stored := Some(generated);
      }
      token := stored.value;
    }

    method CsrfValidate(given: Json) returns (ok: bool)
      modifies this
      ensures (ok, stored) == ValidateToken(old(stored), given)
    {
      if stored.None? || !given.JStr? {
        return false;
      }
      ok := given.s == stored.value;
      if ok {
        stored := None;
      }
    }
  }
}
