/**
 * The registration page register.php: the POST handler's validation chain, the uniqueness checks
 * on the users table, the insert and the automatic login, and the page script's password-strength
 * meter. `$_SESSION` is a map from keys to decoded values.
 */
module Registration {
  import opened Wrappers
  import opened Text
  import opened Json
  import Session

  /** A row of the users table. */
  datatype UserRow = UserRow(id: int, username: string, email: string, passwordHash: string, createdAt: int)

  /** The posted fields; None is a field that was not sent. */
  datatype RegisterForm = RegisterForm(
    username: Option<string>,
    email: Option<string>,
    password: Option<string>,
    confirm: Option<string>)

  /** What the browser gets: a redirect, or the form again with an error message ("" for none). */
  datatype Page = Redirect(location: string) | Form(error: string)

  const MissingFields := "请填写所有必填字段"
  const UsernameLength := "用户名长度必须在3-20个字符之间"
  const InvalidEmail := "请输入有效的邮箱地址"
  const PasswordShort := "密码长度至少6位"
  const PasswordMismatch := "两次输入的密码不一致"
  const UsernameTaken := "该用户名已被使用"
  const EmailTaken := "该邮箱已被注册"
  const RegisterFailed := "注册失败，请稍后重试"
  const Dashboard := "/dashboard.php"
  const Welcome := "/dashboard.php?welcome=1"

  // ---------------------------------------------------------------- the validation chain

  /** The username byte length register.php accepts. */
  predicate UsernameLengthOk(username: string) {
    3 <= Utf8Length(username) <= 20
  }

  /** `empty()` is false for all four fields. */
  predicate Filled(username: string, email: string, password: string, confirm: string) {
    !Falsy(username) && !Falsy(email) && !Falsy(password) && !Falsy(confirm)
  }

  /**
   * The if/elseif chain on the trimmed username and email and the raw passwords: the message of
   * the first check that fails, None when all pass. `isEmail` stands for
   * filter_var(..., FILTER_VALIDATE_EMAIL).
   */
  function Validate(username: string, email: string, password: string, confirm: string,
                    isEmail: string -> bool): (r: Option<string>)
    ensures r == Some(MissingFields) <==> !Filled(username, email, password, confirm)
    ensures r == Some(UsernameLength)
      <==> (Filled(username, email, password, confirm) && !UsernameLengthOk(username))
    ensures r == Some(InvalidEmail)
      <==> (Filled(username, email, password, confirm) && UsernameLengthOk(username) && !isEmail(email))
    ensures r == Some(PasswordShort)
      <==> (Filled(username, email, password, confirm) && UsernameLengthOk(username) && isEmail(email)
            && Utf8Length(password) < 6)
    ensures r == Some(PasswordMismatch)
      <==> (Filled(username, email, password, confirm) && UsernameLengthOk(username) && isEmail(email)
            && Utf8Length(password) >= 6 && password != confirm)
    ensures r.None?
      <==> (Filled(username, email, password, confirm) && UsernameLengthOk(username) && isEmail(email)
            && Utf8Length(password) >= 6 && password == confirm)
  {
    if !Filled(username, email, password, confirm) then Some(MissingFields)
    else if Utf8Length(username) < 3 || Utf8Length(username) > 20 then Some(UsernameLength)
    else if !isEmail(email) then Some(InvalidEmail)
    else if Utf8Length(password) < 6 then Some(PasswordShort)
    else if password != confirm then Some(PasswordMismatch)
    else None
  }

  /** An accepted registration has a username of 3 to 20 bytes and a password of at least 6 bytes. */
  lemma AcceptedBounds(username: string, email: string, password: string, confirm: string,
                       isEmail: string -> bool)
    requires Validate(username, email, password, confirm, isEmail).None?
    ensures 1 <= |username| <= 20 && 2 <= |password|
  {
  }

  // ---------------------------------------------------------------- the users table

  predicate NameTaken(users: seq<UserRow>, username: string) {
    exists k :: 0 <= k < |users| && users[k].username == username
  }

  predicate EmailInUse(users: seq<UserRow>, email: string) {
    exists k :: 0 <= k < |users| && users[k].email == email
  }

  /** No two rows share a username or an email. */
  predicate Unique(users: seq<UserRow>) {
    forall i, j :: 0 <= i < j < |users| ==> users[i].username != users[j].username && users[i].email != users[j].email
  }

  /** `isset($_SESSION['user_id'])`. */
  predicate LoggedIn(session: map<string, Json>) {
    "user_id" in session && session["user_id"] != JNull
  }

  /** The three session fields the automatic login writes; lastInsertId() is the id as text. */
  function LogIn(session: map<string, Json>, id: int, username: string, email: string): map<string, Json> {
    session["user_id" := JStr(IntToString(id))]["username" := JStr(username)]["email" := JStr(email)]
  }

  /**
   * One request to register.php: the page, the new users table and the new session. `hash` is
   * password_hash()'s output, `newId` the auto-increment id and `inserted` whether the INSERT ran.
   */
  function Register(users: seq<UserRow>, session: map<string, Json>, isPost: bool, form: RegisterForm,
                    isEmail: string -> bool, hash: string, newId: int, inserted: bool, now: int)
    : (r: (Page, seq<UserRow>, map<string, Json>))
    ensures r.0.Form? ==> r.1 == users && r.2 == session
    ensures LoggedIn(session) ==> r == (Redirect(Dashboard), users, session)
  {
    if LoggedIn(session) then (Redirect(Dashboard), users, session)
    else if !isPost then (Form(""), users, session)
    else
      var username := Trim(form.username.GetOr(""));
      var email := Trim(form.email.GetOr(""));
      var password := form.password.GetOr("");
      var confirm := form.confirm.GetOr("");
      var invalid := Validate(username, email, password, confirm, isEmail);
      if invalid.Some? then (Form(invalid.value), users, session)
      else if NameTaken(users, username) then (Form(UsernameTaken), users, session)
      else if EmailInUse(users, email) then (Form(EmailTaken), users, session)
      else if !inserted then (Form(RegisterFailed), users, session)
      else (Redirect(Welcome), users + [UserRow(newId, username, email, hash, now)],
            LogIn(session, newId, username, email))
  }

  /**
   * A registration succeeds exactly when the fields validate, the name and the email are both
   * new and the insert runs; it then appends one row and logs the new user in.
   */
  lemma RegisterSucceeds(users: seq<UserRow>, session: map<string, Json>, form: RegisterForm,
                         isEmail: string -> bool, hash: string, newId: int, inserted: bool, now: int)
    requires !LoggedIn(session)
    ensures var username := Trim(form.username.GetOr(""));
      var email := Trim(form.email.GetOr(""));
      var r := Register(users, session, true, form, isEmail, hash, newId, inserted, now);
      (r.0 == Redirect(Welcome) <==>
         Validate(username, email, form.password.GetOr(""), form.confirm.GetOr(""), isEmail).None?
         && !NameTaken(users, username) && !EmailInUse(users, email) && inserted)
      && (r.0 == Redirect(Welcome) ==>
            r.1 == users + [UserRow(newId, username, email, hash, now)]
            && r.2 == LogIn(session, newId, username, email))
  {
  }

  /** A taken username is reported before the email is looked at, even when both are taken. */
  lemma NameCheckedFirst(users: seq<UserRow>, session: map<string, Json>, form: RegisterForm,
                         isEmail: string -> bool, hash: string, newId: int, inserted: bool, now: int)
    requires !LoggedIn(session)
    requires Validate(Trim(form.username.GetOr("")), Trim(form.email.GetOr("")),
                      form.password.GetOr(""), form.confirm.GetOr(""), isEmail).None?
    requires NameTaken(users, Trim(form.username.GetOr("")))
    ensures Register(users, session, true, form, isEmail, hash, newId, inserted, now)
      == (Form(UsernameTaken), users, session)
  {
  }

  /** Appending a row whose username and email are both new keeps the table unique. */
  lemma AppendKeepsUnique(users: seq<UserRow>, row: UserRow)
    requires Unique(users) && !NameTaken(users, row.username) && !EmailInUse(users, row.email)
    ensures Unique(users + [row])
  {
    var t := users + [row];
    forall i, j | 0 <= i < j < |t|
      ensures t[i].username != t[j].username && t[i].email != t[j].email
    {
      if j == |users| {
        assert t[j] == row && t[i] == users[i];
      }
    }
  }

  /** Registration keeps usernames and emails unique. */
  lemma RegisterKeepsUnique(users: seq<UserRow>, session: map<string, Json>, isPost: bool, form: RegisterForm,
                            isEmail: string -> bool, hash: string, newId: int, inserted: bool, now: int)
    requires Unique(users)
    ensures Unique(Register(users, session, isPost, form, isEmail, hash, newId, inserted, now).1)
  {
    hide Validate, Trim, LogIn, NameTaken, EmailInUse, Unique;
    var r := Register(users, session, isPost, form, isEmail, hash, newId, inserted, now);
    var username := Trim(form.username.GetOr(""));
    var email := Trim(form.email.GetOr(""));
    var row := UserRow(newId, username, email, hash, now);
    if r.1 != users {
      assert r.1 == users + [row] && !NameTaken(users, username) && !EmailInUse(users, email);
      AppendKeepsUnique(users, row);
    }
  }

  /** The automatic login with a positive id makes that id the session's user. */
  lemma LogInSetsUser(session: map<string, Json>, id: int, username: string, email: string)
    requires id > 0
    ensures var s := LogIn(session, id, username, email);
      LoggedIn(s) && Session.CurrentUserId(s["user_id"]) == Some(id)
  {
    var s := LogIn(session, id, username, email);
    assert s["user_id"] == JStr(IntToString(id));
    Session.CurrentUserIdOfId(id);
  }

  /** The page's tables. */
  class RegistrationPage {
    var users: seq<UserRow>
    var session: map<string, Json>

    constructor(users: seq<UserRow>, session: map<string, Json>)
      ensures this.users == users && this.session == session
    {
      this.users := users;
      this.session := session;
    }

    method HandleRequest(isPost: bool, form: RegisterForm, isEmail: string -> bool, hash: string,
                         newId: int, inserted: bool, now: int) returns (page: Page)
      modifies this
      ensures (page, users, session)
        == Register(old(users), old(session), isPost, form, isEmail, hash, newId, inserted, now)
    {
      if LoggedIn(session) {
        return Redirect(Dashboard);
      }
      if !isPost {
        return Form("");
      }
      var username := Trim(form.username.GetOr(""));
      var email := Trim(form.email.GetOr(""));
      var password := form.password.GetOr("");
      var confirm := form.confirm.GetOr("");
      var invalid := Validate(username, email, password, confirm, isEmail);
      if invalid.Some? {
        return Form(invalid.value);
      }
      if NameTaken(users, username) {
        return Form(UsernameTaken);
      }
      if EmailInUse(users, email) {
        return Form(EmailTaken);
      }
      if !inserted {
        return Form(RegisterFailed);
      }
      users := users + [UserRow(newId, username, email, hash, now)];
      session := LogIn(session, newId, username, email);
      page := Redirect(Welcome);
    }
  }

  // ---------------------------------------------------------------- checkPasswordStrength

  /** `/[lo-hi]/.test(p)`. */
  predicate HasInRange(p: string, lo: char, hi: char) {
    exists i :: 0 <= i < |p| && lo <= p[i] <= hi
  }

  predicate IsAsciiAlnum(c: char) {
    ('a' <= c <= 'z') || ('A' <= c <= 'Z') || ('0' <= c <= '9')
  }

  /** `/[^A-Za-z0-9]/.test(p)`. */
  predicate HasOther(p: string) {
    exists i :: 0 <= i < |p| && !IsAsciiAlnum(p[i])
  }

  /** The six tests that each earn one point, in the script's order. */
  function Criteria(p: string): seq<bool> {
    [Utf16Length(p) >= 6, Utf16Length(p) >= 8, HasInRange(p, 'a', 'z'), HasInRange(p, 'A', 'Z'),
     HasInRange(p, '0', '9'), HasOther(p)]
  }

  function CountTrue(bs: seq<bool>): (n: nat)
    ensures n <= |bs|
    ensures n == |bs| <==> forall k :: 0 <= k < |bs| ==> bs[k]
  {
    if bs == [] then 0 else Point(bs[0]) + CountTrue(bs[1..])
  }

  function Point(b: bool): nat {
    if b then 1 else 0
  }

  /** The score of six tests is the sum of their points. */
  lemma CountSix(bs: seq<bool>)
    requires |bs| == 6
    ensures CountTrue(bs) == Point(bs[0]) + Point(bs[1]) + Point(bs[2]) + Point(bs[3]) + Point(bs[4]) + Point(bs[5])
  {
    assert CountTrue(bs[5..]) == Point(bs[5]) by { assert bs[5..][1..] == []; }
    assert CountTrue(bs[4..]) == Point(bs[4]) + CountTrue(bs[5..]) by { assert bs[4..][1..] == bs[5..]; }
    assert CountTrue(bs[3..]) == Point(bs[3]) + CountTrue(bs[4..]) by { assert bs[3..][1..] == bs[4..]; }
    assert CountTrue(bs[2..]) == Point(bs[2]) + CountTrue(bs[3..]) by { assert bs[2..][1..] == bs[3..]; }
    assert CountTrue(bs[1..]) == Point(bs[1]) + CountTrue(bs[2..]) by { assert bs[1..][1..] == bs[2..]; }
  }

  const Prompt := "请输入密码"

  /** The switch on the score: label and colour. */
  function StrengthLabel(strength: int): (r: (string, string)) {
    match strength
    case 0 => ("很弱", "#ef4444")
    case 1 => ("很弱", "#ef4444")
    case 2 => ("一般", "#f97316")
    case 3 => ("一般", "#f97316")
    case 4 => ("较强", "#eab308")
    case 5 => ("较强", "#eab308")
    case 6 => ("很强", "#22c55e")
    case _ => (Prompt, "#6b7280")
  }

  /** checkPasswordStrength: one point per passed test, then the label of the score. */
  method CheckPasswordStrength(password: string) returns (strength: int, text: string, color: string)
    ensures strength == CountTrue(Criteria(password))
    ensures 0 <= strength <= 6
    ensures (text, color) == StrengthLabel(strength)
  {
    hide HasInRange, HasOther, Utf16Length, StrengthLabel;
    strength := 0;
    var n := Utf16Length(password);
    if n >= 6 { strength := strength + 1; }
    if n >= 8 { strength := strength + 1; }
    if HasInRange(password, 'a', 'z') { strength := strength + 1; }
    if HasInRange(password, 'A', 'Z') { strength := strength + 1; }
    if HasInRange(password, '0', '9') { strength := strength + 1; }
    if HasOther(password) { strength := strength + 1; }
    CountSix(Criteria(password));
    text, color := StrengthLabel(strength).0, StrengthLabel(strength).1;
  }

  /** Every score labels as one of the four strengths: the default branch cannot be taken. */
  lemma DefaultUnreachable(p: string)
    ensures StrengthLabel(CountTrue(Criteria(p))).0 in {"很弱", "一般", "较强", "很强"}
  {
  }

  /** "很强" exactly when the password has 8 or more code units and all four character classes. */
  lemma VeryStrongIff(p: string)
    ensures StrengthLabel(CountTrue(Criteria(p))).0 == "很强"
      <==> (Utf16Length(p) >= 8 && HasInRange(p, 'a', 'z') && HasInRange(p, 'A', 'Z')
            && HasInRange(p, '0', '9') && HasOther(p))
  {
    CountSix(Criteria(p));
  }

  /** A password of fewer than 6 code units scores at most 4: two of the points are for length. */
  lemma ShortIsAtMostStrong(p: string)
    requires Utf16Length(p) < 6
    ensures CountTrue(Criteria(p)) <= 4
  {
    var bs := Criteria(p);
    assert bs[..2] == [false, false];
    CountSplit(bs, 2);
  }

  lemma {:induction false} CountSplit(bs: seq<bool>, i: nat)
    requires i <= |bs|
    ensures CountTrue(bs) == CountTrue(bs[..i]) + CountTrue(bs[i..])
  {
    if i > 0 {
      CountSplit(bs[1..], i - 1);
      assert bs[1..][..i - 1] == bs[1..i];
      assert bs[1..][i - 1..] == bs[i..];
      assert bs[..i][1..] == bs[1..i];
    }
  }
}
