/** The login and sign-up form schemas: each rule that fails contributes an
    issue (its field and message); issues come in field order, and the
    password-match refinement is checked after the field rules, even when
    one of those failed, because none of them is fatal. */
module AuthSchema {
  import opened Wrappers
  import opened AuthTypes

  datatype Field = Username | Email | Password | ConfirmPassword | InviteCodeField

  datatype Issue = Issue(path: Field, message: string)

  const MinUsernameLength: nat := 3
  const MinPasswordLength: nat := 8
  const InviteCodeLength: nat := 32

  const UsernameMessage: string := "Username must be at least 3 characters"
  const EmailMessage: string := "Enter a valid email address"
  const PasswordMessage: string := "Password must be at least 8 characters"
  const InviteCodeMessage: string := "Invite code must be 32 characters"
  const MismatchMessage: string := "Passwords do not match"

  /** The message each field's rule reports. */
  function MessageFor(path: Field): string {
    match path
    case Username => UsernameMessage
    case Email => EmailMessage
    case Password => PasswordMessage
    case ConfirmPassword => MismatchMessage
    case InviteCodeField => InviteCodeMessage
  }

  /** The order in which the rules run: the object's fields as declared,
      then the refinement, which reports on `confirmPassword`. */
  function FieldRank(path: Field): nat {
    match path
    case Username => 0
    case Email => 1
    case Password => 2
    case InviteCodeField => 3
    case ConfirmPassword => 4
  }

  /** The UTF-16 code units one character occupies: two for a character
      outside the Basic Multilingual Plane (a surrogate pair), one otherwise. */
  function Utf16Units(c: char): nat {
    if c as int > 0xFFFF then 2 else 1
  }

  /** A string's `length` in JavaScript, which is what the length rules
      compare: UTF-16 code units, not characters. */
  function Utf16Length(s: string): (n: nat)
    ensures |s| <= n <= 2 * |s|
  {
    if s == [] then 0 else Utf16Units(s[0]) + Utf16Length(s[1..])
  }

  lemma {:induction false} Utf16LengthAppend(a: string, b: string)
    ensures Utf16Length(a + b) == Utf16Length(a) + Utf16Length(b)
  {
    if a == [] {
      assert a + b == b;
    } else {
      assert (a + b)[1..] == a[1..] + b;
      Utf16LengthAppend(a[1..], b);
    }
  }

  /** Where every character is in the Basic Multilingual Plane the code-unit
      length is the character count. */
  lemma {:induction false} BmpLength(s: string)
    requires forall i :: 0 <= i < |s| ==> s[i] as int <= 0xFFFF
    ensures Utf16Length(s) == |s|
  {
    if s != [] {
      assert forall i :: 0 <= i < |s[1..]| ==> s[1..][i] == s[i + 1];
      BmpLength(s[1..]);
    }
  }

  /** One rule: no issue when it holds, its single issue otherwise. */
  function Rule(holds: bool, path: Field): (r: seq<Issue>)
    ensures holds <==> r == []
    ensures !holds ==> r == [Issue(path, MessageFor(path))]
  {
    if holds then [] else [Issue(path, MessageFor(path))]
  }

  /** Issues are listed in rule order, each with its own rule's message, and
      no field twice. */
  predicate InRuleOrder(issues: seq<Issue>) {
    && (forall i :: 0 <= i < |issues| ==> issues[i].message == MessageFor(issues[i].path))
    && (forall i, j :: 0 <= i < j < |issues| ==> FieldRank(issues[i].path) < FieldRank(issues[j].path))
  }

  /** The parsed sign-up form, `confirmPassword` included. */
  datatype SignupInput = SignupInput(
    username: string,
    email: string,
    password: string,
    confirmPassword: string,
    inviteCode: string)
  {
    /** What the registration request carries. */
    function Request(): RegisterRequest {
      RegisterRequest(username, email, password, inviteCode)
    }
  }

  function LoginIssues(username: string, password: string): seq<Issue> {
    Rule(Utf16Length(username) >= MinUsernameLength, Username)
    + Rule(Utf16Length(password) >= MinPasswordLength, Password)
  }

  /** `loginSchema.safeParse`: the data back when both rules hold, otherwise
      the issues, the username's first. */
  function ValidateLogin(username: string, password: string): (r: Result<LoginRequest, seq<Issue>>)
    ensures r.Success? <==> Utf16Length(username) >= 3 && Utf16Length(password) >= 8
    ensures r.Success? ==> r.value == LoginRequest(username, password)
    ensures r.Failure? ==> |r.error| > 0
    ensures r.Failure? && Utf16Length(username) < 3 ==> r.error[0] == Issue(Username, UsernameMessage)
    ensures r.Failure? && Utf16Length(username) >= 3 ==> r.error == [Issue(Password, PasswordMessage)]
    ensures r.Failure? ==> (|r.error| == 2 <==> Utf16Length(username) < 3 && Utf16Length(password) < 8)
  {
    var issues := LoginIssues(username, password);
    if issues == [] then Success(LoginRequest(username, password)) else Failure(issues)
  }

  /** A rule placed before rules of higher rank keeps the list in order. */
  lemma PrependRule(holds: bool, path: Field, rest: seq<Issue>)
    requires InRuleOrder(rest)
    requires forall i :: 0 <= i < |rest| ==> FieldRank(path) < FieldRank(rest[i].path)
    ensures InRuleOrder(Rule(holds, path) + rest)
    ensures forall i :: 0 <= i < |Rule(holds, path) + rest| ==> FieldRank(path) <= FieldRank((Rule(holds, path) + rest)[i].path)
  {
  }

  /** The e-mail format check is taken as given (`emailValid`). */
  function SignupIssues(username: string, emailValid: bool, password: string,
                        confirmPassword: string, inviteCode: string): (issues: seq<Issue>)
    ensures InRuleOrder(issues)
  {
    var e := Rule(password == confirmPassword, ConfirmPassword);
    var d := Rule(Utf16Length(inviteCode) == InviteCodeLength, InviteCodeField) + e;
    PrependRule(Utf16Length(inviteCode) == InviteCodeLength, InviteCodeField, e);
    var c := Rule(Utf16Length(password) >= MinPasswordLength, Password) + d;
    PrependRule(Utf16Length(password) >= MinPasswordLength, Password, d);
    var b := Rule(emailValid, Email) + c;
    PrependRule(emailValid, Email, c);
    PrependRule(Utf16Length(username) >= MinUsernameLength, Username, b);
    Rule(Utf16Length(username) >= MinUsernameLength, Username) + b
  }

  /** An issue is in a rule's list followed by others iff that rule failed
      with it or it is among the others. */
  lemma RuleMember(holds: bool, path: Field, rest: seq<Issue>, x: Issue)
    ensures x in Rule(holds, path) + rest <==> (!holds && x == Issue(path, MessageFor(path))) || x in rest
  {
  }

  /** Each rule reports its issue exactly when it fails; the username's
      comes first and the mismatch last. */
  lemma SignupIssuesReport(username: string, emailValid: bool, password: string,
                           confirmPassword: string, inviteCode: string)
    ensures var issues := SignupIssues(username, emailValid, password, confirmPassword, inviteCode);
      && (Issue(Username, UsernameMessage) in issues <==> Utf16Length(username) < 3)
      && (Issue(Email, EmailMessage) in issues <==> !emailValid)
      && (Issue(Password, PasswordMessage) in issues <==> Utf16Length(password) < 8)
      && (Issue(InviteCodeField, InviteCodeMessage) in issues <==> Utf16Length(inviteCode) != 32)
      && (Issue(ConfirmPassword, MismatchMessage) in issues <==> password != confirmPassword)
  {
    var e := Rule(password == confirmPassword, ConfirmPassword);
    var d := Rule(Utf16Length(inviteCode) == InviteCodeLength, InviteCodeField) + e;
    var c := Rule(Utf16Length(password) >= MinPasswordLength, Password) + d;
    var b := Rule(emailValid, Email) + c;
    var issues := Rule(Utf16Length(username) >= MinUsernameLength, Username) + b;
    assert issues == SignupIssues(username, emailValid, password, confirmPassword, inviteCode);
    forall x: Issue
      ensures x in issues <==>
        || (Utf16Length(username) < 3 && x == Issue(Username, UsernameMessage))
        || (!emailValid && x == Issue(Email, EmailMessage))
        || (Utf16Length(password) < 8 && x == Issue(Password, PasswordMessage))
        || (Utf16Length(inviteCode) != 32 && x == Issue(InviteCodeField, InviteCodeMessage))
        || (password != confirmPassword && x == Issue(ConfirmPassword, MismatchMessage))
    {
      RuleMember(Utf16Length(username) >= MinUsernameLength, Username, b, x);
      RuleMember(emailValid, Email, c, x);
      RuleMember(Utf16Length(password) >= MinPasswordLength, Password, d, x);
      RuleMember(Utf16Length(inviteCode) == InviteCodeLength, InviteCodeField, e, x);
      RuleMember(password == confirmPassword, ConfirmPassword, [], x);
      assert e + [] == e;
    }
  }

  /** In a list in rule order the username's issue, when present, is the
      first, and the mismatch, when present, is the last. */
  lemma OrderedEnds(issues: seq<Issue>)
    requires InRuleOrder(issues)
    ensures Issue(Username, UsernameMessage) in issues ==> issues[0] == Issue(Username, UsernameMessage)
    ensures Issue(ConfirmPassword, MismatchMessage) in issues
            ==> issues[|issues| - 1] == Issue(ConfirmPassword, MismatchMessage)
  {
  }

  /** `signupSchema.safeParse`: the data back when every rule holds;
      otherwise exactly the failing rules' issues, in rule order. */
  function ValidateSignup(username: string, email: string, emailValid: bool, password: string,
                          confirmPassword: string, inviteCode: string): (r: Result<SignupInput, seq<Issue>>)
    ensures r.Success? <==> Utf16Length(username) >= 3 && emailValid && Utf16Length(password) >= 8
                            && Utf16Length(inviteCode) == 32 && password == confirmPassword
    ensures r.Success? ==> r.value == SignupInput(username, email, password, confirmPassword, inviteCode)
    ensures r.Failure? ==> |r.error| > 0 && InRuleOrder(r.error)
    ensures r.Failure? ==> (Issue(Username, UsernameMessage) in r.error <==> Utf16Length(username) < 3)
    ensures r.Failure? ==> (Issue(Email, EmailMessage) in r.error <==> !emailValid)
    ensures r.Failure? ==> (Issue(Password, PasswordMessage) in r.error <==> Utf16Length(password) < 8)
    ensures r.Failure? ==> (Issue(InviteCodeField, InviteCodeMessage) in r.error <==> Utf16Length(inviteCode) != 32)
    ensures r.Failure? ==> (Issue(ConfirmPassword, MismatchMessage) in r.error <==> password != confirmPassword)
    ensures r.Failure? && Utf16Length(username) < 3 ==> r.error[0] == Issue(Username, UsernameMessage)
    ensures r.Failure? && password != confirmPassword
            ==> r.error[|r.error| - 1] == Issue(ConfirmPassword, MismatchMessage)
  {
    var issues := SignupIssues(username, emailValid, password, confirmPassword, inviteCode);
    SignupIssuesReport(username, emailValid, password, confirmPassword, inviteCode);
    OrderedEnds(issues);
    if issues == [] then Success(SignupInput(username, email, password, confirmPassword, inviteCode))
    else Failure(issues)
  }

  /** A code of any other code-unit length fails with the invite-code issue. */
  lemma WrongCodeLengthReported(username: string, email: string, emailValid: bool, password: string,
                                confirmPassword: string, code: string)
    requires Utf16Length(code) != 32
    ensures var r := ValidateSignup(username, email, emailValid, password, confirmPassword, code);
      r.Failure? && Issue(InviteCodeField, InviteCodeMessage) in r.error
  {
  }

  /** An invite code is accepted at exactly 32 UTF-16 code units: dropping
      its last character or adding one more yields the invite-code issue,
      whatever else the form holds. */
  lemma InviteCodeBoundary(username: string, email: string, emailValid: bool, password: string,
                           confirmPassword: string, code: string)
    requires Utf16Length(code) == 32
    ensures var short := ValidateSignup(username, email, emailValid, password, confirmPassword, code[..|code| - 1]);
      short.Failure? && Issue(InviteCodeField, InviteCodeMessage) in short.error
    ensures var long := ValidateSignup(username, email, emailValid, password, confirmPassword, code + "x");
      long.Failure? && Issue(InviteCodeField, InviteCodeMessage) in long.error
    ensures ValidateSignup(username, email, emailValid, password, confirmPassword, code).Success?
        <==> Utf16Length(username) >= 3 && emailValid && Utf16Length(password) >= 8 && password == confirmPassword
  {
    var short, last := code[..|code| - 1], code[|code| - 1..];
    assert code == short + last;
    Utf16LengthAppend(short, last);
    assert Utf16Length(short) < 32;
    Utf16LengthAppend(code, "x");
    assert Utf16Length("x") == 1;
    assert Utf16Length(code + "x") == 33;
    WrongCodeLengthReported(username, email, emailValid, password, confirmPassword, short);
    WrongCodeLengthReported(username, email, emailValid, password, confirmPassword, code + "x");
  }

  /** Length counts code units: four characters outside the Basic
      Multilingual Plane make an eight-unit password, which passes. */
  lemma AstralPasswordAccepted()
    ensures |"\U{1F600}\U{1F600}\U{1F600}\U{1F600}"| == 4
    ensures ValidateLogin("abc", "\U{1F600}\U{1F600}\U{1F600}\U{1F600}").Success?
  {
  }

  /** A mismatch is reported even when the password is also too short:
      both issues appear, the length one first. */
  lemma MismatchReportedWithShortPassword(username: string, email: string, emailValid: bool,
                                          password: string, confirmPassword: string, code: string)
    requires Utf16Length(password) < 8 && password != confirmPassword
    ensures var r := ValidateSignup(username, email, emailValid, password, confirmPassword, code);
      r.Failure? && Issue(Password, PasswordMessage) in r.error
      && r.error[|r.error| - 1] == Issue(ConfirmPassword, MismatchMessage)
  {
  }

  /** Every sign-up form that passes the sign-up schema also passes the
      login schema with the same username and password. */
  lemma SignupImpliesLogin(username: string, email: string, emailValid: bool, password: string,
                           confirmPassword: string, code: string)
    requires ValidateSignup(username, email, emailValid, password, confirmPassword, code).Success?
    ensures ValidateLogin(username, password) == Success(LoginRequest(username, password))
  {
  }
}
