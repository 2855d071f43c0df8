/** The signup and login body schemas (src/validation/auth.ts), as the list
    of issues a zod object schema reports for a request body, in field order
    and, within a field, in the order of its checks. zod's e-mail pattern is
    a parameter `isEmail`. */
module AuthSchemas {
  import opened Prelude
  import opened Js

  datatype Issue = Issue(path: string, message: string)

  const InvalidEmail := "Invalid email format"
  const EmailRequired := "Email is required"
  const PasswordTooShort := "Password must be at least 8 characters"
  const PasswordTooWeak := "Password must contain at least one lowercase letter, one uppercase letter, and one number"
  const NameRequired := "Name is required"
  const NameTooLong := "Name must be less than 100 characters"
  const PasswordRequired := "Password is required"

  /** `body[key]`, `undefined` when absent. */
  function Field(body: map<string, JsValue>, key: string): JsValue
  {
    if key in body then body[key] else Undefined
  }

  /** The type name zod reports for a received value. */
  function ParsedType(v: JsValue): string
  {
    match v
    case Undefined => "undefined"
    case Null => "null"
    case Bool(_) => "boolean"
    case Num(_) => "number"
    case Str(_) => "string"
    case Obj(_) => "object"
    case ErrorInstance(_) => "object"
  }

  /** The issue of `z.string()` for a value that is not a string; the checks
      that follow it are then not run. */
  function TypeIssue(path: string, v: JsValue): (i: Issue)
    requires !v.Str?
    ensures i.path == path
    ensures v.Undefined? <==> i.message == "Required"
    ensures !v.Undefined? ==> i.message == "Expected string, received " + ParsedType(v)
  {
    if v.Undefined? then Issue(path, "Required")
    else Issue(path, "Expected string, received " + ParsedType(v))
  }

  /** A JavaScript line terminator: what `.` in a pattern does not match. */
  predicate IsLineTerminator(c: char)
  {
    c as int == 10 || c as int == 13 || c as int == 0x2028 || c as int == 0x2029
  }

  /** Length of the text before the first line terminator. */
  function FirstLineLength(s: string): (k: nat)
    ensures k <= |s|
    ensures forall i :: 0 <= i < k ==> !IsLineTerminator(s[i])
    ensures k < |s| ==> IsLineTerminator(s[k])
  {
    if |s| == 0 || IsLineTerminator(s[0]) then 0 else 1 + FirstLineLength(s[1..])
  }

  predicate HasCharIn(s: string, lo: char, hi: char)
  {
    exists i :: 0 <= i < |s| && lo <= s[i] <= hi
  }

  /** `/^(?=.*[a-z])(?=.*[A-Z])(?=.*\d)/`: each lookahead scans from the
      start of the input with `.`, so it only sees the first line. */
  predicate MatchesPasswordPattern(s: string)
  {
    var line := s[..FirstLineLength(s)];
    HasCharIn(line, 'a', 'z') && HasCharIn(line, 'A', 'Z') && HasCharIn(line, '0', '9')
  }

  /** `z.string().email(...).min(1, ...)` */
  function EmailIssues(v: JsValue, isEmail: string -> bool): (r: seq<Issue>)
    ensures r == [] <==> v.Str? && isEmail(v.s) && v.s != ""
    ensures forall i :: 0 <= i < |r| ==> r[i].path == "email"
  {
    match v
    case Str(s) =>
      (if isEmail(s) then [] else [Issue("email", InvalidEmail)])
      + (if Utf16Length(s) < 1 then [Issue("email", EmailRequired)] else [])
    case _ => [TypeIssue("email", v)]
  }

  /** The signup password: `z.string().min(8, ...).regex(..., ...)` */
  function SignupPasswordIssues(v: JsValue): (r: seq<Issue>)
    ensures r == [] <==> v.Str? && Utf16Length(v.s) >= 8 && MatchesPasswordPattern(v.s)
    ensures forall i :: 0 <= i < |r| ==> r[i].path == "password"
  {
    match v
    case Str(s) =>
      (if Utf16Length(s) < 8 then [Issue("password", PasswordTooShort)] else [])
      + (if MatchesPasswordPattern(s) then [] else [Issue("password", PasswordTooWeak)])
    case _ => [TypeIssue("password", v)]
  }

  /** `z.string().min(1, ...).max(100, ...).optional()`: `undefined` passes,
      `null` does not. */
  function NameIssues(v: JsValue): (r: seq<Issue>)
    ensures r == [] <==> v.Undefined? || (v.Str? && 1 <= Utf16Length(v.s) <= 100)
    ensures forall i :: 0 <= i < |r| ==> r[i].path == "name"
  {
    match v
    case Undefined => []
    case Str(s) =>
      (if Utf16Length(s) < 1 then [Issue("name", NameRequired)] else [])
      + (if Utf16Length(s) > 100 then [Issue("name", NameTooLong)] else [])
    case _ => [TypeIssue("name", v)]
  }

  /** The login password: `z.string().min(1, ...)` */
  function LoginPasswordIssues(v: JsValue): (r: seq<Issue>)
    ensures r == [] <==> v.Str? && v.s != ""
    ensures forall i :: 0 <= i < |r| ==> r[i].path == "password"
  {
    match v
    case Str(s) => if Utf16Length(s) < 1 then [Issue("password", PasswordRequired)] else []
    case _ => [TypeIssue("password", v)]
  }

  /** `signupSchema.safeParse(body)` issues. */
  function SignupIssues(body: map<string, JsValue>, isEmail: string -> bool): seq<Issue>
  {
    EmailIssues(Field(body, "email"), isEmail)
    + SignupPasswordIssues(Field(body, "password"))
    + NameIssues(Field(body, "name"))
  }

  /** `loginSchema.safeParse(body)` issues. */
  function LoginIssues(body: map<string, JsValue>, isEmail: string -> bool): seq<Issue>
  {
    EmailIssues(Field(body, "email"), isEmail) + LoginPasswordIssues(Field(body, "password"))
  }

  /** A signup body is accepted exactly when the e-mail is a non-empty
      e-mail-shaped string, the password has at least 8 characters and meets
      the pattern, and the name is absent or has 1 to 100 characters. */
  lemma SignupAccepted(body: map<string, JsValue>, isEmail: string -> bool)
    ensures SignupIssues(body, isEmail) == [] <==>
      (var e := Field(body, "email"); var p := Field(body, "password"); var n := Field(body, "name");
       e.Str? && isEmail(e.s) && e.s != ""
       && p.Str? && Utf16Length(p.s) >= 8 && MatchesPasswordPattern(p.s)
       && (n.Undefined? || (n.Str? && 1 <= Utf16Length(n.s) <= 100)))
  {
  }

  /** A login body is accepted exactly when the e-mail is a non-empty
      e-mail-shaped string and the password is a non-empty string. */
  lemma LoginAccepted(body: map<string, JsValue>, isEmail: string -> bool)
    ensures LoginIssues(body, isEmail) == [] <==>
      (var e := Field(body, "email"); var p := Field(body, "password");
       e.Str? && isEmail(e.s) && e.s != "" && p.Str? && p.s != "")
  {
  }

  /** Issues are reported field by field: every e-mail issue comes before
      every password issue. */
  lemma EmailIssuesFirst(body: map<string, JsValue>, isEmail: string -> bool)
    ensures var r := SignupIssues(body, isEmail);
      forall i, j :: 0 <= i < j < |r| && r[j].path == "email" ==> r[i].path == "email"
  {
    var e := EmailIssues(Field(body, "email"), isEmail);
    var r := SignupIssues(body, isEmail);
    forall i, j | 0 <= i < j < |r| && r[j].path == "email" ensures r[i].path == "email" {
      assert j < |e|;
    }
  }

  /** A letter, a capital and a digit placed after a line break do not
      count: a password whose first line lacks a digit fails the pattern. */
  lemma PatternStopsAtLineBreak(line: string, rest: string)
    requires forall i :: 0 <= i < |line| ==> !IsLineTerminator(line[i]) && !('0' <= line[i] <= '9')
    ensures !MatchesPasswordPattern(line + "\n" + rest)
  {
    var s := line + "\n" + rest;
    assert s[|line|] == '\n';
    FirstLineOfJoin(line, rest);
  }

  lemma {:induction false} FirstLineOfJoin(line: string, rest: string)
    requires forall i :: 0 <= i < |line| ==> !IsLineTerminator(line[i])
    ensures FirstLineLength(line + "\n" + rest) == |line|
  {
    if |line| > 0 {
      assert (line + "\n" + rest)[1..] == line[1..] + "\n" + rest;
      FirstLineOfJoin(line[1..], rest);
    }
  }

  /** A 100-character name is accepted although the message says "less
      than 100". */
  lemma HundredCharacterNameAccepted(name: string)
    requires |name| == 100 && forall i :: 0 <= i < |name| ==> name[i] as int <= 0xFFFF
    ensures NameIssues(Str(name)) == []
  {
    Utf16OfBmp(name);
  }

  lemma {:induction false} Utf16OfBmp(s: string)
    requires forall i :: 0 <= i < |s| ==> s[i] as int <= 0xFFFF
    ensures Utf16Length(s) == |s|
  {
    if |s| > 0 {
      Utf16OfBmp(s[1..]);
    }
  }
}
