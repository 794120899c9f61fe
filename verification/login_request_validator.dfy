/**
  The validator of the API's login request: the username (or e-mail) and
  the password must both be given, not blank, and not too long.

  The rules are FluentValidation's `NotEmpty` and `MaximumLength`, chained
  with the default cascade mode, under which a property's second rule still
  runs after its first one failed. Their meaning is stated here as the
  library documents it: `NotEmpty` rejects null, empty and white-space-only
  strings; `MaximumLength(n)` accepts null and any string of at most `n`
  UTF-16 code units.
 */
module LoginRequestValidator {
  import opened Wrappers

  /** The two validated properties of a login request; `None` is C#'s `null`. */
  datatype LoginRequest = LoginRequest(username: Option<string>, password: Option<string>)

  const MaxUsernameLength: nat := 128
  const MaxPasswordLength: nat := 256

  const UsernameRequired: string := "Username or Email is required"
  const UsernameTooLong: string := "Username too long"
  const PasswordRequired: string := "Password is required"
  /** The password's length message, which reads "Email" in the source. */
  const PasswordTooLong: string := "Email too long"

  // ---------------------------------------------------------------------
  // .NET string semantics
  // ---------------------------------------------------------------------

  /**
    .NET's `char.IsWhiteSpace`: the control characters tab to carriage
    return, U+0085, and the Unicode space, line and paragraph separators.
   */
  predicate IsWhiteSpace(c: char) {
    var n := c as int;
    || 0x09 <= n <= 0x0D
    || n == 0x20 || n == 0x85 || n == 0xA0 || n == 0x1680
    || 0x2000 <= n <= 0x200A
    || n == 0x2028 || n == 0x2029 || n == 0x202F || n == 0x205F || n == 0x3000
  }

  /** .NET's `string.IsNullOrWhiteSpace`, the test behind `NotEmpty` for strings. */
  predicate IsNullOrWhiteSpace(v: Option<string>) {
    v.None? || forall k :: 0 <= k < |v.value| ==> IsWhiteSpace(v.value[k])
  }

  /** A character outside the Basic Multilingual Plane takes a surrogate pair in UTF-16. */
  predicate IsSupplementary(c: char) {
    c as int >= 0x1_0000
  }

  /** .NET's `String.Length`: the number of UTF-16 code units. */
  function Utf16Length(s: string): (n: nat)
    ensures s == [] <==> n == 0
  {
    if s == [] then 0
    else (if IsSupplementary(s[0]) then 2 else 1) + Utf16Length(s[1..])
  }

  /**
    The UTF-16 length lies between the number of characters and twice that,
    and is exactly the number of characters when none is supplementary.
   */
  lemma {:induction false} Utf16LengthBounds(s: string)
    ensures |s| <= Utf16Length(s) <= 2 * |s|
    ensures (forall k :: 0 <= k < |s| ==> !IsSupplementary(s[k])) ==> Utf16Length(s) == |s|
    ensures (exists k :: 0 <= k < |s| && IsSupplementary(s[k])) ==> Utf16Length(s) > |s|
  {
    if s != [] {
      Utf16LengthBounds(s[1..]);
      assert forall k :: 1 <= k < |s| ==> s[k] == s[1..][k - 1];
    }
  }

  // ---------------------------------------------------------------------
  // The two rule kinds
  // ---------------------------------------------------------------------

  /** `NotEmpty().WithMessage(message)` on a string property. */
  function NotEmpty(v: Option<string>, message: string): (errors: seq<string>)
    ensures errors == [] || errors == [message]
    ensures errors == [message] <==> IsNullOrWhiteSpace(v)
  {
    if IsNullOrWhiteSpace(v) then [message] else []
  }

  /** `MaximumLength(max).WithMessage(message)`: a null value passes. */
  function MaximumLength(v: Option<string>, max: nat, message: string): (errors: seq<string>)
    ensures errors == [] || errors == [message]
    ensures errors == [message] <==> v.Some? && Utf16Length(v.value) > max
  {
    if v.Some? && Utf16Length(v.value) > max then [message] else []
  }

  /** One `RuleFor(...)` chain: both rules run, the `NotEmpty` failure first. */
  function PropertyErrors(v: Option<string>, max: nat, requiredMessage: string, tooLongMessage: string): (errors: seq<string>)
    requires requiredMessage != tooLongMessage
    ensures errors == [] <==> !IsNullOrWhiteSpace(v) && !(v.Some? && Utf16Length(v.value) > max)
    ensures |errors| <= 2
    ensures requiredMessage in errors <==> IsNullOrWhiteSpace(v)
    ensures tooLongMessage in errors <==> v.Some? && Utf16Length(v.value) > max
    ensures forall e :: e in errors ==> e == requiredMessage || e == tooLongMessage
    ensures |errors| == 2 ==> errors == [requiredMessage, tooLongMessage]
  {
    NotEmpty(v, requiredMessage) + MaximumLength(v, max, tooLongMessage)
  }

  // ---------------------------------------------------------------------
  // The validator
  // ---------------------------------------------------------------------

  /** The four rules, each identified by its property and kind. */
  datatype Rule = UsernameNotEmpty | UsernameMaximumLength | PasswordNotEmpty | PasswordMaximumLength {

    /** The message the rule reports when it fails. */
    function Message(): string {
      match this
      case UsernameNotEmpty => UsernameRequired
      case UsernameMaximumLength => UsernameTooLong
      case PasswordNotEmpty => PasswordRequired
      case PasswordMaximumLength => PasswordTooLong
    }

    /** Whether the rule fails on `req`, judged on its own. */
    predicate FailsOn(req: LoginRequest) {
      match this
      case UsernameNotEmpty => IsNullOrWhiteSpace(req.username)
      case UsernameMaximumLength => req.username.Some? && Utf16Length(req.username.value) > MaxUsernameLength
      case PasswordNotEmpty => IsNullOrWhiteSpace(req.password)
      case PasswordMaximumLength => req.password.Some? && Utf16Length(req.password.value) > MaxPasswordLength
    }
  }

  /** The rules in the order the constructor declares them. */
  const DeclaredRules: seq<Rule> := [UsernameNotEmpty, UsernameMaximumLength, PasswordNotEmpty, PasswordMaximumLength]

  /** A request the validator accepts: both fields given, not blank, and within their limits. */
  predicate IsAcceptable(req: LoginRequest) {
    && req.username.Some? && !IsNullOrWhiteSpace(req.username) && Utf16Length(req.username.value) <= MaxUsernameLength
    && req.password.Some? && !IsNullOrWhiteSpace(req.password) && Utf16Length(req.password.value) <= MaxPasswordLength
  }

  /** The four messages are pairwise different, so each names its rule. */
  lemma MessagesDistinct()
    ensures UsernameRequired != UsernameTooLong && UsernameRequired != PasswordRequired && UsernameRequired != PasswordTooLong
    ensures UsernameTooLong != PasswordRequired && UsernameTooLong != PasswordTooLong
    ensures PasswordRequired != PasswordTooLong
  {
    assert |UsernameRequired| == 29 && |UsernameTooLong| == 17 && |PasswordRequired| == 20 && |PasswordTooLong| == 14;
  }

  /** The validation failures of `req`, in the order the validator reports them. */
  function Validate(req: LoginRequest): (errors: seq<string>)
    ensures errors == [] <==> IsAcceptable(req)
    ensures |errors| <= |DeclaredRules|
  {
    PropertyErrors(req.username, MaxUsernameLength, UsernameRequired, UsernameTooLong)
    + PropertyErrors(req.password, MaxPasswordLength, PasswordRequired, PasswordTooLong)
  }

  /** What one rule contributes to the error list. */
  function Reported(rule: Rule, req: LoginRequest): (errors: seq<string>)
    ensures errors == [rule.Message()] <==> rule.FailsOn(req)
    ensures errors == [] <==> !rule.FailsOn(req)
  {
    if rule.FailsOn(req) then [rule.Message()] else []
  }

  /**
    The reference behaviour of a validator that runs `rules` one after the
    other and never stops early: the messages of the failing rules, in rule order.
   */
  function RunRules(rules: seq<Rule>, req: LoginRequest): (errors: seq<string>)
    ensures |errors| <= |rules|
  {
    if rules == [] then []
    else Reported(rules[0], req) + RunRules(rules[1..], req)
  }

  /** Running the four declared rules yields each one's contribution in turn. */
  lemma {:induction false} RunDeclaredRules(req: LoginRequest)
    ensures RunRules(DeclaredRules, req)
         == Reported(UsernameNotEmpty, req) + (Reported(UsernameMaximumLength, req)
            + (Reported(PasswordNotEmpty, req) + Reported(PasswordMaximumLength, req)))
  {
    var r4 := [PasswordMaximumLength];
    var r3 := [PasswordNotEmpty] + r4;
    var r2 := [UsernameMaximumLength] + r3;
    assert DeclaredRules == [UsernameNotEmpty] + r2;
    assert r4[1..] == [] && r3[1..] == r4 && r2[1..] == r3 && DeclaredRules[1..] == r2;
    assert RunRules(r4, req) == Reported(PasswordMaximumLength, req) + RunRules([], req);
    assert RunRules(r3, req) == Reported(PasswordNotEmpty, req) + RunRules(r4, req);
    assert RunRules(r2, req) == Reported(UsernameMaximumLength, req) + RunRules(r3, req);
    assert RunRules(DeclaredRules, req) == Reported(UsernameNotEmpty, req) + RunRules(r2, req);
  }

  /** Each rule call of the source contributes what its `Rule` reports. */
  lemma ValidateIsRuleByRule(req: LoginRequest)
    ensures Validate(req)
         == (Reported(UsernameNotEmpty, req) + Reported(UsernameMaximumLength, req))
            + (Reported(PasswordNotEmpty, req) + Reported(PasswordMaximumLength, req))
  {
  }

  /**
    `Validate` is the reference run of the four declared rules: every failing
    rule reports its message, in declaration order, username rules first.
   */
  lemma {:induction false} ValidateRunsRulesInOrder(req: LoginRequest)
    ensures Validate(req) == RunRules(DeclaredRules, req)
  {
    var a := Reported(UsernameNotEmpty, req);
    var b := Reported(UsernameMaximumLength, req);
    var c := Reported(PasswordNotEmpty, req);
    var d := Reported(PasswordMaximumLength, req);
    ValidateIsRuleByRule(req);
    RunDeclaredRules(req);
    assert (a + b) + (c + d) == a + (b + (c + d));
  }

  /** Each message is reported exactly when its rule fails. */
  lemma {:induction false} ValidateReportsFailedRules(req: LoginRequest)
    ensures var errors := Validate(req);
      && (UsernameRequired in errors <==> IsNullOrWhiteSpace(req.username))
      && (UsernameTooLong in errors <==> req.username.Some? && Utf16Length(req.username.value) > MaxUsernameLength)
      && (PasswordRequired in errors <==> IsNullOrWhiteSpace(req.password))
      && (PasswordTooLong in errors <==> req.password.Some? && Utf16Length(req.password.value) > MaxPasswordLength)
  {
    MessagesDistinct();
    var u := PropertyErrors(req.username, MaxUsernameLength, UsernameRequired, UsernameTooLong);
    var p := PropertyErrors(req.password, MaxPasswordLength, PasswordRequired, PasswordTooLong);
    assert Validate(req) == u + p;
    assert UsernameRequired !in p && UsernameTooLong !in p;
    assert PasswordRequired !in u && PasswordTooLong !in u;
  }

  /**
    Each field is judged on its own: the errors of a request are the errors
    its username alone would cause followed by those its password alone
    would cause (with the other field set to an acceptable value).
   */
  lemma {:induction false} FieldsAreIndependent(username: Option<string>, password: Option<string>)
    ensures Validate(LoginRequest(username, password))
         == Validate(LoginRequest(username, Some("x"))) + Validate(LoginRequest(Some("x"), password))
  {
    assert !IsWhiteSpace('x');
    assert !IsNullOrWhiteSpace(Some("x")) by { assert "x"[0] == 'x'; }
    assert Utf16Length("x") == 1 by { assert "x"[1..] == ""; }
  }

  /**
    With the default cascade a property can fail both of its rules: a
    username of 129 spaces is blank and too long.
   */
  lemma BlankAndTooLongAreBothReported()
    ensures Validate(LoginRequest(Some(seq(129, _ => ' ')), Some("secret")))
         == [UsernameRequired, UsernameTooLong]
  {
    var u := seq(129, _ => ' ');
    Utf16LengthBounds(u);
    Utf16LengthBounds("secret");
    assert "secret"[0] == 's';
  }
}
