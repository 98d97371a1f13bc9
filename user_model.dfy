/**
 * The user schema: the e-mail validator, the required fields, the password
 * length rule, the defaults a new user gets, and the hook that hashes the
 * password before a save.
 */
module UserModel {
  import opened Wrappers
  import Strings

  // ---------------------------------------------------------------------------
  // the e-mail pattern /^[^\s@]+@[^\s@]+\.[^\s@]+$/

  /** The class `[^\s@]`. */
  predicate IsPlain(c: char)
  {
    !Strings.IsJsSpace(c) && c != '@'
  }

  predicate AllPlain(s: string)
  {
    forall i :: 0 <= i < |s| ==> IsPlain(s[i])
  }

  /**
   * The strings the pattern matches: a run of plain characters, an `@`, a run
   * of plain characters, a `.`, and a run of plain characters, each run
   * non-empty. `i` is the position of the `@` and `j` that of the `.`.
   */
  ghost predicate MatchesEmailPattern(s: string)
  {
    exists i, j :: 0 < i && i + 1 < j && j + 1 < |s| && s[i] == '@' && s[j] == '.' &&
      AllPlain(s[..i]) && AllPlain(s[i + 1..j]) && AllPlain(s[j + 1..])
  }

  /** Position of the first `c` in `s`. */
  function IndexOf(s: string, c: char): (r: Option<nat>)
    ensures r.Some? ==> r.value < |s| && s[r.value] == c && c !in s[..r.value]
    ensures r.None? <==> c !in s
  {
    if |s| == 0 then None
    else if s[0] == c then Some(0)
    else match IndexOf(s[1..], c)
      case None => None
      case Some(k) =>
        assert s[..k + 1] == [s[0]] + s[1..][..k];
        Some(k + 1)
  }

  /** The part after the `@`: plain characters with a `.` that is neither first nor last. */
  predicate IsDottedDomain(d: string)
  {
    AllPlain(d) && |d| >= 3 && '.' in d[1..|d| - 1]
  }

  /**
   * `emailRegexPattern.test(value)`: the text before the first `@` is a
   * non-empty run of plain characters and the rest is a dotted domain.
   */
  predicate IsValidEmail(s: string)
  {
    match IndexOf(s, '@')
    case None => false
    case Some(at) => at > 0 && AllPlain(s[..at]) && IsDottedDomain(s[at + 1..])
  }

  /** The validator accepts exactly the strings the pattern describes. */
  lemma EmailValidatorMatchesPattern(s: string)
    ensures IsValidEmail(s) <==> MatchesEmailPattern(s)
  {
    if IsValidEmail(s) {
      ValidEmailMatches(s);
    }
    if MatchesEmailPattern(s) {
      var i, j :| 0 < i && i + 1 < j && j + 1 < |s| && s[i] == '@' && s[j] == '.' &&
        AllPlain(s[..i]) && AllPlain(s[i + 1..j]) && AllPlain(s[j + 1..]);
      MatchIsValid(s, i, j);
    }
  }

  lemma ValidEmailMatches(s: string)
    requires IsValidEmail(s)
    ensures MatchesEmailPattern(s)
  {
    var i := IndexOf(s, '@').value;
    var d := s[i + 1..];
    var k :| 1 <= k < |d| - 1 && d[k] == '.' by {
      var k' :| 0 <= k' < |d[1..|d| - 1]| && d[1..|d| - 1][k'] == '.';
      assert d[k' + 1] == '.';
    }
    var j := i + 1 + k;
    assert s[j] == '.';
    assert s[i + 1..j] == d[..k];
    assert s[j + 1..] == d[k + 1..];
    PlainSlice(d, 0, k);
    PlainSlice(d, k + 1, |d|);
    assert d[0..k] == d[..k] && d[k + 1..|d|] == d[k + 1..];
  }

  lemma PlainSlice(s: string, a: nat, b: nat)
    requires AllPlain(s) && a <= b <= |s|
    ensures AllPlain(s[a..b])
  {
  }

  lemma MatchIsValid(s: string, i: nat, j: nat)
    requires 0 < i && i + 1 < j && j + 1 < |s| && s[i] == '@' && s[j] == '.'
    requires AllPlain(s[..i]) && AllPlain(s[i + 1..j]) && AllPlain(s[j + 1..])
    ensures IsValidEmail(s)
  {
    assert '@' !in s[..i] by {
      assert forall m :: 0 <= m < i ==> IsPlain(s[..i][m]);
    }
    IndexOfFirst(s, '@', i);
    var d := s[i + 1..];
    assert AllPlain(d) by {
      forall m | 0 <= m < |d| ensures IsPlain(d[m]) {
        if i + 1 + m < j {
          assert d[m] == s[i + 1..j][m];
        } else if i + 1 + m > j {
          assert d[m] == s[j + 1..][m - (j - i)];
        }
      }
    }
    assert d[j - i - 1] == '.';
    assert '.' in d[1..|d| - 1] by {
      assert d[1..|d| - 1][j - i - 2] == '.';
    }
  }

  /** When `c` first occurs at `i`, IndexOf finds it there. */
  lemma IndexOfFirst(s: string, c: char, i: nat)
    requires i < |s| && s[i] == c && c !in s[..i]
    ensures IndexOf(s, c) == Some(i)
  {
  }

  /** An address with any whitespace in it is rejected. */
  lemma ValidEmailHasNoSpace(s: string)
    requires IsValidEmail(s)
    ensures Strings.NoSpace(s)
  {
  }

  /** An accepted address has exactly one `@`, and it is not the first character. */
  lemma ValidEmailHasOneAt(s: string)
    requires IsValidEmail(s)
    ensures Strings.Count(s, '@') == 1 && s[0] != '@'
  {
    var at := IndexOf(s, '@').value;
    assert s == s[..at] + [s[at]] + s[at + 1..];
    assert '@' !in s[at + 1..] by {
      assert AllPlain(s[at + 1..]);
    }
    Strings.CountZero(s[..at], '@');
    Strings.CountZero(s[at + 1..], '@');
    CountAppend(s[..at] + [s[at]], s[at + 1..], '@');
    CountAppend(s[..at], [s[at]], '@');
  }

  lemma {:induction false} CountAppend(a: string, b: string, c: char)
    ensures Strings.Count(a + b, c) == Strings.Count(a, c) + Strings.Count(b, c)
  {
    if |a| > 0 {
      assert (a + b)[1..] == a[1..] + b;
      CountAppend(a[1..], b, c);
    } else {
      assert a + b == b;
    }
  }

  // ---------------------------------------------------------------------------
  // schema validation and defaults

  /** The fields a new user document is created from; None is a field not given. */
  datatype UserInput = UserInput(name: Option<string>, email: Option<string>, password: Option<string>,
                                 role: Option<string>, isVerified: Option<bool>)

  /** A validated user with its defaults filled in. */
  datatype UserFields = UserFields(name: string, email: string, password: Option<string>,
                                   role: string, isVerified: bool)

  datatype ValidationError = ValidationError(path: string, message: string)

  const MinPasswordLength := 6

  /** A required string is present and not empty. */
  predicate Given(v: Option<string>)
  {
    v.Some? && |v.value| > 0
  }

  /** The first failing rule of one path, if any: `required` is checked before the other validators. */
  function NameErrors(name: Option<string>): seq<ValidationError>
  {
    if !Given(name) then [ValidationError("name", "Please enter your name")] else []
  }

  function EmailErrors(email: Option<string>): seq<ValidationError>
  {
    if !Given(email) then [ValidationError("email", "Please enter your email")]
    else if !IsValidEmail(email.value) then [ValidationError("email", "Please enter a valid email")]
    else []
  }

  /** The password is optional; when given it must have at least six characters. */
  function PasswordErrors(password: Option<string>): seq<ValidationError>
  {
    if password.Some? && |password.value| < MinPasswordLength
    then [ValidationError("password", "Password must be at least 6 characters")]
    else []
  }

  /**
   * Creating and validating a user document: the errors of every path in
   * schema order, or the document with `role` defaulting to "user" and
   * `isVerified` to false.
   */
  function CreateUser(input: UserInput): (r: Result<UserFields, seq<ValidationError>>)
    ensures r.Success? <==>
      && Given(input.name) && Given(input.email) && IsValidEmail(input.email.value)
      && (input.password.None? || |input.password.value| >= MinPasswordLength)
    ensures r.Success? ==>
      && r.value.name == input.name.value && r.value.email == input.email.value
      && r.value.password == input.password
      && r.value.role == (if input.role.Some? then input.role.value else "user")
      && r.value.isVerified == (input.isVerified.Some? && input.isVerified.value)
    ensures r.Failure? ==> |r.error| > 0
  {
    var errors := NameErrors(input.name) + EmailErrors(input.email) + PasswordErrors(input.password);
    if |errors| > 0 then Failure(errors)
    else Success(UserFields(input.name.value, input.email.value, input.password,
                            input.role.GetOr("user"), input.isVerified.GetOr(false)))
  }

  /** A password shorter than six characters is rejected with the schema's message. */
  lemma ShortPasswordRejected(input: UserInput)
    requires input.password.Some? && |input.password.value| < MinPasswordLength
    ensures CreateUser(input).Failure?
    ensures ValidationError("password", "Password must be at least 6 characters") in CreateUser(input).error
  {
  }

  /** A missing name or e-mail is reported against its own path. */
  lemma RequiredFields(input: UserInput)
    ensures !Given(input.name) ==>
      CreateUser(input).Failure? && ValidationError("name", "Please enter your name") in CreateUser(input).error
    ensures !Given(input.email) ==>
      CreateUser(input).Failure? && ValidationError("email", "Please enter your email") in CreateUser(input).error
  {
  }

  /** A given e-mail that does not match the pattern is rejected with the validator's message. */
  lemma MalformedEmailRejected(input: UserInput)
    requires Given(input.email) && !IsValidEmail(input.email.value)
    ensures CreateUser(input).Failure?
    ensures ValidationError("email", "Please enter a valid email") in CreateUser(input).error
    ensures ValidationError("email", "Please enter your email") !in CreateUser(input).error
  {
  }

  /** A new user who gives only a name and a valid e-mail is an unverified "user". */
  lemma NewUserDefaults(name: string, email: string)
    requires |name| > 0 && IsValidEmail(email)
    ensures var r := CreateUser(UserInput(Some(name), Some(email), None, None, None));
      r.Success? && r.value.role == "user" && !r.value.isVerified
  {
  }

  // ---------------------------------------------------------------------------
  // the pre-save hook

  /** A user document as the save hook sees it: the password and which paths were modified since loading. */
  class UserDocument {
    var password: Option<string>
    var modifiedPaths: set<string>

    constructor (password: Option<string>, modifiedPaths: set<string>)
      ensures this.password == password && this.modifiedPaths == modifiedPaths
    {
      this.password := password;
      this.modifiedPaths := modifiedPaths;
    }

    /**
     * Before a save: hash the password with cost 10, but only when it was
     * modified, so a stored hash is never hashed again. `hash` stands for
     * bcrypt; it fails on an absent password, and the save fails with it.
     */
    method PreSave(hash: (string, nat) -> string) returns (err: Option<string>)
      modifies this`password
      ensures "password" !in modifiedPaths ==> password == old(password) && err == None
      ensures "password" in modifiedPaths && old(password).Some? ==>
        password == Some(hash(old(password).value, 10)) && err == None
      ensures "password" in modifiedPaths && old(password).None? ==>
        password == None && err == Some("Illegal arguments: undefined, number")
    {
      if "password" !in modifiedPaths {
        return None;
      }
      if password.None? {
        return Some("Illegal arguments: undefined, number");
      }
      password := Some(hash(password.value, 10));
      err := None;
    }

    /**
     * The schema validation a save runs before any pre-save hook, on the
     * password path: a modified password shorter than six characters is
     * rejected with the `minLength` message (an absent one passes, since the
     * path is not required).
     */
    function PasswordValidation(): (err: Option<string>)
      reads this
      ensures err.Some? <==>
        "password" in modifiedPaths && password.Some? && |password.value| < MinPasswordLength
      ensures err.Some? ==> err.value == "Password must be at least 6 characters"
    {
      if "password" in modifiedPaths && password.Some? && |password.value| < MinPasswordLength
      then Some("Password must be at least 6 characters")
      else None
    }

    /**
     * A save: validation, then the hook, then the write, after which the
     * document counts as unmodified. A failing validation or hook aborts the
     * save and leaves the document as it was.
     */
    method Save(hash: (string, nat) -> string) returns (err: Option<string>)
      modifies this
      ensures err.Some? <==>
        "password" in old(modifiedPaths) && (old(password).None? || |old(password).value| < MinPasswordLength)
      ensures err.Some? ==> modifiedPaths == old(modifiedPaths) && password == old(password)
      ensures err.None? ==> modifiedPaths == {}
      ensures "password" !in old(modifiedPaths) ==> password == old(password)
      ensures "password" in old(modifiedPaths) && old(password).Some? && |old(password).value| >= MinPasswordLength ==>
        password == Some(hash(old(password).value, 10))
      ensures "password" in old(modifiedPaths) && old(password).Some? && |old(password).value| < MinPasswordLength ==>
        err == Some("Password must be at least 6 characters")
      ensures "password" in old(modifiedPaths) && old(password).None? ==>
        err == Some("Illegal arguments: undefined, number")
    {
      err := PasswordValidation();
      if err.Some? {
        return;
      }
      err := PreSave(hash);
      if err.None? {
        modifiedPaths := {};
      }
    }
  }

  /**
   * Saving a new password twice hashes it once: the second save finds the
   * password unmodified. A password shorter than six characters fails
   * validation on both saves and is never hashed.
   */
  method SaveTwice(hash: (string, nat) -> string, plain: string) returns (stored: Option<string>, err: Option<string>)
    ensures |plain| >= MinPasswordLength ==> stored == Some(hash(plain, 10)) && err.None?
    ensures |plain| < MinPasswordLength ==>
      stored == Some(plain) && err == Some("Password must be at least 6 characters")
  {
    var user := new UserDocument(Some(plain), {"password"});
    err := user.Save(hash);
    err := user.Save(hash);
    stored := user.password;
  }
}
