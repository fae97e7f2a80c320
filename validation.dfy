/** ValidationUtil: six stateless checks, each passing or failing with a
    bad request that names the offending field. A Java `null` is `None`. */
module Validation {
  import opened Errors
  import opened JavaLang

  // ---------------------------------------------------------------- e-mail

  /** The character class `[A-Za-z0-9+_.-]`. */
  predicate IsLocalChar(c: char) {
    ('A' <= c <= 'Z') || ('a' <= c <= 'z') || ('0' <= c <= '9')
    || c == '+' || c == '_' || c == '.' || c == '-'
  }

  /** The language of `^[A-Za-z0-9+_.-]+@(.+)$` under `String.matches`: a
      non-empty run of class chars, an `@`, then a non-empty tail that holds
      no line terminator (the `.` of the pattern). */
  predicate IsEmailAddress(s: string) {
    exists at :: 0 < at < |s| - 1 && s[at] == '@'
      && (forall k :: 0 <= k < at ==> IsLocalChar(s[k]))
      && (forall k :: at < k < |s| ==> !IsLineTerminator(s[k]))
  }

  /** The length of the run of class chars that starts `s`. */
  function LocalPartLength(s: string): (n: nat)
    ensures n <= |s|
    ensures forall k :: 0 <= k < n ==> IsLocalChar(s[k])
    ensures n < |s| ==> !IsLocalChar(s[n])
  {
    if s == [] || !IsLocalChar(s[0]) then 0
    else 1 + LocalPartLength(s[1..])
  }

  /** The matcher: the class excludes `@`, so the `@` of a match is the char
      right after the leading run. */
  predicate MatchesEmailPattern(s: string) {
    var n := LocalPartLength(s);
    0 < n && n + 1 < |s| && s[n] == '@'
    && forall k :: n < k < |s| ==> !IsLineTerminator(s[k])
  }

  /** The matcher accepts exactly the language of the pattern. */
  lemma {:induction false} EmailPatternCorrect(s: string)
    ensures MatchesEmailPattern(s) <==> IsEmailAddress(s)
  {
    var n := LocalPartLength(s);
    if MatchesEmailPattern(s) {
      assert s[n] == '@';
    }
    if IsEmailAddress(s) {
      var at :| 0 < at < |s| - 1 && s[at] == '@'
        && (forall k :: 0 <= k < at ==> IsLocalChar(s[k]))
        && (forall k :: at < k < |s| ==> !IsLineTerminator(s[k]));
      assert !IsLocalChar(s[at]);
      assert n == at;
    }
  }

  /** `validateEmail`. */
  function ValidateEmail(email: Option<string>): (r: Outcome)
    ensures r.Pass? <==> email.Some? && IsEmailAddress(email.value)
    ensures r.Fail? ==> r.error == BadRequest("email")
  {
    if email.None? then Fail(BadRequest("email"))
    else
      EmailPatternCorrect(email.value);
      if !MatchesEmailPattern(email.value) then Fail(BadRequest("email")) else Pass
  }

  // ---------------------------------------------------------------- the rest

  /** `validatePassword`: at least six UTF-16 code units. */
  function ValidatePassword(password: Option<string>): (r: Outcome)
    ensures r.Pass? <==> password.Some? && Utf16Length(password.value) >= 6
    ensures password.Some? && |password.value| >= 6 ==> r.Pass?
    ensures r.Pass? ==> |password.value| >= 3
    ensures r.Fail? ==> r.error == BadRequest("password")
  {
    if password.None? || Utf16Length(password.value) < 6 then Fail(BadRequest("password"))
    else Pass
  }

  /** `validateNotEmpty`: fails for null and for a string that `trim` empties,
      that is, one made only of chars at or below U+0020. */
  function ValidateNotEmpty(value: Option<string>, fieldName: string): (r: Outcome)
    ensures r.Pass? <==> value.Some? && exists k :: 0 <= k < |value.value| && value.value[k] > ' '
    ensures r.Fail? ==> r.error == BadRequest(fieldName)
  {
    if value.None? || Trim(value.value) == [] then Fail(BadRequest(fieldName))
    else Pass
  }

  /** `validatePrice`: the price, in cents, must be above zero. */
  function ValidatePrice(price: Option<int>): (r: Outcome)
    ensures r.Pass? <==> price.Some? && price.value > 0
    ensures r.Fail? ==> r.error == BadRequest("price")
  {
    if price.None? || price.value <= 0 then Fail(BadRequest("price"))
    else Pass
  }

  /** `validateStock`: zero is allowed. */
  function ValidateStock(stock: Option<Int32>): (r: Outcome)
    ensures r.Pass? <==> stock.Some? && stock.value >= 0
    ensures r.Fail? ==> r.error == BadRequest("stock")
  {
    if stock.None? || stock.value < 0 then Fail(BadRequest("stock"))
    else Pass
  }

  /** `validatePositive`: zero is refused. */
  function ValidatePositive(value: Option<Int32>, fieldName: string): (r: Outcome)
    ensures r.Pass? <==> value.Some? && value.value > 0
    ensures r.Fail? ==> r.error == BadRequest(fieldName)
  {
    if value.None? || value.value <= 0 then Fail(BadRequest(fieldName))
    else Pass
  }

  /** The numeric checks at their boundaries: a zero price and a zero
      quantity fail, a zero stock passes. */
  lemma NumericEdges()
    ensures ValidatePrice(Some(0)).Fail? && ValidatePrice(Some(1)).Pass?
    ensures ValidateStock(Some(0)).Pass? && ValidateStock(Some(-1)).Fail?
    ensures ValidatePositive(Some(0), "quantity") == Fail(BadRequest("quantity"))
  {
  }

  /** Five characters of password fail, six pass, and a blank name fails. */
  lemma StringEdges()
    ensures ValidatePassword(Some("12345")).Fail? && ValidatePassword(Some("123456")).Pass?
    ensures ValidateNotEmpty(Some(" \t "), "name") == Fail(BadRequest("name"))
  {
  }

  /** Sample addresses: the local part and the tail must both be non-empty
      and the local part holds only class chars. */
  lemma EmailEdges()
    ensures ValidateEmail(Some("a@b")).Pass? && ValidateEmail(Some("@b")).Fail?
    ensures ValidateEmail(Some("a@")).Fail? && ValidateEmail(Some("a b@c")).Fail?
  {
    assert IsEmailAddress("a@b") by { assert "a@b"[1] == '@'; }
    assert !IsLocalChar(' ');
  }
}
