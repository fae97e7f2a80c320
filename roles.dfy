/** The `Role` enum: two constants, each with a `ROLE_`-prefixed value, and
    a case-insensitive lookup by either spelling. */
module Roles {
  import opened Errors
  import opened JavaLang

  datatype Role = ADMIN | CUSTOMER

  /** `Role.values()`, in declaration order. */
  const Values: seq<Role> := [ADMIN, CUSTOMER]

  /** `Role.name()`. */
  function Name(r: Role): string {
    match r
    case ADMIN => "ADMIN"
    case CUSTOMER => "CUSTOMER"
  }

  /** `Role.getRoleValue()`. */
  function RoleValue(r: Role): (v: string)
    ensures v == "ROLE_" + Name(r)
  {
    match r
    case ADMIN => "ROLE_ADMIN"
    case CUSTOMER => "ROLE_CUSTOMER"
  }

  /** The test `fromString` applies to each constant; `equalsIgnoreCase(null)`
      is false. */
  predicate Matches(r: Role, value: Option<string>) {
    value.Some? && (EqualsIgnoreCase(Name(r), value.value) || EqualsIgnoreCase(RoleValue(r), value.value))
  }

  /** The linear search of `fromString` over `candidates`. */
  function Find(candidates: seq<Role>, value: Option<string>): (r: Option<Role>)
    ensures r.Some? ==> r.value in candidates && Matches(r.value, value)
    ensures r.None? ==> forall k :: 0 <= k < |candidates| ==> !Matches(candidates[k], value)
  {
    if candidates == [] then None
    else if Matches(candidates[0], value) then Some(candidates[0])
    else Find(candidates[1..], value)
  }

  /** `Role.fromString`; `None` is the IllegalArgumentException it throws for
      any other string, null included. */
  function FromString(value: Option<string>): (r: Option<Role>)
    ensures r.Some? ==> Matches(r.value, value)
    ensures r.None? ==> !Matches(ADMIN, value) && !Matches(CUSTOMER, value)
  {
    assert Values[0] == ADMIN && Values[1] == CUSTOMER;
    Find(Values, value)
  }

  /** Both spellings of each constant have different lengths, so no string
      matches two constants. */
  lemma {:induction false} MatchesAtMostOne(r: Role, q: Role, value: Option<string>)
    requires Matches(r, value) && Matches(q, value)
    ensures r == q
  {
    assert |Name(ADMIN)| == 5 && |RoleValue(ADMIN)| == 10;
    assert |Name(CUSTOMER)| == 8 && |RoleValue(CUSTOMER)| == 13;
  }

  /** `fromString` yields exactly the constant whose name or value equals the
      string ignoring case, and fails for every other string. */
  lemma {:induction false} FromStringMatches(value: Option<string>, r: Role)
    ensures FromString(value) == Some(r) <==> Matches(r, value)
  {
    if Matches(r, value) {
      assert r == Values[0] || r == Values[1];
      match FromString(value)
      case Some(q) => MatchesAtMostOne(r, q, value);
      case None =>
    }
  }

  /** Each constant is found by its own name. */
  lemma NameRoundTrip(r: Role)
    ensures FromString(Some(Name(r))) == Some(r)
  {
    FoldSelf(Name(r));
    FromStringMatches(Some(Name(r)), r);
  }

  /** Each constant is found by its `ROLE_` value. */
  lemma RoleValueRoundTrip(r: Role)
    ensures FromString(Some(RoleValue(r))) == Some(r)
  {
    FoldSelf(RoleValue(r));
    FromStringMatches(Some(RoleValue(r)), r);
  }

  lemma FoldSelf(s: string)
    ensures EqualsIgnoreCase(s, s)
  {
  }

  /** Two strings equal ignoring case give the same answer. */
  lemma {:induction false} FromStringIgnoresCase(s: string, t: string)
    requires EqualsIgnoreCase(s, t)
    ensures FromString(Some(s)) == FromString(Some(t))
  {
    forall r: Role
      ensures Matches(r, Some(s)) <==> Matches(r, Some(t))
    {
    }
    match FromString(Some(s))
    case Some(r) =>
      FromStringMatches(Some(s), r);
      FromStringMatches(Some(t), r);
    case None =>
      match FromString(Some(t))
      case Some(q) =>
        FromStringMatches(Some(t), q);
        FromStringMatches(Some(s), q);
      case None =>
  }

  /** The lookup is case-insensitive: lower-case spellings are accepted. */
  lemma LowerCaseSpellings()
    ensures FromString(Some("admin")) == Some(ADMIN)
    ensures FromString(Some("role_customer")) == Some(CUSTOMER)
  {
    assert EqualsIgnoreCase(Name(ADMIN), "admin");
    FromStringMatches(Some("admin"), ADMIN);
    assert EqualsIgnoreCase(RoleValue(CUSTOMER), "role_customer");
    FromStringMatches(Some("role_customer"), CUSTOMER);
  }

  /** Null and the empty string name no role. */
  lemma NullAndEmptyRefused()
    ensures FromString(None) == None
    ensures FromString(Some("")) == None
  {
    assert |Name(ADMIN)| == 5 && |RoleValue(ADMIN)| == 10;
    assert |Name(CUSTOMER)| == 8 && |RoleValue(CUSTOMER)| == 13;
  }
}
