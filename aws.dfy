/**
 * The two self-contained helpers of src/aws.rs: building an IAM role ARN and
 * looking up an EC2 tag's value by key. The rest of that file talks to the
 * cloud provider and is not part of this model.
 */
module Aws {
  import opened Wrappers

  const ARN_PREFIX: string := "arn:aws:iam::"
  const ROLE_MARKER: string := ":role/"

  /** `Arn::make_string`: the ARN of role `role` in account `account`. */
  function MakeArn(account: string, role: string): (arn: string)
    ensures |arn| == |ARN_PREFIX| + |account| + |ROLE_MARKER| + |role|
    ensures arn[..|ARN_PREFIX|] == ARN_PREFIX
    ensures arn[|ARN_PREFIX|..|ARN_PREFIX| + |account|] == account
    ensures arn[|ARN_PREFIX| + |account|..|ARN_PREFIX| + |account| + |ROLE_MARKER|] == ROLE_MARKER
    ensures arn[|arn| - |role|..] == role
  {
    ARN_PREFIX + account + ROLE_MARKER + role
  }

  /** The index of the first `:` in `s`, if any. */
  function ColonIndex(s: string): (r: Option<nat>)
    ensures r.None? ==> ':' !in s
    ensures r.Some? ==> r.value < |s| && s[r.value] == ':' && ':' !in s[..r.value]
    decreases |s|
  {
    if s == [] then None
    else if s[0] == ':' then Some(0)
    else
      match ColonIndex(s[1..])
      case None => None
      case Some(i) => Some(i + 1)
  }

  /**
   * Reads an account and a role back out of a role ARN: the account runs
   * from the prefix up to the first `:`, which must open `:role/`.
   */
  function ParseRoleArn(s: string): (r: Option<(string, string)>) {
    if |s| < |ARN_PREFIX| || s[..|ARN_PREFIX|] != ARN_PREFIX then None
    else
      var rest := s[|ARN_PREFIX|..];
      match ColonIndex(rest)
      case None => None
      case Some(i) =>
        var tail := rest[i..];
        if |tail| >= |ROLE_MARKER| && tail[..|ROLE_MARKER|] == ROLE_MARKER
        then Some((rest[..i], tail[|ROLE_MARKER|..]))
        else None
  }

  lemma {:induction false} ColonIndexAfter(a: string, b: string)
    requires ':' !in a && |b| > 0 && b[0] == ':'
    ensures ColonIndex(a + b) == Some(|a|)
  {
    if a != [] {
      assert (a + b)[1..] == a[1..] + b;
      ColonIndexAfter(a[1..], b);
    }
  }

  /** An ARN built from a colon-free account reads back as the account and role it came from. */
  lemma ArnRoundTrip(account: string, role: string)
    requires ':' !in account
    ensures ParseRoleArn(MakeArn(account, role)) == Some((account, role))
  {
    var s := MakeArn(account, role);
    var rest := s[|ARN_PREFIX|..];
    assert rest == account + (ROLE_MARKER + role);
    ColonIndexAfter(account, ROLE_MARKER + role);
    assert rest[|account|..] == ROLE_MARKER + role;
  }

  /** Whatever reads as a role ARN is the ARN of the account and role it reads as. */
  lemma ParsedArnRebuilds(s: string)
    requires ParseRoleArn(s).Some?
    ensures ':' !in ParseRoleArn(s).value.0
    ensures MakeArn(ParseRoleArn(s).value.0, ParseRoleArn(s).value.1) == s
  {
    var rest := s[|ARN_PREFIX|..];
    assert s == ARN_PREFIX + rest;
    var i := ColonIndex(rest).value;
    var tail := rest[i..];
    var account, role := rest[..i], tail[|ROLE_MARKER|..];
    assert ParseRoleArn(s) == Some((account, role));
    assert tail == ROLE_MARKER + role;
    assert rest == account + tail;
    assert s == ARN_PREFIX + account + ROLE_MARKER + role;
  }

  /** Different colon-free accounts, or different roles, give different ARNs. */
  lemma ArnInjective(a1: string, r1: string, a2: string, r2: string)
    requires ':' !in a1 && ':' !in a2
    requires MakeArn(a1, r1) == MakeArn(a2, r2)
    ensures a1 == a2 && r1 == r2
  {
    ArnRoundTrip(a1, r1);
    ArnRoundTrip(a2, r2);
  }

  /** An EC2 tag; the SDK leaves both members optional. */
  datatype Tag = Tag(key: Option<string>, value: Option<string>)

  /**
   * `extract_tag_by_key`: the value of the first tag whose key is `key`;
   * `None` when there are no tags or no tag has that key. A matching tag
   * without a value ends the search with `None`.
   */
  function ExtractTagByKey(tags: Option<seq<Tag>>, key: string): (r: Option<string>)
    ensures tags.None? ==> r.None?
    ensures tags.Some? && (forall i :: 0 <= i < |tags.value| ==> tags.value[i].key != Some(key)) ==> r.None?
    ensures tags.Some? ==> forall i ::
      (0 <= i < |tags.value| && tags.value[i].key == Some(key) &&
       forall j :: 0 <= j < i ==> tags.value[j].key != Some(key)) ==> r == tags.value[i].value
    decreases if tags.Some? then |tags.value| else 0
  {
    match tags
    case None => None
    case Some(ts) =>
      if ts == [] then None
      else if ts[0].key == Some(key) then ts[0].value
      else ExtractTagByKey(Some(ts[1..]), key)
  }

  /** Tags after the first match are never looked at. */
  lemma {:induction false} ExtractTagIgnoresLater(ts: seq<Tag>, later: seq<Tag>, key: string, i: nat)
    requires i < |ts| && ts[i].key == Some(key)
    ensures ExtractTagByKey(Some(ts + later), key) == ExtractTagByKey(Some(ts), key)
  {
    if ts[0].key != Some(key) {
      assert (ts + later)[1..] == ts[1..] + later;
      ExtractTagIgnoresLater(ts[1..], later, key, i - 1);
    }
  }
}
