/** The composed `@ValidUUID` constraint (functions/city-data-function, annotations/ValidUUID.java):
    a `@Pattern` of five lower-case hexadecimal groups of 8, 4, 4, 4 and 12 digits joined by
    hyphens, matched against the whole string, reported as a single violation. */
module ValidUuid {
  import opened Common
  import opened BeanValidation

  /** The default message of `@ValidUUID`. */
  const DefaultMessage := "Invalid UUID"

  /** Digit counts of the groups in `[0-9a-f]{8}-[0-9a-f]{4}-[0-9a-f]{4}-[0-9a-f]{4}-[0-9a-f]{12}`. */
  const GroupLengths: seq<nat> := [8, 4, 4, 4, 12]

  /** The character class `[0-9a-f]`. */
  predicate IsLowerHex(c: char) {
    ('0' <= c <= '9') || ('a' <= c <= 'f')
  }

  predicate AllLowerHex(s: string) {
    forall i :: 0 <= i < |s| ==> IsLowerHex(s[i])
  }

  /** Whole-string match of hexadecimal groups of the given lengths joined by '-'. */
  predicate MatchesGroups(s: string, groups: seq<nat>)
    decreases |groups|
  {
    if |groups| == 0 then s == []
    else if |groups| == 1 then |s| == groups[0] && AllLowerHex(s)
    else
      |s| > groups[0] && AllLowerHex(s[..groups[0]]) && s[groups[0]] == '-'
      && MatchesGroups(s[groups[0] + 1..], groups[1..])
  }

  /** `String.matches` of the `@ValidUUID` regular expression. */
  predicate Matches(s: string) {
    MatchesGroups(s, GroupLengths)
  }

  /** Length of any string the groups match. */
  function Width(groups: seq<nat>): nat
    decreases |groups|
  {
    if |groups| == 0 then 0
    else if |groups| == 1 then groups[0]
    else groups[0] + 1 + Width(groups[1..])
  }

  /** Whether position `i` of a matching string holds a separating hyphen. */
  predicate SeparatorAt(groups: seq<nat>, i: int)
    decreases |groups|
  {
    |groups| > 1 && (i == groups[0] || (i > groups[0] && SeparatorAt(groups[1..], i - groups[0] - 1)))
  }

  /** Position-wise reading of a group pattern: the length is fixed, hyphens sit exactly at the
      separator positions, and every other character is a lower-case hexadecimal digit. */
  lemma {:induction false} MatchesGroupsIff(s: string, groups: seq<nat>)
    ensures MatchesGroups(s, groups) <==>
      |s| == Width(groups)
      && forall i :: 0 <= i < |s| ==> (if SeparatorAt(groups, i) then s[i] == '-' else IsLowerHex(s[i]))
    decreases |groups|
  {
    if |groups| >= 2 {
      var g := groups[0];
      var rest := groups[1..];
      if |s| > g {
        var t := s[g + 1..];
        MatchesGroupsIff(t, rest);
        assert forall j :: 0 <= j < |t| ==> t[j] == s[g + 1 + j];
        assert forall j :: 0 <= j < |t| ==> (SeparatorAt(groups, g + 1 + j) <==> SeparatorAt(rest, j));
        if MatchesGroups(s, groups) {
          forall i | 0 <= i < |s|
            ensures if SeparatorAt(groups, i) then s[i] == '-' else IsLowerHex(s[i])
          {
            if i < g {
              assert s[..g][i] == s[i];
            } else if i > g {
              assert s[i] == t[i - g - 1];
            }
          }
        }
        if |s| == Width(groups)
          && forall i :: 0 <= i < |s| ==> (if SeparatorAt(groups, i) then s[i] == '-' else IsLowerHex(s[i]))
        {
          assert SeparatorAt(groups, g);
          assert forall i :: 0 <= i < g ==> !SeparatorAt(groups, i);
          assert AllLowerHex(s[..g]) by {
            forall i | 0 <= i < g ensures IsLowerHex(s[..g][i]) {
              assert s[..g][i] == s[i];
            }
          }
          forall j | 0 <= j < |t|
            ensures if SeparatorAt(rest, j) then t[j] == '-' else IsLowerHex(t[j])
          {
            assert t[j] == s[g + 1 + j];
          }
        }
      }
    }
  }

  /** Hyphen positions of the `@ValidUUID` pattern. */
  predicate IsHyphenPosition(i: int) {
    i == 8 || i == 13 || i == 18 || i == 23
  }

  lemma UuidLayout()
    ensures Width(GroupLengths) == 36
    ensures forall i :: SeparatorAt(GroupLengths, i) <==> IsHyphenPosition(i)
  {
    assert GroupLengths[1..] == [4, 4, 4, 12];
    assert [4, 4, 4, 12][1..] == [4, 4, 12];
    assert [4, 4, 12][1..] == [4, 12];
    assert [4, 12][1..] == [12];
  }

  /** The pattern accepts exactly the 36-character strings with hyphens at 8, 13, 18 and 23
      and a lower-case hexadecimal digit everywhere else. */
  lemma MatchesIffCanonical(s: string)
    ensures Matches(s) <==>
      |s| == 36 && forall i :: 0 <= i < |s| ==> (if IsHyphenPosition(i) then s[i] == '-' else IsLowerHex(s[i]))
  {
    MatchesGroupsIff(s, GroupLengths);
    UuidLayout();
  }

  /** Upper-case hexadecimal digits are rejected anywhere in the string. */
  lemma UpperCaseRejected(s: string, i: int)
    requires 0 <= i < |s| && 'A' <= s[i] <= 'Z'
    ensures !Matches(s)
  {
    MatchesIffCanonical(s);
  }

  /** The version digit (position 14) and the variant digit (position 19) are not checked:
      any lower-case hexadecimal digit there keeps a match. */
  lemma VersionAndVariantUnchecked(s: string, version: char, variant: char)
    requires Matches(s) && IsLowerHex(version) && IsLowerHex(variant)
    ensures Matches(s[14 := version][19 := variant])
  {
    MatchesIffCanonical(s);
    MatchesIffCanonical(s[14 := version][19 := variant]);
  }

  /** A matching string already satisfies `@NotBlank` and `@NotEmpty`. */
  lemma MatchImpliesNotBlank(s: string)
    requires Matches(s)
    ensures NotBlankHolds(Some(s)) && NotEmptyHolds(Some(s))
  {
    MatchesIffCanonical(s);
    assert s[0] > ' ';
    TrimEmptyIff(s);
  }

  /** The violations `@ValidUUID` contributes, reported as one violation carrying the
      constraint's own message (the default, or the one the annotated component overrides). */
  function Violations(property: string, value: Option<string>, message: string): (r: set<Violation>)
    ensures |r| <= 1
    ensures r == {} <==> value.None? || Matches(value.value)
    ensures r != {} ==> r == {Violation(property, ValidUuid, message)}
  {
    Check(property, ValidUuid, message, value.None? || Matches(value.value))
  }

  /** A canonical identifier matches; the one position-wise check is written out so each
      fixture identifier below costs one small proof. */
  lemma CanonicalMatches(s: string)
    requires |s| == 36
    requires forall i :: 0 <= i < 36 && IsHyphenPosition(i) ==> s[i] == '-'
    requires forall i :: 0 <= i < 36 && !IsHyphenPosition(i) ==> IsLowerHex(s[i])
    ensures Matches(s)
  {
    MatchesIffCanonical(s);
  }

  /** The identifiers the function tests use: canonical ones match; a truncated one, an
      upper-case one and the empty string do not. */
  lemma FixtureIdentifiers()
    ensures Matches("a0ecb466-7ef5-47bf-a1ca-12f9f9328528")
    ensures Matches("a0ecb466-7ef5-47bf-a1ca-12f9f9328529")
    ensures Matches("a0ecb466-7ef5-47bf-a1ca-12f9f9328530")
    ensures !Matches("a0ecb466-7ef5-47bf")
    ensures !Matches("A0ECB466-7EF5-47BF-A1CA-12F9F9328528")
    ensures !Matches("")
    ensures !Matches("non-existing-id")
  {
    FixtureMatches("a0ecb466-7ef5-47bf-a1ca-12f9f9328528");
    FixtureMatches("a0ecb466-7ef5-47bf-a1ca-12f9f9328529");
    FixtureMatches("a0ecb466-7ef5-47bf-a1ca-12f9f9328530");
    MatchesIffCanonical("a0ecb466-7ef5-47bf");
    UpperCaseRejected("A0ECB466-7EF5-47BF-A1CA-12F9F9328528", 0);
    MatchesIffCanonical("");
    MatchesIffCanonical("non-existing-id");
  }

  /** The three positive fixture identifiers are one prefix followed by three decimal digits. */
  lemma FixtureMatches(s: string)
    requires s in {"a0ecb466-7ef5-47bf-a1ca-12f9f9328528", "a0ecb466-7ef5-47bf-a1ca-12f9f9328529",
                   "a0ecb466-7ef5-47bf-a1ca-12f9f9328530"}
    ensures Matches(s)
  {
    var prefix := "a0ecb466-7ef5-47bf-a1ca-12f9f9328";
    assert |prefix| == 33;
    assert s[..33] == prefix;
    forall i | 0 <= i < 36 && IsHyphenPosition(i) ensures s[i] == '-' {
      assert s[i] == prefix[i];
    }
    forall i | 0 <= i < 36 && !IsHyphenPosition(i) ensures IsLowerHex(s[i]) {
      if i < 33 { assert s[i] == prefix[i]; }
    }
    CanonicalMatches(s);
  }
}
