/** `ArtifactType`: the kinds of artifact the shell generates, and the lookup
    of a kind from a free-text token. */
module ArtifactTypes {
  import opened Common

  datatype ArtifactType = APP | MODULE

  /** `name()`: the member's identifier. */
  function Name(t: ArtifactType): string {
    match t
    case APP => "APP"
    case MODULE => "MODULE"
  }

  /** `values()`: the members in declaration order. */
  const Values: seq<ArtifactType> := [APP, MODULE]

  /** `ordinal()`: the member's position in declaration order. */
  function Ordinal(t: ArtifactType): (i: nat)
    ensures i < |Values| && Values[i] == t
  {
    match t
    case APP => 0
    case MODULE => 1
  }

  predicate IsLowerAscii(c: char) {
    'a' <= c <= 'z'
  }

  /** Upper-casing of one character, restricted to ASCII letters. */
  function UpperChar(c: char): char {
    if IsLowerAscii(c) then (c as int - 32) as char else c
  }

  /** `String.toUpperCase` on ASCII: every character mapped by UpperChar. */
  function ToUpperCase(s: string): (r: string)
    ensures |r| == |s|
    ensures forall i :: 0 <= i < |s| ==> r[i] == UpperChar(s[i])
  {
    if s == [] then [] else [UpperChar(s[0])] + ToUpperCase(s[1..])
  }

  /** The match test of the lookup: the member's name equals, or starts with,
      the upper-cased token. The equality test adds nothing to the startsWith
      test: a member matches exactly when the token is a prefix of its name. */
  predicate Matches(t: ArtifactType, upperCaseName: string): (r: bool)
    ensures r <==> upperCaseName <= Name(t)
  {
    Name(t) == upperCaseName || upperCaseName <= Name(t)
  }

  /** The first member at position `i` or later whose name matches. */
  function FirstMatchFrom(upperCaseName: string, i: nat): (r: Option<ArtifactType>)
    requires i <= |Values|
    ensures r.Some? ==> i <= Ordinal(r.value) && Matches(r.value, upperCaseName)
    ensures r.Some? ==> forall j :: i <= j < Ordinal(r.value) ==> !Matches(Values[j], upperCaseName)
    ensures r.None? <==> forall j :: i <= j < |Values| ==> !Matches(Values[j], upperCaseName)
    decreases |Values| - i
  {
    if i == |Values| then None
    else if Matches(Values[i], upperCaseName) then Some(Values[i])
    else FirstMatchFrom(upperCaseName, i + 1)
  }

  /** What `byName(name)` returns: the first member in declaration order that
      matches the upper-cased name, or absent (`null`). */
  function Resolve(name: string): (r: Option<ArtifactType>)
    ensures r.Some? ==> Matches(r.value, ToUpperCase(name))
    ensures r.Some? ==> forall j :: 0 <= j < Ordinal(r.value) ==> !Matches(Values[j], ToUpperCase(name))
    ensures r.None? <==> forall t :: !Matches(t, ToUpperCase(name))
  {
    assert forall t :: Values[Ordinal(t)] == t;
    FirstMatchFrom(ToUpperCase(name), 0)
  }

  /** `ArtifactType.byName`: the scan over `values()` with an early return. */
  method ByName(name: string) returns (r: Option<ArtifactType>)
    ensures r == Resolve(name)
    ensures r.Some? ==> Matches(r.value, ToUpperCase(name))
    ensures r.Some? ==> forall j :: 0 <= j < Ordinal(r.value) ==> !Matches(Values[j], ToUpperCase(name))
    ensures r.None? <==> forall t :: !Matches(t, ToUpperCase(name))
  {
    var upperCaseName := ToUpperCase(name);
    var i := 0;
    while i < |Values|
      invariant 0 <= i <= |Values|
      invariant FirstMatchFrom(upperCaseName, i) == Resolve(name)
    {
      var next := Values[i];
      if Name(next) == upperCaseName || upperCaseName <= Name(next) {
        r := Some(next);
        return;
      }
      i := i + 1;
    }
    r := None;
  }

  // ---------------------------------------------------------------------
  // Properties of the lookup

  /** The complete answer of the lookup, in terms of prefixes of the two names:
      APP whenever the upper-cased token is a prefix of "APP" (the empty token
      included), MODULE when it is a non-empty prefix of "MODULE", absent
      otherwise. */
  lemma ResolveCharacterized(name: string)
    ensures Resolve(name) == Some(APP) <==> ToUpperCase(name) <= "APP"
    ensures Resolve(name) == Some(MODULE) <==> ToUpperCase(name) != "" && ToUpperCase(name) <= "MODULE"
    ensures Resolve(name) == None <==> !(ToUpperCase(name) <= "APP") && !(ToUpperCase(name) <= "MODULE")
  {
    var u := ToUpperCase(name);
    if u != "" && u <= "MODULE" {
      assert u[0] == 'M';
      assert !(u <= "APP") by { assert "APP"[0] == 'A'; }
    }
  }

  /** An exact member name, in any letter case, resolves to that member. */
  lemma ExactNameResolves(name: string, t: ArtifactType)
    requires ToUpperCase(name) == Name(t)
    ensures Resolve(name) == Some(t)
  {
    ResolveCharacterized(name);
  }

  /** A non-empty prefix of a member name, in any letter case, resolves to
      that member. */
  lemma NonEmptyPrefixResolves(name: string, t: ArtifactType)
    requires name != [] && ToUpperCase(name) <= Name(t)
    ensures Resolve(name) == Some(t)
  {
    ResolveCharacterized(name);
  }

  /** The empty token is a prefix of every name, so the first member wins. */
  lemma EmptyResolvesToApp()
    ensures Resolve("") == Some(APP)
  {
    ResolveCharacterized("");
  }

  /** The lookup is absent exactly when the upper-cased token is a prefix of
      neither name. */
  lemma AbsentIffNoPrefix(name: string)
    ensures Resolve(name).None? <==> forall t :: !(ToUpperCase(name) <= Name(t))
  {
    ResolveCharacterized(name);
    assert Name(APP) == "APP" && Name(MODULE) == "MODULE";
  }

  /** Two tokens that differ only in the case of ASCII letters resolve alike. */
  lemma CaseInsensitive(a: string, b: string)
    requires |a| == |b|
    requires forall i :: 0 <= i < |a| ==> UpperChar(a[i]) == UpperChar(b[i])
    ensures Resolve(a) == Resolve(b)
  {
    assert ToUpperCase(a) == ToUpperCase(b);
  }

  /** Upper-casing leaves no lower-case ASCII letter and is idempotent. */
  lemma ToUpperCaseNormalizes(s: string)
    ensures forall i :: 0 <= i < |s| ==> !IsLowerAscii(ToUpperCase(s)[i])
    ensures ToUpperCase(ToUpperCase(s)) == ToUpperCase(s)
  {
    var u := ToUpperCase(s);
    assert forall i :: 0 <= i < |u| ==> UpperChar(u[i]) == u[i];
  }

  /** Whole names in any letter case. */
  lemma ExamplesExactNames()
    ensures Resolve("module") == Some(MODULE)
    ensures Resolve("App") == Some(APP)
  {
    assert ToUpperCase("module") == "MODULE";
    assert ToUpperCase("App") == "APP";
    ExactNameResolves("module", MODULE);
    ExactNameResolves("App", APP);
  }

  /** Short prefixes in lower case. */
  lemma ExamplesPrefixes()
    ensures Resolve("a") == Some(APP)
    ensures Resolve("mod") == Some(MODULE)
  {
    assert ToUpperCase("a") == "A";
    assert ToUpperCase("mod") == "MOD";
    NonEmptyPrefixResolves("a", APP);
    NonEmptyPrefixResolves("mod", MODULE);
  }

  /** Tokens that extend a name, or match nothing, resolve to absent. */
  lemma ExamplesAbsent()
    ensures Resolve("appx") == None
    ensures Resolve("nonexistent") == None
  {
    assert ToUpperCase("appx") == "APPX";
    assert ToUpperCase("nonexistent")[0] == 'N';
    ResolveCharacterized("appx");
    ResolveCharacterized("nonexistent");
  }
}
