/**
 * The part of the `jsonwebtoken` crate's `jwk` module that key resolution relies on:
 * a published key (`Jwk`), its algorithm-specific parameters and the key set (`JwkSet`).
 * `JwkSet::find` is not shown in the repository; it is modelled as "the first key, in
 * document order, whose `kid` is present and equal to the argument".
 */
module Jwks {
  import opened Wrappers

  /** Algorithm family of a key: RSA carries its published modulus and exponent
      (base64url text, not decoded here); every other family is `Other`. */
  datatype AlgorithmParameters = RSA(n: string, e: string) | Other

  /** One published key: an optional key identifier and its parameters. */
  datatype Jwk = Jwk(kid: Option<string>, algorithm: AlgorithmParameters)

  /** A whole JWKS document, in the order the provider published its keys. */
  datatype JwkSet = JwkSet(keys: seq<Jwk>)

  /** The index of the first key at or after `i` whose `kid` is `Some(kid)`. */
  function FindFrom(keys: seq<Jwk>, kid: string, i: nat): (r: Option<nat>)
    requires i <= |keys|
    ensures r.Some? ==> i <= r.value < |keys| && keys[r.value].kid == Some(kid)
    ensures r.Some? ==> forall j :: i <= j < r.value ==> keys[j].kid != Some(kid)
    ensures r.None? <==> forall j :: i <= j < |keys| ==> keys[j].kid != Some(kid)
    decreases |keys| - i
  {
    if i == |keys| then None
    else if keys[i].kid == Some(kid) then Some(i)
    else FindFrom(keys, kid, i + 1)
  }

  /** `JwkSet::find`: the first key whose `kid` equals `kid`, or `None`. */
  function Find(jwks: JwkSet, kid: string): (r: Option<Jwk>)
    ensures r.Some? ==> r.value in jwks.keys && r.value.kid == Some(kid)
    ensures r.None? <==> forall k :: k in jwks.keys ==> k.kid != Some(kid)
    ensures r.Some? ==> exists i :: 0 <= i < |jwks.keys| && jwks.keys[i] == r.value &&
                                    forall j :: 0 <= j < i ==> jwks.keys[j].kid != Some(kid)
  {
    match FindFrom(jwks.keys, kid, 0)
    case None => None
    case Some(i) => Some(jwks.keys[i])
  }

  /** The provider's guarantee that no two keys of one document share a `kid`. */
  ghost predicate UniqueKids(jwks: JwkSet)
  {
    forall i, j :: 0 <= i < j < |jwks.keys| && jwks.keys[i].kid.Some? ==> jwks.keys[i].kid != jwks.keys[j].kid
  }

  /** When kids are unique from `i` on, the search finds exactly the key carrying the kid.
      This follows from `FindFrom`'s first-match contract; the recursion only spells it out. */
  lemma {:induction false} FindFromUnique(keys: seq<Jwk>, kid: string, i: nat, m: nat)
    requires i <= m < |keys| && keys[m].kid == Some(kid)
    requires forall a, b :: i <= a < b < |keys| && keys[a].kid.Some? ==> keys[a].kid != keys[b].kid
    ensures FindFrom(keys, kid, i) == Some(m)
    decreases m - i
  {
    if i < m {
      assert keys[i].kid != keys[m].kid;
      FindFromUnique(keys, kid, i + 1, m);
    }
  }

  /** When kids are unique, looking up the kid of any key of the set yields exactly that key:
      fetching a set and resolving a kid known to be in it returns the identical record. */
  lemma FindReturnsMember(jwks: JwkSet, m: nat)
    requires UniqueKids(jwks) && m < |jwks.keys| && jwks.keys[m].kid.Some?
    ensures Find(jwks, jwks.keys[m].kid.value) == Some(jwks.keys[m])
  {
    FindFromUnique(jwks.keys, jwks.keys[m].kid.value, 0, m);
  }

  /** Without the uniqueness guarantee `Find` is still determined: the key at the first
      index carrying the kid is returned, and no later key with the same kid is tried. */
  lemma FindIsFirstMatch(jwks: JwkSet, kid: string, a: nat)
    requires a < |jwks.keys| && jwks.keys[a].kid == Some(kid)
    requires forall j :: 0 <= j < a ==> jwks.keys[j].kid != Some(kid)
    ensures Find(jwks, kid) == Some(jwks.keys[a])
  {
    var r := FindFrom(jwks.keys, kid, 0);
    assert r.Some? && r.value == a;
  }
}
