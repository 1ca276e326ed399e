/** Routing of an item by its sort key `SK`. */
module Classifier {

  datatype Kind = CustomerKind | ProductKind | MetaKind | Ignored

  const CustomerPrefix: string := "CUSTOMER#"
  const ProductPrefix: string := "PRODUCT#"
  const MetaKey: string := "META"

  /** `p` is a prefix of `s`. */
  predicate HasPrefix(s: string, p: string) {
    |p| <= |s| && s[..|p|] == p
  }

  /** The `if / else if` chain on the sort key. Each kind is characterised on
      its own, so the order of the tests does not matter: no key has both
      prefixes, and the bare `META` key has neither. */
  function Classify(sk: string): (k: Kind)
    ensures k == CustomerKind <==> HasPrefix(sk, CustomerPrefix)
    ensures k == ProductKind <==> HasPrefix(sk, ProductPrefix)
    ensures k == MetaKind <==> sk == MetaKey
    ensures k == Ignored <==>
      !HasPrefix(sk, CustomerPrefix) && !HasPrefix(sk, ProductPrefix) && sk != MetaKey
  {
    if HasPrefix(sk, CustomerPrefix) then
      assert sk[0] == 'C';
      CustomerKind
    else if HasPrefix(sk, ProductPrefix) then ProductKind
    else if sk == MetaKey then MetaKind
    else Ignored
  }

  /** The boundaries of the routing: the prefixes include the `#`, and `META`
      must match exactly. */
  lemma ClassifyExamples()
    ensures Classify("CUSTOMER#1") == CustomerKind
    ensures Classify("PRODUCT#") == ProductKind
    ensures Classify("META") == MetaKind
    ensures Classify("CUSTOMER") == Ignored
    ensures Classify("META#x") == Ignored
    ensures Classify("meta") == Ignored
    ensures Classify("") == Ignored
  {
    assert "CUSTOMER#1"[..9] == CustomerPrefix;
    assert "META#x"[..4] == "META";
  }
}
