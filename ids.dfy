/** `crypto.randomUUID()` as an oracle: the n-th call hands out `FreshId(n)`. Callers thread the
    number of identifiers issued so far, so an identifier is never handed out twice. */
module Ids {
  import opened Strings

  /** The identifier the oracle hands out on its n-th call. */
  function FreshId(n: nat): (id: string)
    ensures id != []
  {
    "uuid-" + NatToString(n)
  }

  /** Different calls of the oracle give different identifiers. */
  lemma FreshIdInjective(m: nat, n: nat)
    ensures FreshId(m) == FreshId(n) ==> m == n
  {
    if FreshId(m) == FreshId(n) {
      assert FreshId(m)[5..] == NatToString(m);
      assert FreshId(n)[5..] == NatToString(n);
      NatToStringInjective(m, n);
    }
  }
}
