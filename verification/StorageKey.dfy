/** The 16-byte RocksDB key of an entry: ledger id, then entry id, both big-endian. */
module StorageKey {
  import opened Bytes

  const PREFIX_LENGTH := 8

  function Key(ledgerId: int64, entryId: int64): (k: seq<byte>)
    ensures |k| == 16
  {
    BE64(ledgerId) + BE64(entryId)
  }

  function Prefix(ledgerId: int64): (p: seq<byte>)
    ensures |p| == PREFIX_LENGTH
  {
    BE64(ledgerId)
  }

  /** Keys compare as the pairs of ids read as unsigned words; in particular they are injective. */
  lemma KeyOrder(l1: int64, e1: int64, l2: int64, e2: int64)
    ensures LexLess(Key(l1, e1), Key(l2, e2))
       <==> U64(l1) < U64(l2) || (l1 == l2 && U64(e1) < U64(e2))
    ensures Key(l1, e1) == Key(l2, e2) <==> l1 == l2 && e1 == e2
  {
    Pow256Values();
    LexOrderIsNumeric(8, U64(l1), U64(l2));
    LexOrderIsNumeric(8, U64(e1), U64(e2));
    LexConcat(BE64(l1), BE64(l2), BE64(e1), BE64(e2));
    assert Key(l1, e1)[..8] == Prefix(l1) && Key(l1, e1)[8..] == BE64(e1);
    assert Key(l2, e2)[..8] == Prefix(l2) && Key(l2, e2)[8..] == BE64(e2);
  }

  predicate SignedLess(l1: int64, e1: int64, l2: int64, e2: int64) {
    l1 < l2 || (l1 == l2 && e1 < e2)
  }

  /** The key order is the signed order exactly when the first differing ids have the same sign. */
  lemma SignedOrderIff(l1: int64, e1: int64, l2: int64, e2: int64)
    requires l1 != l2 || e1 != e2
    ensures (LexLess(Key(l1, e1), Key(l2, e2)) <==> SignedLess(l1, e1, l2, e2))
       <==> if l1 != l2 then (l1 < 0) == (l2 < 0) else (e1 < 0) == (e2 < 0)
  {
    KeyOrder(l1, e1, l2, e2);
  }

  /** The 16-byte keys sharing a ledger's prefix are exactly its entries' keys, and exactly
      the closed interval from entry 0 to entry -1 (the largest unsigned id). */
  lemma LedgerIsOneRange(ledgerId: int64, k: seq<byte>)
    requires |k| == 16
    ensures k[..PREFIX_LENGTH] == Prefix(ledgerId)
       <==> !LexLess(k, Key(ledgerId, 0)) && !LexLess(Key(ledgerId, -1), k)
    ensures k[..PREFIX_LENGTH] == Prefix(ledgerId)
       <==> exists entryId: int64 :: k == Key(ledgerId, entryId)
  {
    Pow256Values();
    FromBERoundTrip(k[..8]);
    FromBERoundTrip(k[8..]);
    var l, e := S64(FromBE(k[..8])), S64(FromBE(k[8..]));
    assert k == Key(l, e);
    KeyOrder(l, e, ledgerId, 0);
    KeyOrder(ledgerId, -1, l, e);
    KeyOrder(l, e, ledgerId, e);
    forall x: int64 | k == Key(ledgerId, x)
      ensures k[..PREFIX_LENGTH] == Prefix(ledgerId)
    {
    }
    LexOrderIsNumeric(8, U64(l), U64(ledgerId));
  }
}
