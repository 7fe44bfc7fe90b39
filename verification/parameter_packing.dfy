/**
 * Aerotech parameter identifiers pack a category and an index into one
 * 32-bit enumeration value, (category << 24) | index. The index occupies the
 * low 24 bits, so the pair is recovered by id >> 24 and id & 0xFFFFFF.
 */
module ParameterPacking {
  import opened CodeTables

  /** One more than the largest index: the index field is 24 bits wide. */
  const IndexSpan: nat := 0x100_0000

  /** The identifier (category << 24) | index, for an index below 2^24. */
  function Pack(category: nat, index: nat): (id: nat)
    requires index < IndexSpan
    ensures category * IndexSpan <= id < (category + 1) * IndexSpan
  {
    category * IndexSpan + index
  }

  /** id >> 24: the category field. */
  function Category(id: nat): nat
  {
    id / IndexSpan
  }

  /** id & 0xFFFFFF: the index field. */
  function Index(id: nat): (i: nat)
    ensures i < IndexSpan
  {
    id % IndexSpan
  }

  /** Unpacking a packed identifier gives back its category and index. */
  lemma UnpackPack(category: nat, index: nat)
    requires index < IndexSpan
    ensures Category(Pack(category, index)) == category
    ensures Index(Pack(category, index)) == index
  {
  }

  /** Every identifier is the packing of its own fields. */
  lemma PackUnpack(id: nat)
    ensures Pack(Category(id), Index(id)) == id
  {
  }

  /** Two identifiers are equal exactly when both their fields are. */
  lemma PackInjective(c1: nat, i1: nat, c2: nat, i2: nat)
    requires i1 < IndexSpan && i2 < IndexSpan
    ensures Pack(c1, i1) == Pack(c2, i2) <==> c1 == c2 && i1 == i2
  {
    UnpackPack(c1, i1);
    UnpackPack(c2, i2);
  }

  /**
   * Every identifier of a table that runs up from Pack(c, lo) to Pack(c, hi)
   * belongs to category c, with an index between lo and hi.
   */
  lemma InCategory(t: seq<int>, c: nat, lo: nat, hi: nat)
    requires Ascending(t) && |t| > 0 && lo <= hi < IndexSpan
    requires t[0] == Pack(c, lo) && t[|t| - 1] == Pack(c, hi)
    ensures forall k :: 0 <= k < |t| ==> Pack(c, lo) <= t[k] <= Pack(c, hi)
    ensures forall k :: 0 <= k < |t| ==> 0 <= t[k] && Category(t[k]) == c && lo <= Index(t[k]) <= hi
  {
    AscendingBounds(t);
    forall k | 0 <= k < |t|
      ensures 0 <= t[k] && Category(t[k]) == c && lo <= Index(t[k]) <= hi
    {
      UnpackPack(c, t[k] - c * IndexSpan);
    }
  }

  /**
   * On 32-bit words, for a category below 128 (the shift keeps it clear of
   * the sign bit) and an index below 2^24, the shift-and-or of the header is
   * the sum the model uses, and the two field extractions give the fields
   * back.
   */
  lemma ShiftOr(c: bv32, i: bv32)
    requires c < 0x80 && i < 0x100_0000
    ensures (c << 24) | i == c * 0x100_0000 + i
    ensures ((c << 24) | i) >> 24 == c
    ensures ((c << 24) | i) & 0xFF_FFFF == i
  {
  }
}
