/**
 * Motion-in-progress (MIP) bits of the motor record and the record fields
 * that the retry and deadband rules read and write.
 */
module MipFlags {

  type Mip = bv16

  const DONE: Mip := 0x0000
  const JOGF: Mip := 0x0001
  const JOGR: Mip := 0x0002
  const JOG_BL: Mip := 0x0004
  const JOG: Mip := JOGF | JOGR | JOG_BL
  const HOMF: Mip := 0x0008
  const HOMR: Mip := 0x0010
  const HOME: Mip := HOMF | HOMR
  const MOVE: Mip := 0x0020
  const RETRY: Mip := 0x0040
  const LOAD_P: Mip := 0x0080
  const LOAD_ER: Mip := 0x0100
  const STOP: Mip := 0x0200
  const DELAY_REQ: Mip := 0x0400
  const DELAY_ACK: Mip := 0x0800
  const DELAY: Mip := DELAY_REQ | DELAY_ACK
  const JOG_REQ: Mip := 0x1000
  const JOG_STOP: Mip := 0x2000

  /** Every single-motion bit, in the order of its bit index. */
  const SingleBits: seq<Mip> :=
    [JOGF, JOGR, JOG_BL, HOMF, HOMR, MOVE, RETRY, LOAD_P, LOAD_ER, STOP,
     DELAY_REQ, DELAY_ACK, JOG_REQ, JOG_STOP]

  /**
   * Each single-motion bit is 1 shifted by its position in SingleBits, so
   * the bits are distinct powers of two and no two of them overlap.
   */
  lemma SingleBitsLayout()
    ensures |SingleBits| == 14
    ensures forall k :: 0 <= k < |SingleBits| ==> SingleBits[k] == (1 as Mip) << k
    ensures forall i, j :: 0 <= i < j < |SingleBits| ==> SingleBits[i] & SingleBits[j] == 0
  {
  }

  /**
   * The compound masks are the unions of their single bits and of nothing
   * else: JOG of the first three, HOME of the next two, DELAY of the two
   * delay bits.
   */
  lemma CompoundMasks()
    ensures forall k :: 0 <= k < |SingleBits| ==> (SingleBits[k] & JOG != 0 <==> k < 3)
    ensures forall k :: 0 <= k < |SingleBits| ==> (SingleBits[k] & HOME != 0 <==> k == 3 || k == 4)
    ensures forall k :: 0 <= k < |SingleBits| ==> (SingleBits[k] & DELAY != 0 <==> k == 10 || k == 11)
    ensures JOG & HOME == 0 && JOG & DELAY == 0 && HOME & DELAY == 0
  {
  }

  /** The mipClrBit helper: clear the bits of v. */
  function ClearBits(mip: Mip, v: Mip): (r: Mip)
    ensures r & v == 0
    ensures r | (mip & v) == mip
  {
    mip & !v
  }

  /** The state-set bits of a word other than JOG_REQ are all clear. */
  predicate OnlyJogRequest(mip: Mip)
  {
    mip & !JOG_REQ == 0
  }

  /** SPMG: the stop/pause/move/go switch. */
  datatype Spmg = Stop | Pause | Move | Go

  /** VAL / DVAL / RVAL, the user, dial and raw target of a move. */
  datatype Targets = Targets(val: real, dval: real, rval: int)
}
