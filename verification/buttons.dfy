/** The 16-bit button mask of the shared input record and the two stick-click
    bits the analog listeners own. The bit values are those of `LS_CLK_FLAG` and
    `RS_CLK_FLAG` in the protocol's `ControllerPacket` class; the proofs below use
    only that each is a single bit and that the two differ. */
module Buttons {

  /** `ControllerPacket.LS_CLK_FLAG`: left stick pressed in. */
  const LsClkFlag: bv16 := 0x0040

  /** `ControllerPacket.RS_CLK_FLAG`: right stick pressed in. */
  const RsClkFlag: bv16 := 0x0080

  /** `mask |= flag`: the flag's bits become set, every other bit is kept. */
  function SetFlag(mask: bv16, flag: bv16): (r: bv16)
    ensures r & flag == flag
    ensures r & !flag == mask & !flag
  {
    mask | flag
  }

  /** `mask &= ~flag`: the flag's bits become clear, every other bit is kept. */
  function ClearFlag(mask: bv16, flag: bv16): (r: bv16)
    ensures r & flag == 0
    ensures r & !flag == mask & !flag
  {
    mask & !flag
  }

  /** Setting or clearing a flag twice is the same as doing it once. */
  lemma FlagUpdatesIdempotent(mask: bv16, flag: bv16)
    ensures SetFlag(SetFlag(mask, flag), flag) == SetFlag(mask, flag)
    ensures ClearFlag(ClearFlag(mask, flag), flag) == ClearFlag(mask, flag)
  {
  }

  /** Setting the left click flag and clearing it again restores the mask exactly
      when the flag was clear to begin with. */
  lemma LsClickRoundTrip(mask: bv16)
    ensures ClearFlag(SetFlag(mask, LsClkFlag), LsClkFlag) == mask <==> mask & LsClkFlag == 0
  {
  }

  /** The same for the right click flag. */
  lemma RsClickRoundTrip(mask: bv16)
    ensures ClearFlag(SetFlag(mask, RsClkFlag), RsClkFlag) == mask <==> mask & RsClkFlag == 0
  {
  }

  /** The two click bits are single, distinct bits, so each stick's updates leave
      the other stick's click bit alone. */
  lemma ClickFlagsIndependent(mask: bv16)
    ensures LsClkFlag & RsClkFlag == 0
    ensures SetFlag(mask, LsClkFlag) & RsClkFlag == mask & RsClkFlag
    ensures ClearFlag(mask, LsClkFlag) & RsClkFlag == mask & RsClkFlag
    ensures SetFlag(mask, RsClkFlag) & LsClkFlag == mask & LsClkFlag
    ensures ClearFlag(mask, RsClkFlag) & LsClkFlag == mask & LsClkFlag
  {
  }

  /** Updates of the left click bit and of the right click bit commute, whichever
      of the two is set or cleared. */
  lemma SetsCommute(mask: bv16)
    ensures SetFlag(SetFlag(mask, LsClkFlag), RsClkFlag) == SetFlag(SetFlag(mask, RsClkFlag), LsClkFlag)
  {
    assert SetFlag(SetFlag(mask, LsClkFlag), RsClkFlag) == mask | 0x00C0;
    assert SetFlag(SetFlag(mask, RsClkFlag), LsClkFlag) == mask | 0x00C0;
  }

  lemma ClearLsSetRsCommute(mask: bv16)
    ensures SetFlag(ClearFlag(mask, LsClkFlag), RsClkFlag) == ClearFlag(SetFlag(mask, RsClkFlag), LsClkFlag)
  {
    assert SetFlag(ClearFlag(mask, LsClkFlag), RsClkFlag) == (mask & 0xFFBF) | 0x0080;
    assert ClearFlag(SetFlag(mask, RsClkFlag), LsClkFlag) == (mask | 0x0080) & 0xFFBF;
  }

  lemma SetLsClearRsCommute(mask: bv16)
    ensures ClearFlag(SetFlag(mask, LsClkFlag), RsClkFlag) == SetFlag(ClearFlag(mask, RsClkFlag), LsClkFlag)
  {
    assert ClearFlag(SetFlag(mask, LsClkFlag), RsClkFlag) == (mask | 0x0040) & 0xFF7F;
    assert SetFlag(ClearFlag(mask, RsClkFlag), LsClkFlag) == (mask & 0xFF7F) | 0x0040;
  }

  lemma ClearsCommute(mask: bv16)
    ensures ClearFlag(ClearFlag(mask, LsClkFlag), RsClkFlag) == ClearFlag(ClearFlag(mask, RsClkFlag), LsClkFlag)
  {
    ClearLsThenRs(mask);
    ClearRsThenLs(mask);
  }

  lemma ClearLsThenRs(mask: bv16)
    ensures ClearFlag(ClearFlag(mask, LsClkFlag), RsClkFlag) == mask & 0xFF3F
  {
  }

  lemma ClearRsThenLs(mask: bv16)
    ensures ClearFlag(ClearFlag(mask, RsClkFlag), LsClkFlag) == mask & 0xFF3F
  {
  }
}
