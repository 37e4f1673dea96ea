/**
 * The generator configuration (a plain value struct with default initialisers)
 * and its one behaviour, decoding the 64-bit channel mask into active channels.
 */
module Config {
  import opened Types

  datatype GeneratorConfig = GeneratorConfig(
    // event framing
    eventHeader: u16,
    eventFooter: u16,
    eventInfo: u8,
    startIndex: u32,
    packetSize: u16,        // advisory only, never compared with the real payload
    // channels
    channelMask: bv64,      // bit i set <==> channel i active
    numWindows: u8,         // 32-sample windows per channel per event
    // packet framing
    packetHeader: u16,
    packetFooter: u16,
    packetInfo: u8,
    // declared fill policy; no generator code reads these two
    randomizeSamples: bool,
    fixedSampleValue: u8)

  /** The default member initialisers of the struct. */
  const DefaultConfig: GeneratorConfig :=
    GeneratorConfig(0xBBBB, 0xEEEE, 0, 0, 80, 0x1, 1, 0xAAAA, 0xFFFF, 0, true, 0x55)

  /** Width of the channel mask, hence the number of addressable channels. */
  const MaskWidth: nat := 64

  /** Samples per window. */
  const WindowSamples: nat := 32

  /**
   * Bit k of m is set: the low bit of m after k single-bit right shifts, the
   * way the decoder inspects the mask.
   */
  predicate BitSet(m: bv64, k: nat)
  {
    if k == 0 then m & 1 == 1 else BitSet(m >> 1, k - 1)
  }

  /**
   * Positions i .. i + n - 1 whose bit is set, where m holds the mask already
   * shifted right i times.
   */
  function Scan(m: bv64, i: nat, n: nat): (r: seq<int>)
    decreases n
  {
    if n == 0 then []
    else (if m & 1 == 1 then [i] else []) + Scan(m >> 1, i + 1, n - 1)
  }

  /** The specification of active_channels: every set bit position of the 64. */
  function SetBits(mask: bv64): (r: seq<int>)
    ensures forall k :: 0 <= k < |r| ==> 0 <= r[k] < 64
  {
    ScanBounds(mask, 0, MaskWidth);
    Scan(mask, 0, MaskWidth)
  }

  /** All positions of set bits, as a set (no order involved). */
  function EnabledSet(mask: bv64): set<int>
  {
    set i: nat | i < 64 && BitSet(mask, i)
  }

  predicate StrictlyAscending(s: seq<int>)
  {
    forall i, j :: 0 <= i < j < |s| ==> s[i] < s[j]
  }

  /**
   * active_channels: shifts a copy of the mask right 64 times and appends i
   * whenever its low bit is set.
   */
  method ActiveChannels(config: GeneratorConfig) returns (channels: seq<int>)
    ensures channels == SetBits(config.channelMask)
  {
    channels := [];
    var mask := config.channelMask;
    for i := 0 to 64
      invariant channels + Scan(mask, i, 64 - i) == SetBits(config.channelMask)
    {
      ghost var rest := Scan(mask >> 1, i + 1, 64 - (i + 1));
      assert Scan(mask, i, 64 - i) == (if mask & 1 == 1 then [i] else []) + rest;
      if mask & 0x1 == 1 {
        assert (channels + [i]) + rest == channels + ([i] + rest);
        channels := channels + [i];
      }
      mask := mask >> 1;
    }
  }

  /** Membership, order, bounds and length of SetBits, in one place. */
  lemma SetBitsFacts(mask: bv64)
    ensures forall c :: c in SetBits(mask) <==> 0 <= c < 64 && BitSet(mask, c)
    ensures StrictlyAscending(SetBits(mask))
    ensures |SetBits(mask)| == |EnabledSet(mask)| <= 64
  {
    forall c ensures c in SetBits(mask) <==> 0 <= c < 64 && BitSet(mask, c) {
      ScanMembership(mask, 0, 64, c);
    }
    ScanAscending(mask, 0, 64);
    SetBitsLength(mask);
  }

  /** Position c is listed iff it lies in the scanned range and its bit is set. */
  lemma {:induction false} ScanMembership(m: bv64, i: nat, n: nat, c: int)
    ensures c in Scan(m, i, n) <==> i <= c < i + n && BitSet(m, c - i)
    decreases n
  {
    if n > 0 {
      ScanMembership(m >> 1, i + 1, n - 1, c);
    }
  }

  /** The listed positions are strictly ascending, hence free of duplicates. */
  lemma {:induction false} ScanAscending(m: bv64, i: nat, n: nat)
    ensures StrictlyAscending(Scan(m, i, n))
    decreases n
  {
    if n > 0 {
      ScanAscending(m >> 1, i + 1, n - 1);
      var rest := Scan(m >> 1, i + 1, n - 1);
      forall k | 0 <= k < |rest| ensures i < rest[k] {
        ScanMembership(m >> 1, i + 1, n - 1, rest[k]);
      }
    }
  }

  /** Every listed position lies in the scanned range. */
  lemma {:induction false} ScanBounds(m: bv64, i: nat, n: nat)
    decreases n
    ensures forall k :: 0 <= k < |Scan(m, i, n)| ==> i <= Scan(m, i, n)[k] < i + n
  {
    if n > 0 {
      ScanBounds(m >> 1, i + 1, n - 1);
    }
  }

  /** No more positions are listed than scanned. */
  lemma {:induction false} ScanLength(m: bv64, i: nat, n: nat)
    ensures |Scan(m, i, n)| <= n
    decreases n
  {
    if n > 0 {
      ScanLength(m >> 1, i + 1, n - 1);
    }
  }

  /** The number of active channels is the number of set bits, at most 64. */
  lemma SetBitsLength(mask: bv64)
    ensures |SetBits(mask)| == |EnabledSet(mask)| <= 64
  {
    var s := SetBits(mask);
    forall c ensures c in s <==> c in EnabledSet(mask) {
      ScanMembership(mask, 0, 64, c);
    }
    assert (set c | c in s) == EnabledSet(mask);
    ScanAscending(mask, 0, 64);
    AscendingCard(s);
    ScanLength(mask, 0, 64);
  }

  /** A strictly ascending sequence has as many distinct elements as entries. */
  lemma {:induction false} AscendingCard(s: seq<int>)
    requires StrictlyAscending(s)
    ensures |set x | x in s| == |s|
  {
    if s != [] {
      AscendingCard(s[1..]);
      assert (set x | x in s) == {s[0]} + (set x | x in s[1..]);
      assert s[0] !in (set x | x in s[1..]);
    }
  }

  /** Once the remaining mask is zero, nothing more is listed. */
  lemma {:induction false} ScanZero(i: nat, n: nat)
    ensures Scan(0, i, n) == []
    decreases n
  {
    if n > 0 {
      ScanZero(i + 1, n - 1);
    }
  }

  /** A zero mask yields no channels. */
  lemma EmptyMask()
    ensures SetBits(0) == []
  {
    ScanZero(0, 64);
  }

  /** The default mask 0x1 yields [0]; one window is the default. */
  lemma DefaultMaskChannels()
    ensures SetBits(DefaultConfig.channelMask) == [0]
    ensures DefaultConfig.numWindows == 1
  {
    ScanZero(1, 63);
  }

  /** The mask 0x3 yields [0, 1]. */
  lemma TwoChannelMask()
    ensures SetBits(0x3) == [0, 1]
  {
    ScanZero(2, 62);
  }
}
