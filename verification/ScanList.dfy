/** Scan channel lists (protocol/scan_chlist.c): 64 bits in eight bytes, two rows
    of 32, and a table per band that says which channel a bit stands for. */
module ScanList {
  import opened Common

  const BAND_2_4: nat := 1
  const BAND_5: nat := 2
  const BAND_6: nat := 6
  const BITS: nat := 64

  type Bytes = l: seq<bv8> | |l| == 8 witness [0, 0, 0, 0, 0, 0, 0, 0]

  const ZERO: Bytes := [0, 0, 0, 0, 0, 0, 0, 0]

  // ---- Bits ------------------------------------------------------------------------

  /** Byte of bit `p`; rows are big-endian words, row A first. */
  function ByteOf(p: nat): (i: nat)
    requires p < BITS
    ensures i < 8
  {
    if p < 8 then 3 else if p < 16 then 2 else if p < 24 then 1 else if p < 32 then 0
    else if p < 40 then 7 else if p < 48 then 6 else if p < 56 then 5 else 4
  }

  /** row_set_bit computes it from the row and the bit within the row. */
  lemma ByteFormula(p: nat)
    requires p < BITS
    ensures ByteOf(p) == 4 * (p / 32) + 3 - (p % 32) / 8 && p % 32 % 8 == p % 8
  {
  }

  function Mask(k: nat): bv8
    requires k < 8
  {
    if k == 0 then 1 else if k == 1 then 2 else if k == 2 then 4 else if k == 3 then 8
    else if k == 4 then 16 else if k == 5 then 32 else if k == 6 then 64 else 128
  }

  /** Bit `k` of a byte counts from its least significant one. */
  lemma MaskIsShift(k: bv3)
    ensures Mask(k as nat) == (1 as bv8) << k
  {
  }

  predicate Has(x: bv8, k: nat)
    requires k < 8
  {
    x & Mask(k) != 0
  }

  predicate Bit(l: Bytes, p: nat)
    requires p < BITS
  {
    Has(l[ByteOf(p)], p % 8)
  }

  /** row_set_bit */
  function SetBit(l: Bytes, p: nat): Bytes
    requires p < BITS
  {
    l[ByteOf(p) := l[ByteOf(p)] | Mask(p % 8)]
  }

  lemma MaskSets(x: bv8, k: nat, j: nat)
    requires k < 8 && j < 8
    ensures Has(x | Mask(k), j) <==> j == k || Has(x, j)
  {
  }

  lemma SameByte(x: bv8, y: bv8)
    requires forall k :: 0 <= k < 8 ==> Has(x, k) == Has(y, k)
    ensures x == y
  {
    assert Has(x, 0) == Has(y, 0) && Has(x, 1) == Has(y, 1) && Has(x, 2) == Has(y, 2) && Has(x, 3) == Has(y, 3);
    assert Has(x, 4) == Has(y, 4) && Has(x, 5) == Has(y, 5) && Has(x, 6) == Has(y, 6) && Has(x, 7) == Has(y, 7);
  }

  lemma Placed(p: nat, q: nat)
    requires p < BITS && q < BITS && ByteOf(p) == ByteOf(q) && p % 8 == q % 8
    ensures p == q
  {
  }

  lemma SetBitIs(l: Bytes, p: nat, q: nat)
    requires p < BITS && q < BITS
    ensures Bit(SetBit(l, p), q) <==> q == p || Bit(l, q)
  {
    hide Mask, Has;
    if ByteOf(p) == ByteOf(q) {
      MaskSets(l[ByteOf(p)], p % 8, q % 8);
      if p % 8 == q % 8 { Placed(p, q); }
    }
  }

  /** Bit `k` of byte `i` is the bit at this position. */
  function Position(i: nat, k: nat): (p: nat)
    requires i < 8 && k < 8
    ensures p < BITS && ByteOf(p) == i && p % 8 == k
  {
    k + if i == 3 then 0 else if i == 2 then 8 else if i == 1 then 16 else if i == 0 then 24
        else if i == 7 then 32 else if i == 6 then 40 else if i == 5 then 48 else 56
  }

  lemma SameBits(l: Bytes, m: Bytes)
    requires forall p :: 0 <= p < BITS ==> Bit(l, p) == Bit(m, p)
    ensures l == m
  {
    hide Has;
    forall i | 0 <= i < 8 ensures l[i] == m[i] {
      forall k | 0 <= k < 8 ensures Has(l[i], k) == Has(m[i], k) {
        assert Bit(l, Position(i, k)) == Bit(m, Position(i, k));
      }
      SameByte(l[i], m[i]);
    }
  }

  lemma ZeroBits(p: nat)
    requires p < BITS
    ensures !Bit(ZERO, p)
  {
    assert ZERO[ByteOf(p)] == 0;
  }

  predicate Blank(l: Bytes) {
    forall i :: 0 <= i < 8 ==> l[i] == 0
  }

  lemma BlankIff(l: Bytes)
    ensures Blank(l) <==> l == ZERO
    ensures Blank(l) <==> forall p :: 0 <= p < BITS ==> !Bit(l, p)
  {
    forall p | 0 <= p < BITS ensures !Bit(ZERO, p) {
      ZeroBits(p);
    }
    if forall p :: 0 <= p < BITS ==> !Bit(l, p) {
      SameBits(l, ZERO);
    }
    if Blank(l) {
      assert l == ZERO;
    }
  }

  // ---- Channels -------------------------------------------------------------------------

  predicate Known(band: nat) {
    band == BAND_2_4 || band == BAND_5 || band == BAND_6
  }

  /** opc_scan_row_channel: the channel of bit `p`, 0 for an unassigned bit. */
  function Channel(band: nat, p: nat): nat
    requires p < BITS
  {
    if band == BAND_2_4 then (if p <= 13 then p + 1 else 0)
    else if band == BAND_5 then
      if p <= 7 then 36 + 4 * p
      else if p <= 19 then 100 + 4 * (p - 8)
      else if p <= 24 then 149 + 4 * (p - 20)
      else 0
    else if band == BAND_6 then
      if p < 32 then 1 + 4 * p else if p - 32 <= 26 then 129 + 4 * (p - 32) else 0
    else 0
  }

  /** Within a band channels rise with their bits. */
  lemma ChannelsRise(band: nat, p: nat, q: nat)
    requires p < q < BITS && Channel(band, p) != 0 && Channel(band, q) != 0
    ensures Channel(band, p) < Channel(band, q) < 256
  {
  }

  /** opc_scan_bit_for_channel: the first bit of the channel, from `p` on. */
  function Find(band: nat, ch: nat, p: nat): (r: Option<nat>)
    requires p <= BITS
    ensures r.Some? ==> p <= r.value < BITS && Channel(band, r.value) == ch
    ensures r.None? ==> forall q :: p <= q < BITS ==> Channel(band, q) != ch
    decreases BITS - p
  {
    if p == BITS then None else if Channel(band, p) == ch then Some(p) else Find(band, ch, p + 1)
  }

  predicate InTable(band: nat, ch: nat) {
    ch != 0 && exists p :: 0 <= p < BITS && Channel(band, p) == ch
  }

  /** The channels of each band, and how many of its first bits carry them. With
      ChannelsRise this fixes the table. */
  ghost predicate Listed(band: nat, ch: nat) {
    if band == BAND_2_4 then 1 <= ch <= 14
    else if band == BAND_5 then
      || ((36 <= ch <= 64 || 100 <= ch <= 144) && ch % 4 == 0)
      || ch in {149, 153, 157, 161, 165}
    else band == BAND_6 && 1 <= ch <= 233 && ch % 4 == 1
  }

  function Assigned(band: nat): nat {
    if band == BAND_2_4 then 14 else if band == BAND_5 then 25 else if band == BAND_6 then 59 else 0
  }

  lemma TableIs(band: nat, ch: nat, p: nat)
    requires p < BITS
    ensures InTable(band, ch) <==> Listed(band, ch)
    ensures Channel(band, p) != 0 <==> p < Assigned(band)
  {
    if Listed(band, ch) {
      var q := BitOf(band, ch);
      assert Channel(band, q) == ch;
    }
  }

  /** The bit of a listed channel. */
  ghost function BitOf(band: nat, ch: nat): (p: nat)
    requires Listed(band, ch)
    ensures p < BITS && Channel(band, p) == ch
  {
    if band == BAND_2_4 then ch - 1
    else if band == BAND_6 then (ch - 1) / 4
    else if ch <= 64 then (ch - 36) / 4
    else if ch <= 144 then 8 + (ch - 100) / 4
    else 20 + (ch - 149) / 4
  }

  lemma FindOf(band: nat, p: nat)
    requires p < BITS && Channel(band, p) != 0
    ensures Find(band, Channel(band, p), 0) == Some(p)
  {
    hide Find;
    var r := Find(band, Channel(band, p), 0);
    if r.value < p {
      ChannelsRise(band, r.value, p);
    } else if p < r.value {
      ChannelsRise(band, p, r.value);
    }
  }

  /** opc_scan_list_set_channel */
  function SetChannel(l: Bytes, band: nat, ch: nat): Bytes {
    var p := Find(band, ch, 0);
    if ch != 0 && p.Some? then SetBit(l, p.value) else l
  }

  /** opc_scan_list_valid: no bit without a channel. */
  ghost predicate Valid(band: nat, l: Bytes) {
    forall p :: 0 <= p < BITS && Bit(l, p) ==> Channel(band, p) != 0
  }

  /** opc_scan_list_channels from bit `p` on; an empty list means every channel. */
  function Collect(band: nat, l: Bytes, all: bool, p: nat): seq<nat>
    requires p <= BITS
    decreases BITS - p
  {
    if p == BITS then []
    else if Channel(band, p) != 0 && (all || Bit(l, p)) then [Channel(band, p)] + Collect(band, l, all, p + 1)
    else Collect(band, l, all, p + 1)
  }

  function Channels(band: nat, l: Bytes): seq<nat> {
    Collect(band, l, Blank(l), 0)
  }

  ghost predicate Ascending(s: seq<nat>) {
    forall i, j :: 0 <= i < j < |s| ==> s[i] < s[j]
  }

  /** Bit `p` contributes its channel. */
  predicate Picks(band: nat, l: Bytes, all: bool, p: nat)
    requires p < BITS
  {
    Channel(band, p) != 0 && (all || Bit(l, p))
  }

  lemma {:induction false} CollectIs(band: nat, l: Bytes, all: bool, p: nat)
    requires p <= BITS
    ensures forall q :: p <= q < BITS && Picks(band, l, all, q) ==> Channel(band, q) in Collect(band, l, all, p)
    ensures forall ch :: ch in Collect(band, l, all, p) ==>
              exists q :: p <= q < BITS && Picks(band, l, all, q) && Channel(band, q) == ch
    decreases BITS - p
  {
    hide Channel, Bit;
    if p < BITS {
      CollectIs(band, l, all, p + 1);
      forall ch | ch in Collect(band, l, all, p)
        ensures exists q :: p <= q < BITS && Picks(band, l, all, q) && Channel(band, q) == ch
      {
        if ch in Collect(band, l, all, p + 1) {
          var q :| p + 1 <= q < BITS && Picks(band, l, all, q) && Channel(band, q) == ch;
        } else {
          assert Picks(band, l, all, p) && Channel(band, p) == ch;
        }
      }
    }
  }

  lemma {:induction false} CollectAscending(band: nat, l: Bytes, all: bool, p: nat)
    requires p <= BITS
    ensures Ascending(Collect(band, l, all, p))
    decreases BITS - p
  {
    if p < BITS {
      CollectAscending(band, l, all, p + 1);
      CollectIs(band, l, all, p + 1);
      hide Bit;
      var t := Collect(band, l, all, p + 1);
      forall k | 0 <= k < |t| && Channel(band, p) != 0 ensures Channel(band, p) < t[k] {
        assert t[k] in t;
        var q :| p + 1 <= q < BITS && Picks(band, l, all, q) && Channel(band, q) == t[k];
        ChannelsRise(band, p, q);
      }
    }
  }

  // ---- Sets of channels and lists -----------------------------------------------------------

  function SetAll(l: Bytes, band: nat, chs: seq<nat>): Bytes {
    if chs == [] then l else SetChannel(SetAll(l, band, chs[..|chs| - 1]), band, chs[|chs| - 1])
  }

  /** A bit is set exactly when its channel was. */
  lemma {:induction false} SetAllBits(band: nat, chs: seq<nat>, p: nat)
    requires p < BITS
    ensures Bit(SetAll(ZERO, band, chs), p) <==> Channel(band, p) != 0 && Channel(band, p) in chs
  {
    hide Bit, SetBit, Find, Channel;
    if chs == [] {
      ZeroBits(p);
    } else {
      var n := |chs| - 1;
      var t, ch := chs[..n], chs[n];
      SetAllBits(band, t, p);
      assert chs == t + [ch];
      var r := Find(band, ch, 0);
      if ch != 0 && r.Some? {
        SetBitIs(SetAll(ZERO, band, t), r.value, p);
        if Channel(band, p) == ch { FindOf(band, p); }
      }
    }
  }

  /** Setting channels of the band's table, in any order and any number of times,
      gives a valid list that enumerates exactly those channels in ascending
      order. */
  lemma SetsEnumerate(band: nat, chs: seq<nat>)
    requires chs != [] && forall i :: 0 <= i < |chs| ==> InTable(band, chs[i])
    ensures var l := SetAll(ZERO, band, chs);
            && Valid(band, l) && Ascending(Channels(band, l))
            && (forall ch :: ch in Channels(band, l) <==> ch in chs)
  {
    var l := SetAll(ZERO, band, chs);
    forall p | 0 <= p < BITS
      ensures Bit(l, p) <==> Channel(band, p) != 0 && Channel(band, p) in chs
    {
      SetAllBits(band, chs, p);
    }
    BlankIff(l);
    CollectAscending(band, l, Blank(l), 0);
    CollectIs(band, l, Blank(l), 0);
    hide SetAll, Bit, Blank, Channel, Collect;
    assert chs[0] in chs && InTable(band, chs[0]);
    var p0 :| 0 <= p0 < BITS && Channel(band, p0) == chs[0];
    assert Bit(l, p0);
    forall ch | ch in chs ensures ch in Channels(band, l) {
      var i :| 0 <= i < |chs| && chs[i] == ch;
      assert InTable(band, chs[i]);
      var p :| 0 <= p < BITS && Channel(band, p) == ch;
      assert Picks(band, l, Blank(l), p);
    }
  }

  /** A valid list that names channels is rebuilt by setting the channels it
      enumerates. */
  lemma RebuildsList(band: nat, l: Bytes)
    requires Valid(band, l) && !Blank(l)
    ensures SetAll(ZERO, band, Channels(band, l)) == l
  {
    var chs := Channels(band, l);
    CollectIs(band, l, Blank(l), 0);
    hide Blank, Channel, Collect, Bit, SetAll;
    forall p | 0 <= p < BITS ensures Bit(SetAll(ZERO, band, chs), p) == Bit(l, p) {
      SetAllBits(band, chs, p);
      if Channel(band, p) in chs && Channel(band, p) != 0 {
        var q :| 0 <= q < BITS && Picks(band, l, Blank(l), q) && Channel(band, q) == Channel(band, p);
        FindOf(band, p);
        FindOf(band, q);
      }
    }
    SameBits(SetAll(ZERO, band, chs), l);
  }

  // ---- Rows ------------------------------------------------------------------------------

  /** opc_scan_list_normalize_rows: a 2.4 or 5 GHz list found in row B alone moves
      to row A. */
  function Normalize(band: nat, l: Bytes): (Bytes, bool) {
    if band != BAND_2_4 && band != BAND_5 then (l, false)
    else if l[..4] != [0, 0, 0, 0] || l[4..] == [0, 0, 0, 0] then (l, false)
    else (l[4..] + [0, 0, 0, 0], true)
  }

  lemma RowBits(l: Bytes, row: nat)
    requires row < 2
    ensures l[4 * row..4 * row + 4] == [0, 0, 0, 0] <==> forall p :: 32 * row <= p < 32 * row + 32 ==> !Bit(l, p)
  {
    hide Mask;
    var w := l[4 * row..4 * row + 4];
    if w == [0, 0, 0, 0] {
      forall p | 32 * row <= p < 32 * row + 32 ensures !Bit(l, p) {
        assert 4 * row <= ByteOf(p) < 4 * row + 4;
        assert l[ByteOf(p)] == w[ByteOf(p) - 4 * row] == 0;
      }
    } else {
      if forall p :: 32 * row <= p < 32 * row + 32 ==> !Bit(l, p) {
        forall i | 0 <= i < 4 ensures w[i] == 0 {
          forall k | 0 <= k < 8 ensures Has(l[4 * row + i], k) == Has(0, k) {
            assert !Bit(l, Position(4 * row + i, k));
          }
          SameByte(l[4 * row + i], 0);
        }
      }
    }
  }

  /** Every row-B bit reappears at the same place of row A and nothing else is
      set; doing it again changes nothing; the other lists are left alone. */
  lemma NormalizeMoves(band: nat, l: Bytes)
    ensures var (m, moved) := Normalize(band, l);
            && Normalize(band, m) == (m, false)
            && (moved ==> forall p :: 0 <= p < BITS ==> (Bit(m, p) <==> p < 32 && Bit(l, p + 32)))
            && (moved ==> forall p :: 0 <= p < 32 ==> !Bit(l, p))
            && (!moved ==> m == l)
  {
    var (m, moved) := Normalize(band, l);
    if moved {
      RowBits(l, 0);
      RowBits(m, 1);
      assert m[4..8] == [0, 0, 0, 0];
      assert l[0..4] == l[..4];
      forall p | 0 <= p < 32 ensures Bit(m, p) == Bit(l, p + 32) {
        hide Mask, Has;
        assert ByteOf(p + 32) == ByteOf(p) + 4 && (p + 32) % 8 == p % 8;
        assert m[ByteOf(p)] == l[ByteOf(p) + 4];
      }
    }
  }

  // ---- The derived channel -------------------------------------------------------------------

  /** opc_scan_channel_mhz */
  function Mhz(band: nat, ch: nat): nat
    requires Known(band)
  {
    if band == BAND_2_4 then (if ch == 14 then 2484 else 2407 + 5 * ch)
    else if band == BAND_5 then 5000 + 5 * ch
    else 5950 + 5 * ch
  }

  /** opc_scan_derive_freq_ch: frequency and channel field, or zeros. */
  function Derive(band: nat, l: Bytes): (nat, nat) {
    if !Known(band) || Blank(l) || Channels(band, l) == [] then (0, 0)
    else (Mhz(band, Channels(band, l)[0]), band % 256 * 256 + Channels(band, l)[0])
  }

  lemma Packs(band: nat, ch: nat)
    requires Known(band) && ch < 256
    ensures var f := band % 256 * 256 + ch; f % 256 == ch && f / 256 == band
  {
  }

  lemma SmallChannels(band: nat, p: nat)
    requires p < BITS
    ensures Channel(band, p) < 256
  {
  }

  /** A valid list that names channels enumerates at least one of them. */
  lemma FirstChannel(band: nat, l: Bytes)
    requires Valid(band, l) && !Blank(l)
    ensures Channels(band, l) != [] && Channels(band, l)[0] < 256
  {
    BlankIff(l);
    CollectIs(band, l, false, 0);
    hide Bit, Collect, Channel;
    var p :| 0 <= p < BITS && Bit(l, p);
    assert Picks(band, l, false, p);
    var chs := Channels(band, l);
    assert chs[0] in chs;
    var q :| 0 <= q < BITS && Picks(band, l, false, q) && Channel(band, q) == chs[0];
    SmallChannels(band, q);
  }

  /** For a valid list that names channels, the derived channel is the least. */
  lemma DerivesLeast(band: nat, l: Bytes)
    requires Known(band) && Valid(band, l) && !Blank(l)
    ensures Channels(band, l) != [] && Derive(band, l).1 % 256 == Channels(band, l)[0]
    ensures forall ch :: ch in Channels(band, l) ==> Channels(band, l)[0] <= ch
    ensures Derive(band, l).1 / 256 == band
    ensures var ch: int := Channels(band, l)[0];
            Derive(band, l).0 ==
              if band == BAND_2_4 then (if ch == 14 then 2484 else 2412 + 5 * (ch - 1))
              else if band == BAND_5 then 5180 + 5 * (ch - 36)
              else 5955 + 5 * (ch - 1)
  {
    FirstChannel(band, l);
    CollectAscending(band, l, Blank(l), 0);
    Packs(band, Channels(band, l)[0]);
    hide Bit, Collect, Blank;
  }

  // ---- The loops --------------------------------------------------------------------------

  /** opc_scan_list_channels: the channels, in the order of their bits. */
  method ListChannels(band: nat, l: Bytes) returns (out: seq<nat>)
    ensures out == if Known(band) then Channels(band, l) else []
  {
    hide Bit, Channel, Collect;
    out := [];
    if !Known(band) { return; }
    var all := Blank(l);
    var p := 0;
    while p < BITS
      invariant 0 <= p <= BITS && out + Collect(band, l, all, p) == Channels(band, l)
    {
      CollectStep(band, l, all, p);
      var ch := Channel(band, p);
      if ch != 0 && (all || Bit(l, p)) {
        assert out + ([ch] + Collect(band, l, all, p + 1)) == out + [ch] + Collect(band, l, all, p + 1);
        out := out + [ch];
      }
      p := p + 1;
    }
    CollectEnd(band, l, all);
  }

  lemma CollectStep(band: nat, l: Bytes, all: bool, p: nat)
    requires p < BITS
    ensures Collect(band, l, all, p) ==
              (if Channel(band, p) != 0 && (all || Bit(l, p)) then [Channel(band, p)] else []) +
              Collect(band, l, all, p + 1)
  {
    hide Bit, Channel;
  }

  lemma CollectEnd(band: nat, l: Bytes, all: bool)
    ensures Collect(band, l, all, BITS) == []
  {
  }

  /** opc_scan_list_set_channel on the bytes in place. */
  method SetInPlace(list: array<bv8>, band: nat, ch: nat)
    requires list.Length == 8
    modifies list
    ensures list[..] == SetChannel(old(list[..]), band, ch)
  {
    hide Channel, Mask;
    if ch == 0 || !Known(band) {
      NoChannel(band, ch);
      return;
    }
    var p := 0;
    while p < BITS && Channel(band, p) != ch
      invariant 0 <= p <= BITS && forall q :: 0 <= q < p ==> Channel(band, q) != ch
    {
      p := p + 1;
    }
    if p < BITS {
      FindFirst(band, ch, p);
      ByteFormula(p);
      var row, bit := p / 32, p % 32;
      var off := 4 * row + 3 - bit / 8;   // big-endian word
      list[off] := list[off] | Mask(bit % 8);
    }
  }

  lemma NoChannel(band: nat, ch: nat)
    requires ch == 0 || !Known(band)
    ensures ch != 0 ==> Find(band, ch, 0).None?
  {
    hide Find;
  }

  lemma FindFirst(band: nat, ch: nat, p: nat)
    requires ch != 0 && p < BITS && Channel(band, p) == ch && forall q :: 0 <= q < p ==> Channel(band, q) != ch
    ensures Find(band, ch, 0) == Some(p)
  {
    hide Find, Channel;
    var r := Find(band, ch, 0);
    if r.value > p {
      FindOf(band, p);
    }
  }
}
