/** The `generate-uuid` tool: between 1 and 10 random version-4 UUIDs in the
    8-4-4-4-12 text form of RFC 4122 (section 4.4; RFC 9562 section 5.4). The
    16 random bytes of each UUID are an input of the model. */
module UuidTool {
  import opened Php
  import opened Text

  /** Byte 6 with the version field set: `(b & 0x0f) | 0x40`. The high
      nibble becomes 0100 (version 4) and the low nibble is kept. */
  function VersionByte(b: bv8): (r: bv8)
    ensures r >> 4 == 4
    ensures r & 0x0f == b & 0x0f
  {
    (b & 0x0f) | 0x40
  }

  /** Byte 8 with the variant field set: `(b & 0x3f) | 0x80`. The two top
      bits become 10 and the low six bits are kept. */
  function VariantByte(b: bv8): (r: bv8)
    ensures r >> 6 == 2
    ensures r & 0x3f == b & 0x3f
  {
    (b & 0x3f) | 0x80
  }

  /** The random bytes after the version and variant are stamped in. */
  function Stamp(data: seq<bv8>): (r: seq<bv8>)
    requires |data| == 16
    ensures |r| == 16
    ensures r[6] == VersionByte(data[6]) && r[8] == VariantByte(data[8])
    ensures forall i :: 0 <= i < 16 && i != 6 && i != 8 ==> r[i] == data[i]
  {
    data[6 := VersionByte(data[6])][8 := VariantByte(data[8])]
  }

  /** The two overwrites of `$data[6]` and `$data[8]`. */
  method StampInPlace(data: array<bv8>)
    requires data.Length == 16
    modifies data
    ensures data[..] == Stamp(old(data[..]))
  {
    data[6] := (data[6] & 0x0f) | 0x40;
    data[8] := (data[8] & 0x3f) | 0x80;
  }

  predicate IsHex(c: char)
  {
    '0' <= c <= '9' || 'a' <= c <= 'f'
  }

  /** The lower-case hex digit `bin2hex` writes for a nibble. */
  function HexDigit(n: nat): (c: char)
    requires n < 16
    ensures IsHex(c)
  {
    if n < 10 then ('0' as int + n) as char else ('a' as int + n - 10) as char
  }

  /** The nibble a lower-case hex digit stands for. */
  function HexValue(c: char): (n: nat)
    requires IsHex(c)
    ensures n < 16 && HexDigit(n) == c
  {
    if c <= '9' then c as int - '0' as int else c as int - 'a' as int + 10
  }

  function HighNibble(b: bv8): (n: nat)
    ensures n < 16
  {
    (b >> 4) as nat
  }

  function LowNibble(b: bv8): (n: nat)
    ensures n < 16
  {
    (b & 0x0f) as nat
  }

  /** A byte is its two nibbles put back together. */
  lemma Nibbles(b: bv8)
    ensures (HighNibble(b) * 16 + LowNibble(b)) as bv8 == b
  {
    assert HighNibble(b) * 16 + LowNibble(b) == b as int;
    assert (b as int) as bv8 == b;
  }

  lemma HexRoundTrip(n: nat)
    requires n < 16
    ensures HexValue(HexDigit(n)) == n
  {
  }

  /** `bin2hex`: two lower-case hex digits per byte, high nibble first. */
  function Bin2Hex(data: seq<bv8>): (h: string)
    ensures |h| == 2 * |data|
    ensures forall i :: 0 <= i < |data| ==>
      h[2 * i] == HexDigit(HighNibble(data[i])) && h[2 * i + 1] == HexDigit(LowNibble(data[i]))
  {
    if data == [] then ""
    else
      var last := data[|data| - 1];
      Bin2Hex(data[..|data| - 1]) + [HexDigit(HighNibble(last)), HexDigit(LowNibble(last))]
  }

  predicate AllHex(h: string)
  {
    forall i :: 0 <= i < |h| ==> IsHex(h[i])
  }

  /** The byte two hex digits stand for, the first one high. */
  function DigitPair(hi: char, lo: char): bv8
    requires IsHex(hi) && IsHex(lo)
  {
    (HexValue(hi) * 16 + HexValue(lo)) as bv8
  }

  lemma DigitPairOf(x: nat, y: nat)
    requires x < 16 && y < 16
    ensures DigitPair(HexDigit(x), HexDigit(y)) == (x * 16 + y) as bv8
  {
    HexRoundTrip(x);
    HexRoundTrip(y);
  }

  /** The bytes a string of hex digit pairs stands for: `hex2bin`. */
  function Hex2Bin(h: string): (data: seq<bv8>)
    requires |h| % 2 == 0 && AllHex(h)
    ensures |data| == |h| / 2
  {
    if h == [] then []
    else
      var n := |h|;
      assert IsHex(h[n - 2]) && IsHex(h[n - 1]);
      Hex2Bin(h[..n - 2]) + [DigitPair(h[n - 2], h[n - 1])]
  }

  /** Decoding a string with one more digit pair appends one byte. */
  lemma Hex2BinSnoc(h: string, hi: char, lo: char)
    requires |h| % 2 == 0 && AllHex(h) && IsHex(hi) && IsHex(lo)
    ensures AllHex(h + [hi, lo])
    ensures Hex2Bin(h + [hi, lo]) == Hex2Bin(h) + [DigitPair(hi, lo)]
  {
    var t := h + [hi, lo];
    forall i | 0 <= i < |t|
      ensures IsHex(t[i])
    {
      if i < |h| {
        assert t[i] == h[i];
      }
    }
    assert t[..|t| - 2] == h;
    assert t[|t| - 2] == hi && t[|t| - 1] == lo;
  }

  lemma {:induction false} Bin2HexIsHex(data: seq<bv8>)
    ensures AllHex(Bin2Hex(data))
  {
    if data != [] {
      var init := data[..|data| - 1];
      var last := data[|data| - 1];
      Bin2HexIsHex(init);
      var h := Bin2Hex(data);
      assert h == Bin2Hex(init) + [HexDigit(HighNibble(last)), HexDigit(LowNibble(last))];
      forall k | 0 <= k < |h| ensures IsHex(h[k]) {
        if k < |h| - 2 {
          assert h[k] == Bin2Hex(init)[k];
        }
      }
    }
  }

  /** The two digits written for a byte decode to that byte. */
  lemma ByteFromDigits(b: bv8)
    ensures DigitPair(HexDigit(HighNibble(b)), HexDigit(LowNibble(b))) == b
  {
    var x, y := HighNibble(b), LowNibble(b);
    DigitPairOf(x, y);
    Nibbles(b);
  }

  /** Encoding one more byte appends its two digits. */
  lemma Bin2HexSnoc(init: seq<bv8>, last: bv8)
    ensures Bin2Hex(init + [last]) == Bin2Hex(init) + [HexDigit(HighNibble(last)), HexDigit(LowNibble(last))]
  {
    assert (init + [last])[..|init|] == init;
  }

  /** `hex2bin(bin2hex($data)) == $data`. */
  lemma {:induction false} Hex2BinBin2Hex(data: seq<bv8>)
    ensures AllHex(Bin2Hex(data)) && Hex2Bin(Bin2Hex(data)) == data
  {
    Bin2HexIsHex(data);
    if data != [] {
      var init := data[..|data| - 1];
      var last := data[|data| - 1];
      assert data == init + [last];
      Bin2HexSnoc(init, last);
      Bin2HexIsHex(init);
      Hex2BinSnoc(Bin2Hex(init), HexDigit(HighNibble(last)), HexDigit(LowNibble(last)));
      ByteFromDigits(last);
      Hex2BinBin2Hex(init);
    }
  }

  /** `str_split($s, $n)` for a non-empty string. */
  function Chunks(s: string, n: nat): (parts: seq<string>)
    requires n > 0
    ensures |parts| >= 1
    ensures Concat(parts) == s
    decreases |s|
  {
    if |s| <= n then
      assert [s][..0] == [];
      [s]
    else
      var rest := Chunks(s[n..], n);
      ConcatAppend([s[..n]], rest);
      assert [s[..n]][..0] == [];
      [s[..n]] + rest
  }

  lemma ChunksOf32(h: string)
    requires |h| == 32
    ensures Chunks(h, 4) == [h[0..4], h[4..8], h[8..12], h[12..16], h[16..20], h[20..24], h[24..28], h[28..32]]
  {
    assert h[28..] == h[28..32];
    assert Chunks(h[28..], 4) == [h[28..32]];
    ChunksStep(h, 24);
    assert Chunks(h[24..], 4) == [h[24..28], h[28..32]];
    ChunksStep(h, 20);
    assert Chunks(h[20..], 4) == [h[20..24], h[24..28], h[28..32]];
    ChunksStep(h, 16);
    assert Chunks(h[16..], 4) == [h[16..20], h[20..24], h[24..28], h[28..32]];
    ChunksStep(h, 12);
    assert Chunks(h[12..], 4) == [h[12..16], h[16..20], h[20..24], h[24..28], h[28..32]];
    ChunksStep(h, 8);
    assert Chunks(h[8..], 4) == [h[8..12], h[12..16], h[16..20], h[20..24], h[24..28], h[28..32]];
    ChunksStep(h, 4);
    assert Chunks(h[4..], 4) == [h[4..8], h[8..12], h[12..16], h[16..20], h[20..24], h[24..28], h[28..32]];
    ChunksStep(h, 0);
    assert h[0..] == h;
  }

  lemma ChunksStep(h: string, k: nat)
    requires k + 4 < |h|
    ensures Chunks(h[k..], 4) == [h[k..k + 4]] + Chunks(h[k + 4..], 4)
  {
    assert h[k..][..4] == h[k..k + 4];
    assert h[k..][4..] == h[k + 4..];
  }

  /** `vsprintf('%s%s-%s-%s-%s-%s%s%s', $chunks)`. */
  function Layout(chunks: seq<string>): string
    requires |chunks| == 8
  {
    chunks[0] + chunks[1] + "-" + chunks[2] + "-" + chunks[3] + "-" + chunks[4] + "-" + chunks[5] + chunks[6] + chunks[7]
  }

  /** The text form of 16 bytes, as `generateUuid` builds it from `bin2hex`,
      `str_split` and `vsprintf`. */
  function Format(data: seq<bv8>): (s: string)
    requires |data| == 16
    ensures |s| == 36
  {
    var h := Bin2Hex(data);
    ChunksOf32(h);
    Layout(Chunks(h, 4))
  }

  /** `generateUuid` with `random_bytes(16)` given as `random`. */
  function Uuid(random: seq<bv8>): string
    requires |random| == 16
  {
    Format(Stamp(random))
  }

  /** Where hex digit j of `bin2hex` lands in the 8-4-4-4-12 text. */
  function TextIndex(j: nat): (i: nat)
    requires j < 32
    ensures i < 36 && i != 8 && i != 13 && i != 18 && i != 23
  {
    if j < 8 then j else if j < 12 then j + 1 else if j < 16 then j + 2 else if j < 20 then j + 3 else j + 4
  }

  /** The hex digit shown at a text position other than the four hyphens. */
  function HexOffset(i: nat): (j: nat)
    requires i < 36 && i != 8 && i != 13 && i != 18 && i != 23
    ensures j < 32 && TextIndex(j) == i
  {
    if i < 8 then i else if i < 13 then i - 1 else if i < 18 then i - 2 else if i < 23 then i - 3 else i - 4
  }

  /** The text is the 32 hex digits in groups of 8, 4, 4, 4 and 12, joined by hyphens. */
  lemma FormatLayout(data: seq<bv8>)
    requires |data| == 16
    ensures var s, h := Format(data), Bin2Hex(data);
      && s == h[..8] + "-" + h[8..12] + "-" + h[12..16] + "-" + h[16..20] + "-" + h[20..]
      && |s| == 36
      && s[8] == '-' && s[13] == '-' && s[18] == '-' && s[23] == '-'
      && (forall j :: 0 <= j < 32 ==> s[TextIndex(j)] == h[j])
      && Dehyphen(s) == h
  {
    var h := Bin2Hex(data);
    var a, b, c, d, e := h[..8], h[8..12], h[12..16], h[16..20], h[20..];
    FormatGroups(data);
    Regroup(h);
    GroupsAt(a, b, c, d, e);
    GroupsIndex(a, b, c, d, e);
  }

  /** `str_split` into eight groups of four, laid out by `vsprintf`. */
  lemma FormatGroups(data: seq<bv8>)
    requires |data| == 16
    ensures var h := Bin2Hex(data);
      Format(data) == h[..8] + "-" + h[8..12] + "-" + h[12..16] + "-" + h[16..20] + "-" + h[20..]
  {
    var h := Bin2Hex(data);
    ChunksOf32(h);
    assert h[0..4] + h[4..8] == h[..8];
    assert h[20..24] + h[24..28] + h[28..32] == h[20..];
  }

  lemma Regroup(h: string)
    requires |h| == 32
    ensures h[..8] + h[8..12] + h[12..16] + h[16..20] + h[20..] == h
  {
  }

  /** Digit j of the groups lands at text position `TextIndex(j)`. */
  lemma GroupsIndex(a: string, b: string, c: string, d: string, e: string)
    requires |a| == 8 && |b| == 4 && |c| == 4 && |d| == 4 && |e| == 12
    ensures var s, h := a + "-" + b + "-" + c + "-" + d + "-" + e, a + b + c + d + e;
      forall j :: 0 <= j < 32 ==> s[TextIndex(j)] == h[j]
  {
    var s, h := a + "-" + b + "-" + c + "-" + d + "-" + e, a + b + c + d + e;
    forall j | 0 <= j < 32 ensures s[TextIndex(j)] == h[j] {
      if j < 8 {
        assert s[j] == a[j] && h[j] == a[j];
      } else if j < 12 {
        assert s[j + 1] == b[j - 8] && h[j] == b[j - 8];
      } else if j < 16 {
        assert s[j + 2] == c[j - 12] && h[j] == c[j - 12];
      } else if j < 20 {
        assert s[j + 3] == d[j - 16] && h[j] == d[j - 16];
      } else {
        assert s[j + 4] == e[j - 20] && h[j] == e[j - 20];
      }
    }
  }

  /** The hex digits of a UUID text: the text without its four hyphens. */
  function Dehyphen(s: string): (h: string)
    requires |s| == 36
    ensures |h| == 32
  {
    s[..8] + s[9..13] + s[14..18] + s[19..23] + s[24..]
  }

  lemma GroupsAt(a: string, b: string, c: string, d: string, e: string)
    requires |a| == 8 && |b| == 4 && |c| == 4 && |d| == 4 && |e| == 12
    ensures var s := a + "-" + b + "-" + c + "-" + d + "-" + e;
      && |s| == 36
      && s[..8] == a && s[9..13] == b && s[14..18] == c && s[19..23] == d && s[24..] == e
      && Dehyphen(s) == a + b + c + d + e
  {
    var s := a + "-" + b + "-" + c + "-" + d + "-" + e;
    assert s[..8] == a;
    assert s[9..13] == b;
    assert s[14..18] == c;
    assert s[19..23] == d;
    assert s[24..] == e;
  }

  /** The 32 hex digits of a UUID text with the hyphens taken out, decoded. */
  function UuidBytes(s: string): (data: seq<bv8>)
    requires |s| == 36
    requires forall i :: 0 <= i < 36 && i != 8 && i != 13 && i != 18 && i != 23 ==> IsHex(s[i])
    ensures |data| == 16
  {
    var h := Dehyphen(s);
    assert AllHex(h) by {
      forall j | 0 <= j < 32 ensures IsHex(h[j]) {
        if j < 8 {
          assert h[j] == s[..8][j];
        } else if j < 12 {
          assert h[j] == s[9..13][j - 8];
        } else if j < 16 {
          assert h[j] == s[14..18][j - 12];
        } else if j < 20 {
          assert h[j] == s[19..23][j - 16];
        } else {
          assert h[j] == s[24..][j - 20];
        }
      }
    }
    Hex2Bin(h)
  }

  /** A well-formed version-4 UUID text: 36 characters, hyphens at 8, 13, 18
      and 23, lower-case hex elsewhere, version digit '4' at 14 and a variant
      digit in {8, 9, a, b} at 19. */
  predicate IsV4(s: string)
  {
    && |s| == 36
    && s[8] == '-' && s[13] == '-' && s[18] == '-' && s[23] == '-'
    && (forall i :: 0 <= i < 36 && i != 8 && i != 13 && i != 18 && i != 23 ==> IsHex(s[i]))
    && s[14] == '4'
    && s[19] in {'8', '9', 'a', 'b'}
  }

  /** Every position of the text other than the four hyphens holds a lower-case hex digit. */
  lemma FormatIsHex(data: seq<bv8>)
    requires |data| == 16
    ensures forall i :: 0 <= i < 36 && i != 8 && i != 13 && i != 18 && i != 23 ==> IsHex(Format(data)[i])
  {
    var s, h := Format(data), Bin2Hex(data);
    FormatLayout(data);
    Bin2HexIsHex(data);
    forall i | 0 <= i < 36 && i != 8 && i != 13 && i != 18 && i != 23
      ensures IsHex(s[i])
    {
      var j := HexOffset(i);
      assert s[i] == h[j];
    }
  }

  /** Text position 14 shows the high nibble of byte 6, position 19 that of byte 8. */
  lemma FormatVersionAndVariantDigits(data: seq<bv8>)
    requires |data| == 16
    ensures Format(data)[14] == HexDigit(HighNibble(data[6]))
    ensures Format(data)[19] == HexDigit(HighNibble(data[8]))
  {
    var h := Bin2Hex(data);
    FormatLayout(data);
    assert Format(data)[TextIndex(12)] == h[2 * 6];
    assert Format(data)[TextIndex(16)] == h[2 * 8];
  }

  /** Every generated UUID has the version-4 shape: hyphens at 8, 13, 18
      and 23, lower-case hex elsewhere, '4' at 14 and one of 8, 9, a, b at 19. */
  lemma UuidIsV4(random: seq<bv8>)
    requires |random| == 16
    ensures IsV4(Uuid(random))
  {
    var data := Stamp(random);
    FormatLayout(data);
    FormatIsHex(data);
    FormatVersionAndVariantDigits(data);
    assert HighNibble(data[6]) == 4;
    assert 8 <= HighNibble(data[8]) <= 11 by {
      assert data[8] >> 6 == 2;
    }
  }

  /** Decoding the hex digits of a generated UUID gives back the random
      bytes, unchanged except for the version nibble of byte 6 and the two
      variant bits of byte 8. */
  lemma UuidRoundTrip(random: seq<bv8>)
    requires |random| == 16
    ensures IsV4(Uuid(random)) && UuidBytes(Uuid(random)) == Stamp(random)
    ensures forall i :: 0 <= i < 16 && i != 6 && i != 8 ==> UuidBytes(Uuid(random))[i] == random[i]
    ensures UuidBytes(Uuid(random))[6] >> 4 == 4 && UuidBytes(Uuid(random))[6] & 0x0f == random[6] & 0x0f
    ensures UuidBytes(Uuid(random))[8] >> 6 == 2 && UuidBytes(Uuid(random))[8] & 0x3f == random[8] & 0x3f
  {
    var data := Stamp(random);
    UuidIsV4(random);
    FormatLayout(data);
    Hex2BinBin2Hex(data);
  }

  /** `generateUuid`: the random bytes are copied into a buffer, stamped in
      place and written out. */
  method GenerateUuid(random: seq<bv8>) returns (uuid: string)
    requires |random| == 16
    ensures uuid == Uuid(random)
    ensures IsV4(uuid)
  {
    var data := new bv8[16](i requires 0 <= i < 16 => random[i]);
    assert data[..] == random;
    StampInPlace(data);
    uuid := Format(data[..]);
    UuidIsV4(random);
  }

  /** `max(1, min(10, (int)($arguments['count'] ?? 1)))`. */
  function EffectiveCount(count: Option<int>): (n: nat)
    ensures 1 <= n <= 10
    ensures count.None? ==> n == 1
    ensures count.Some? && 1 <= count.value <= 10 ==> n == count.value
    ensures count.Some? && count.value < 1 ==> n == 1
    ensures count.Some? && count.value > 10 ==> n == 10
  {
    Max(1, Min(10, OrElse(count, 1)))
  }

  /** The tool's text for the generated UUIDs: the UUID alone, or a header
      line and one UUID per line. */
  function Report(uuids: seq<string>): string
    requires |uuids| >= 1
  {
    if |uuids| == 1 then uuids[0] else Header(|uuids|) + "\n" + Join(uuids, "\n")
  }

  /** The UUIDs generated from the first n draws, in draw order. */
  function Generated(random: seq<seq<bv8>>, n: nat): (uuids: seq<string>)
    requires n <= |random|
    requires forall i :: 0 <= i < |random| ==> |random[i]| == 16
    ensures |uuids| == n
  {
    seq(n, i requires 0 <= i < n => Uuid(random[i]))
  }

  /** The loop of `execute`: one `generateUuid` call per draw, collected in order. */
  method GenerateAll(n: nat, random: seq<seq<bv8>>) returns (uuids: seq<string>)
    requires n <= |random|
    requires forall i :: 0 <= i < |random| ==> |random[i]| == 16
    ensures uuids == Generated(random, n)
  {
    uuids := [];
    var i := 0;
    while i < n
      invariant 0 <= i <= n
      invariant uuids == Generated(random, i)
    {
      var uuid := GenerateUuid(random[i]);
      assert Generated(random, i + 1) == Generated(random, i) + [Uuid(random[i])];
      uuids := uuids + [uuid];
      i := i + 1;
    }
  }

  /** `execute`: `random[i]` is what `random_bytes(16)` returns in the i-th
      call to `generateUuid`. */
  method Execute(count: Option<int>, random: seq<seq<bv8>>) returns (out: string)
    requires EffectiveCount(count) <= |random|
    requires forall i :: 0 <= i < |random| ==> |random[i]| == 16
    ensures out == Report(Generated(random, EffectiveCount(count)))
  {
    var n := EffectiveCount(count);
    var uuids := GenerateAll(n, random);
    if n == 1 {
      out := uuids[0];
    } else {
      out := Header(n) + "\n" + Join(uuids, "\n");
    }
  }

  function Header(n: nat): string
  {
    "Generated " + Dec(n) + " UUIDs:"
  }

  /** For several UUIDs without line breaks, the report's lines are the
      header line followed by the UUIDs in order. */
  lemma ReportSplit(uuids: seq<string>)
    requires |uuids| > 1
    requires forall i :: 0 <= i < |uuids| ==> '\n' !in uuids[i]
    ensures SplitOn(Report(uuids), '\n') == [Header(|uuids|)] + uuids
  {
    var lines := [Header(|uuids|)] + uuids;
    HeaderHasNoNewline(|uuids|);
    assert forall i :: 0 <= i < |lines| ==> '\n' !in lines[i] by {
      forall i | 0 <= i < |lines| ensures '\n' !in lines[i] {
        if i > 0 {
          assert lines[i] == uuids[i - 1];
        }
      }
    }
    JoinCons(Header(|uuids|), uuids, "\n");
    SplitJoin(lines, '\n');
  }

  /** With a count of 1 the text is the bare UUID; otherwise its lines are
      the header line followed by exactly `count` UUIDs, in draw order. */
  lemma ReportLines(count: Option<int>, random: seq<seq<bv8>>)
    requires EffectiveCount(count) <= |random|
    requires forall i :: 0 <= i < |random| ==> |random[i]| == 16
    ensures var n, out := EffectiveCount(count), Report(Generated(random, EffectiveCount(count)));
      && (n == 1 ==> out == Uuid(random[0]) && IsV4(out))
      && (n > 1 ==> SplitOn(out, '\n') == [Header(n)] + Generated(random, n))
  {
    var n := EffectiveCount(count);
    var uuids := Generated(random, n);
    if n == 1 {
      UuidIsV4(random[0]);
    } else {
      forall i | 0 <= i < n ensures '\n' !in uuids[i] {
        NoNewline(random[i]);
      }
      ReportSplit(uuids);
    }
  }

  lemma NoNewline(random: seq<bv8>)
    requires |random| == 16
    ensures '\n' !in Uuid(random)
  {
    var s := Uuid(random);
    UuidIsV4(random);
    forall i | 0 <= i < |s| ensures s[i] != '\n' {
      if i != 8 && i != 13 && i != 18 && i != 23 {
        assert IsHex(s[i]);
      }
    }
  }

  lemma HeaderHasNoNewline(n: nat)
    ensures '\n' !in Header(n)
  {
    var d := Dec(n);
    var s := Header(n);
    forall i | 0 <= i < |s| ensures s[i] != '\n' {
      if 10 <= i < 10 + |d| {
        assert s[i] == d[i - 10];
        assert IsDigit(d[i - 10]);
      }
    }
  }
}
