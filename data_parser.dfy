/**
 * Byte/integer conversion, register value parsing and memory-dump grouping
 * (utils/data_parser.py).
 *
 * Byte strings are little-endian.  `BytesToInt` and `IntToBytes` are the
 * specifications; `BytesToIntFallback` and `IntToBytesFallback` are the
 * manual loops the source falls back to, proved equal to them.
 */
module DataParser {
  import opened Wrappers
  import MemoryMap

  type Byte = b: int | 0 <= b < 256

  function Pow256(n: nat): (r: int)
    ensures r >= 1
  {
    if n == 0 then 1 else 256 * Pow256(n - 1)
  }

  /** Unsigned little-endian value: the sum of data[i] * 256^i. */
  function Unsigned(data: seq<Byte>): (r: nat)
    ensures r < Pow256(|data|)
  {
    if data == [] then 0 else data[0] + 256 * Unsigned(data[1..])
  }

  /** Appending a byte adds it at the next power of 256. */
  lemma {:induction false} UnsignedSnoc(d: seq<Byte>, b: Byte)
    ensures Unsigned(d + [b]) == Unsigned(d) + b * Pow256(|d|)
  {
    if d == [] {
      assert d + [b] == [b];
      assert [b][1..] == [];
    } else {
      assert (d + [b])[1..] == d[1..] + [b];
      UnsignedSnoc(d[1..], b);
      var u, p := Unsigned(d[1..]), Pow256(|d| - 1);
      assert Unsigned(d + [b]) == d[0] + 256 * Unsigned(d[1..] + [b]);
      SnocArith(d[0], u, b, p);
    }
  }

  lemma SnocArith(d0: int, u: int, b: int, p: int)
    ensures d0 + 256 * (u + b * p) == (d0 + 256 * u) + b * (256 * p)
  {
  }

  /** Half of 256^n: the bound of an n-byte two's-complement value. */
  function HalfRange(n: nat): int
  {
    Pow256(n) / 2
  }

  lemma MulLe(a: int, b: int, c: int)
    requires a <= b && c >= 0
    ensures a * c <= b * c
  {
    assert b * c - a * c == (b - a) * c;
  }

  /** The last byte's bit 0x80 is set exactly when the value is in the upper half. */
  lemma HighBit(d: seq<Byte>)
    requires d != []
    ensures Pow256(|d|) == 2 * HalfRange(|d|)
    ensures d[|d| - 1] >= 0x80 <==> Unsigned(d) >= HalfRange(|d|)
  {
    var n := |d|;
    var init := d[..n - 1];
    var last := d[n - 1];
    assert init + [last] == d;
    UnsignedSnoc(init, last);
    var p := Pow256(n - 1);
    assert Pow256(n) == 2 * (128 * p);
    assert HalfRange(n) == 128 * p;
    if last >= 0x80 {
      MulLe(128, last, p);
    } else {
      MulLe(last, 127, p);
    }
  }

  /** -256^n is a multiple of 256^n. */
  lemma NegModulus(p: int)
    requires p > 0
    ensures (-p) % p == 0 && 0 % p == 0
  {
    DivModUnique(-p, p, -1, 0);
    DivModUnique(0, p, 0, 0);
  }

  /**
   * bytes_to_int: 0 for empty data; otherwise the unsigned little-endian
   * value, minus 256^n when `signed` and the last byte has bit 0x80 set.
   * The struct path (lengths 1, 2, 4) and the manual fallback agree on this.
   */
  function BytesToInt(data: seq<Byte>, signed: bool): (r: int)
    ensures data == [] ==> r == 0
    ensures !signed ==> r == Unsigned(data)
    ensures signed && data != [] ==> -HalfRange(|data|) <= r < HalfRange(|data|)
    ensures (r - Unsigned(data)) % Pow256(|data|) == 0
  {
    NegModulus(Pow256(|data|));
    if data == [] then 0
    else
      HighBit(data);
      if signed && data[|data| - 1] >= 0x80 then Unsigned(data) - Pow256(|data|) else Unsigned(data)
  }

  /** The manual loop of bytes_to_int: `result |= byte << (8 * i)`, then sign extension. */
  method BytesToIntFallback(data: seq<Byte>, signed: bool) returns (result: int)
    ensures result == BytesToInt(data, signed)
  {
    result := 0;
    var i := 0;
    var shift: int := 1;
    while i < |data|
      invariant 0 <= i <= |data|
      invariant shift == Pow256(i)
      invariant result == Unsigned(data[..i])
    {
      // the byte lands above every bit set so far, so the OR is an addition
      assert data[..i + 1] == data[..i] + [data[i]];
      UnsignedSnoc(data[..i], data[i]);
      result := result + data[i] * shift;
      shift := shift * 256;
      i := i + 1;
    }
    assert data[..i] == data;
    if signed && |data| > 0 && data[|data| - 1] >= 0x80 {
      result := result - Pow256(|data|);
    }
  }

  /** The masking encoding: byte i is `(v >> (8 * i)) & 0xFF`, so n bytes of v mod 256^n. */
  function LeBytes(v: int, n: nat): (r: seq<Byte>)
    ensures |r| == n
    decreases n
  {
    if n == 0 then [] else [v % 256] + LeBytes(v / 256, n - 1)
  }

  lemma DivModUnique(v: int, m: int, q: int, b: int)
    requires m > 0 && 0 <= b < m && v == m * q + b
    ensures v / m == q && v % m == b
  {
    var q', b' := v / m, v % m;
    assert m * (q' - q) == b - b';
    if q' > q {
      MulLe(1, q' - q, m);
    } else if q' < q {
      MulLe(1, q - q', m);
    }
  }

  lemma DivDiv(v: int, a: int, b: int)
    requires a > 0 && b > 0
    ensures (v / a) / b == v / (a * b)
    ensures v % (a * b) == a * ((v / a) % b) + v % a
  {
    var q1, r1 := v / a, v % a;
    var q2, r2 := q1 / b, q1 % b;
    assert v == a * (b * q2 + r2) + r1;
    assert a * r2 <= a * (b - 1);
    assert v == (a * b) * q2 + (a * r2 + r1);
    DivModUnique(v, a * b, q2, a * r2 + r1);
  }

  /** Byte i of the encoding is the byte the source's shift-and-mask computes. */
  lemma {:induction false} LeBytesAt(v: int, n: nat, i: nat)
    requires i < n
    ensures LeBytes(v, n)[i] == (v / Pow256(i)) % 256
    decreases i
  {
    if i > 0 {
      LeBytesAt(v / 256, n - 1, i - 1);
      DivDiv(v, 256, Pow256(i - 1));
    }
  }

  /** The encoding holds v modulo 256^n. */
  lemma {:induction false} UnsignedLeBytes(v: int, n: nat)
    ensures Unsigned(LeBytes(v, n)) == v % Pow256(n)
    decreases n
  {
    if n > 0 {
      UnsignedLeBytes(v / 256, n - 1);
      assert LeBytes(v, n)[1..] == LeBytes(v / 256, n - 1);
      DivDiv(v, 256, Pow256(n - 1));
    }
  }

  /** Encoding the value of a byte string gives the bytes back. */
  lemma {:induction false} LeBytesUnsigned(d: seq<Byte>)
    ensures LeBytes(Unsigned(d), |d|) == d
  {
    if d != [] {
      var u := Unsigned(d[1..]);
      DivModUnique(Unsigned(d), 256, u, d[0]);
      LeBytesUnsigned(d[1..]);
    }
  }

  /** int_to_bytes as it should be: exactly `length` bytes of value mod 256^length. */
  function IntToBytes(value: int, length: nat): (r: seq<Byte>)
    ensures |r| == length
    ensures Unsigned(r) == value % Pow256(length)
  {
    UnsignedLeBytes(value, length);
    LeBytes(value, length)
  }

  /** The manual loop of int_to_bytes over a `bytearray(length)`. */
  method IntToBytesFallback(value: int, length: nat) returns (r: seq<Byte>)
    ensures r == IntToBytes(value, length)
  {
    var buf := new Byte[length];
    var i := 0;
    while i < length
      invariant 0 <= i <= length
      invariant forall j :: 0 <= j < i ==> buf[j] == IntToBytes(value, length)[j]
    {
      LeBytesAt(value, length, i);
      buf[i] := (value / Pow256(i)) % 256;
      i := i + 1;
    }
    r := buf[..];
  }

  /** Whether `struct.pack` accepts v for a `width`-byte format of the given signedness. */
  predicate Fits(v: int, width: nat, signed: bool)
  {
    if signed then -HalfRange(width) <= v < HalfRange(width) else 0 <= v < Pow256(width)
  }

  /** The struct format width int_to_bytes picks: 'h' for 2, 'i' for 4, 'b' otherwise. */
  function StructWidth(length: int): nat
  {
    if length == 2 then 2 else if length == 4 then 4 else 1
  }

  /**
   * int_to_bytes as written.  `struct.pack` is tried with the width above;
   * when the value does not fit, the masking fallback fills
   * `bytearray(length)`, which raises ValueError (None here) for a negative
   * length.  For a length other than 1, 2 or 4 and a value that fits one
   * byte, the result is a single byte.
   */
  function IntToBytesAsWritten(value: int, length: int, signed: bool): (r: Option<seq<Byte>>)
    ensures r.None? <==> length < 0 && !Fits(value, 1, signed)
    ensures r.Some? && Fits(value, StructWidth(length), signed) ==> |r.value| == StructWidth(length)
    ensures r.Some? && !Fits(value, StructWidth(length), signed) ==> |r.value| == length
  {
    var width := StructWidth(length);
    if Fits(value, width, signed) then Some(LeBytes(value, width))
    else if length < 0 then None
    else Some(LeBytes(value, length))
  }

  /** For the struct widths the source uses, the code agrees with the corrected definition. */
  lemma IntToBytesAgrees(value: int, length: nat, signed: bool)
    requires length == 1 || length == 2 || length == 4
    ensures IntToBytesAsWritten(value, length, signed) == Some(IntToBytes(value, length))
  {
  }

  /** For any other length, a value that fits a byte comes back as one byte, not `length` bytes. */
  lemma IntToBytesShortResult(value: int, length: int, signed: bool)
    requires length != 1 && length != 2 && length != 4 && Fits(value, 1, signed)
    ensures IntToBytesAsWritten(value, length, signed) == Some(LeBytes(value, 1))
    ensures |IntToBytesAsWritten(value, length, signed).value| != length
  {
  }

  /** The concrete case: int_to_bytes(5, 3) is b'\x05', while three bytes were asked for. */
  lemma IntToBytesFiveInThree()
    ensures IntToBytesAsWritten(5, 3, false) == Some([5])
    ensures IntToBytes(5, 3) == [5, 0, 0]
  {
    assert Fits(5, StructWidth(3), false);
    assert LeBytes(5, 1) == [5];
    assert LeBytes(5, 3) == [5, 0, 0];
  }

  /** Unsigned round trip: a value that fits n bytes decodes back to itself. */
  lemma RoundTripUnsigned(v: int, n: nat)
    requires 0 <= v < Pow256(n)
    ensures BytesToInt(IntToBytes(v, n), false) == v
  {
    DivModUnique(v, Pow256(n), 0, v);
  }

  /** Signed round trip: a two's-complement value of n >= 1 bytes decodes back to itself. */
  lemma RoundTripSigned(v: int, n: nat)
    requires n >= 1 && -HalfRange(n) <= v < HalfRange(n)
    ensures BytesToInt(IntToBytes(v, n), true) == v
  {
    var d := IntToBytes(v, n);
    var p := Pow256(n);
    HighBit(d);
    if v >= 0 {
      DivModUnique(v, p, 0, v);
    } else {
      DivModUnique(v, p, -1, v + p);
    }
  }

  /** Two values congruent mod m have the same remainder as the one already below m. */
  lemma ModCongruent(r: int, u: int, m: int)
    requires m > 0 && 0 <= u < m && (r - u) % m == 0
    ensures r % m == u
  {
    var k := (r - u) / m;
    assert r - u == m * k + (r - u) % m;
    DivModUnique(r, m, k, u);
  }

  /** Decoding then encoding gives the bytes back, signed or not. */
  lemma EncodeDecoded(d: seq<Byte>, signed: bool)
    ensures IntToBytes(BytesToInt(d, signed), |d|) == d
  {
    var u := Unsigned(d);
    var r := BytesToInt(d, signed);
    var e := IntToBytes(r, |d|);
    ModCongruent(r, u, Pow256(|d|));
    assert Unsigned(e) == u;
    LeBytesUnsigned(e);
    LeBytesUnsigned(d);
  }

  // ---------------------------------------------------------------------------
  // parse_* helpers

  /** parse_position: signed decode. */
  function ParsePosition(data: seq<Byte>): (r: int)
    ensures |data| == 2 ==> -32768 <= r < 32768 && (r - Unsigned(data)) % 65536 == 0
  {
    BytesToInt(data, true)
  }

  /** parse_speed: signed decode. */
  function ParseSpeed(data: seq<Byte>): (r: int)
    ensures |data| == 2 ==> -32768 <= r < 32768 && (r - Unsigned(data)) % 65536 == 0
  {
    BytesToInt(data, true)
  }

  /** parse_current: signed decode. */
  function ParseCurrent(data: seq<Byte>): (r: int)
    ensures |data| == 2 ==> -32768 <= r < 32768 && (r - Unsigned(data)) % 65536 == 0
  {
    BytesToInt(data, true)
  }

  /** parse_torque: signed decode. */
  function ParseTorque(data: seq<Byte>): (r: int)
    ensures |data| == 2 ==> -32768 <= r < 32768 && (r - Unsigned(data)) % 65536 == 0
  {
    BytesToInt(data, true)
  }

  /** parse_temperature: unsigned decode. */
  function ParseTemperature(data: seq<Byte>): (r: int)
    ensures 0 <= r < Pow256(|data|)
    ensures |data| == 1 ==> r == data[0]
  {
    BytesToInt(data, false)
  }

  /**
   * parse_voltage, in tenths of a volt: the unsigned decode before the
   * source divides it by 10.0.
   */
  function ParseVoltage(data: seq<Byte>): (r: int)
    ensures 0 <= r < Pow256(|data|)
    ensures |data| == 1 ==> r == data[0]
  {
    BytesToInt(data, false)
  }

  // ---------------------------------------------------------------------------
  // RegisterValue

  /** What RegisterValue._parse_value returns. */
  datatype Value = NoValue | Number(n: int) | Raw(bytes: seq<Byte>)

  /** _parse_value: None when empty, unsigned for 1 byte, signed for 2 or 4, raw bytes otherwise. */
  function ParseValue(data: seq<Byte>): (r: Value)
    ensures r == NoValue <==> data == []
    ensures |data| == 1 ==> r == Number(data[0])
    ensures |data| == 2 || |data| == 4 ==>
      r.Number? && -HalfRange(|data|) <= r.n < HalfRange(|data|) && (r.n - Unsigned(data)) % Pow256(|data|) == 0
    ensures |data| == 3 || |data| > 4 ==> r == Raw(data)
  {
    if data == [] then NoValue
    else if |data| == 1 then Number(BytesToInt(data, false))
    else if |data| == 2 || |data| == 4 then Number(BytesToInt(data, true))
    else Raw(data)
  }

  datatype RegisterValue = RegisterValue(address: int, data: seq<Byte>, name: string, value: Value)

  /** RegisterValue(address, data, name): a missing or empty name falls back to the table name. */
  function NewRegisterValue(address: int, data: seq<Byte>, name: Option<string>): (r: RegisterValue)
    ensures r.address == address && r.data == data && r.value == ParseValue(data)
    ensures name.Some? && name.value != "" ==> r.name == name.value
    ensures name.None? || name.value == "" ==> r.name == MemoryMap.GetName(address)
  {
    var n := if name.Some? && name.value != "" then name.value else MemoryMap.GetName(address);
    RegisterValue(address, data, n, ParseValue(data))
  }

  // ---------------------------------------------------------------------------
  // MemoryMapParser

  datatype Region = Region(name: string, start: int, end: int)

  /** MemoryMapParser.regions, in dictionary order. */
  const REGIONS: seq<Region> := [
    Region("eprom_readonly", 0, 4),
    Region("eprom_config", 5, 17),
    Region("eprom_advanced", 18, 45),
    Region("sram_control", 46, 56),
    Region("sram_status", 57, 69),
    Region("default_params", 80, 86)
  ]

  predicate InRegion(g: Region, address: int)
  {
    g.start <= address <= g.end
  }

  /** The first region (from index i on) whose inclusive bounds hold the address. */
  function FindRegion(address: int, i: nat): (r: Option<string>)
    requires i <= |REGIONS|
    ensures r.Some? <==> exists j :: i <= j < |REGIONS| && InRegion(REGIONS[j], address)
    ensures r.Some? ==> exists j :: i <= j < |REGIONS| && InRegion(REGIONS[j], address) && REGIONS[j].name == r.value
    decreases |REGIONS| - i
  {
    if i == |REGIONS| then None
    else if InRegion(REGIONS[i], address) then Some(REGIONS[i].name)
    else FindRegion(address, i + 1)
  }

  /** get_region_info. */
  function GetRegionInfo(address: int): (r: Option<string>)
    ensures r.Some? <==> exists j :: 0 <= j < |REGIONS| && InRegion(REGIONS[j], address)
    ensures r.Some? ==> exists j :: 0 <= j < |REGIONS| && InRegion(REGIONS[j], address) && REGIONS[j].name == r.value
  {
    FindRegion(address, 0)
  }

  /** The parser's regions have start <= end and do not overlap, so the answer is the unique region. */
  lemma RegionsDisjoint(i: nat, j: nat, address: int)
    requires i < |REGIONS| && j < |REGIONS| && i != j
    ensures REGIONS[i].start <= REGIONS[i].end
    ensures !(InRegion(REGIONS[i], address) && InRegion(REGIONS[j], address))
  {
  }

  /** Exactly 0..69 and 80..86 have a region; 70..79, negative addresses and those above 86 have none. */
  lemma RegionCoverage(address: int)
    ensures GetRegionInfo(address).Some? <==> (0 <= address <= 69 || 80 <= address <= 86)
  {
    if 0 <= address <= 69 || 80 <= address <= 86 {
      var j :| 0 <= j < |REGIONS| && InRegion(REGIONS[j], address) by {
        if address <= 4 { assert InRegion(REGIONS[0], address); }
        else if address <= 17 { assert InRegion(REGIONS[1], address); }
        else if address <= 45 { assert InRegion(REGIONS[2], address); }
        else if address <= 56 { assert InRegion(REGIONS[3], address); }
        else if address <= 69 { assert InRegion(REGIONS[4], address); }
        else { assert InRegion(REGIONS[5], address); }
      }
    }
  }

  /** The register values of one region: the dump's addresses from start to end, ascending. */
  function RegionValues(dump: map<int, seq<Byte>>, start: int, end: int): seq<RegisterValue>
    decreases end - start + 1
  {
    if end < start then []
    else RegionValues(dump, start, end - 1) +
         (if end in dump then [NewRegisterValue(end, dump[end], None)] else [])
  }

  /** Every listed value lies in the region and the dump, every such address is listed, ascending. */
  lemma RegionValuesExact(dump: map<int, seq<Byte>>, start: int, end: int)
    ensures forall v :: v in RegionValues(dump, start, end) ==>
      start <= v.address <= end && v.address in dump && v == NewRegisterValue(v.address, dump[v.address], None)
    ensures forall a :: start <= a <= end && a in dump ==>
      exists v :: v in RegionValues(dump, start, end) && v.address == a
    ensures forall p, q :: 0 <= p < q < |RegionValues(dump, start, end)| ==>
      RegionValues(dump, start, end)[p].address < RegionValues(dump, start, end)[q].address
  {
    RegionValuesSound(dump, start, end);
    RegionValuesComplete(dump, start, end);
    RegionValuesAscending(dump, start, end);
  }

  lemma {:induction false} RegionValuesSound(dump: map<int, seq<Byte>>, start: int, end: int)
    ensures forall v :: v in RegionValues(dump, start, end) ==>
      start <= v.address <= end && v.address in dump && v == NewRegisterValue(v.address, dump[v.address], None)
    decreases end - start + 1
  {
    if end >= start {
      RegionValuesSound(dump, start, end - 1);
      var prefix := RegionValues(dump, start, end - 1);
      if end in dump {
        assert RegionValues(dump, start, end) == prefix + [NewRegisterValue(end, dump[end], None)];
      } else {
        assert RegionValues(dump, start, end) == prefix;
      }
    }
  }

  lemma {:induction false} RegionValuesComplete(dump: map<int, seq<Byte>>, start: int, end: int)
    ensures forall a :: start <= a <= end && a in dump ==>
      exists v :: v in RegionValues(dump, start, end) && v.address == a
    decreases end - start + 1
  {
    if end >= start {
      RegionValuesComplete(dump, start, end - 1);
      var prefix := RegionValues(dump, start, end - 1);
      var all := RegionValues(dump, start, end);
      if end in dump {
        var last := NewRegisterValue(end, dump[end], None);
        assert all == prefix + [last];
        assert last in all && last.address == end;
        forall a | start <= a <= end && a in dump
          ensures exists v :: v in all && v.address == a
        {
          if a == end {
            assert last in all && last.address == a;
          } else {
            var v :| v in prefix && v.address == a;
            assert v in all;
          }
        }
      } else {
        assert all == prefix;
      }
    }
  }

  lemma {:induction false} RegionValuesAscending(dump: map<int, seq<Byte>>, start: int, end: int)
    ensures forall p, q :: 0 <= p < q < |RegionValues(dump, start, end)| ==>
      RegionValues(dump, start, end)[p].address < RegionValues(dump, start, end)[q].address
    decreases end - start + 1
  {
    if end >= start {
      RegionValuesAscending(dump, start, end - 1);
      RegionValuesSound(dump, start, end - 1);
      var prefix := RegionValues(dump, start, end - 1);
      if end in dump {
        var last := NewRegisterValue(end, dump[end], None);
        assert RegionValues(dump, start, end) == prefix + [last];
        assert forall p :: 0 <= p < |prefix| ==> prefix[p] in prefix;
      } else {
        assert RegionValues(dump, start, end) == prefix;
      }
    }
  }

  /** What parse_memory_dump returns: one entry per region name. */
  function DumpSpec(dump: map<int, seq<Byte>>, n: nat): map<string, seq<RegisterValue>>
    requires n <= |REGIONS|
  {
    if n == 0 then map[]
    else DumpSpec(dump, n - 1)[REGIONS[n - 1].name := RegionValues(dump, REGIONS[n - 1].start, REGIONS[n - 1].end)]
  }

  /** The six region names are pairwise different, so no region's entry overwrites another's. */
  lemma RegionNamesDistinct(i: nat, j: nat)
    requires i < j < |REGIONS|
    ensures REGIONS[i].name != REGIONS[j].name
  {
  }

  /** The keys are exactly the names of the first n regions. */
  lemma {:induction false} DumpSpecKeys(dump: map<int, seq<Byte>>, n: nat)
    requires n <= |REGIONS|
    ensures forall k :: k in DumpSpec(dump, n) <==> exists j :: 0 <= j < n && REGIONS[j].name == k
  {
    if n > 0 {
      DumpSpecKeys(dump, n - 1);
      var g := REGIONS[n - 1];
      assert DumpSpec(dump, n).Keys == DumpSpec(dump, n - 1).Keys + {g.name};
    }
  }

  /** Each of the first n region names maps to that region's values. */
  lemma {:induction false} DumpSpecValue(dump: map<int, seq<Byte>>, n: nat, j: nat)
    requires j < n <= |REGIONS|
    ensures REGIONS[j].name in DumpSpec(dump, n)
    ensures DumpSpec(dump, n)[REGIONS[j].name] == RegionValues(dump, REGIONS[j].start, REGIONS[j].end)
  {
    if j < n - 1 {
      DumpSpecValue(dump, n - 1, j);
      RegionNamesDistinct(j, n - 1);
    }
  }

  /** parse_memory_dump's result: one entry per region name, holding that region's values. */
  lemma DumpSpecEntries(dump: map<int, seq<Byte>>)
    ensures forall k :: k in DumpSpec(dump, |REGIONS|) <==> exists j :: 0 <= j < |REGIONS| && REGIONS[j].name == k
    ensures forall j :: 0 <= j < |REGIONS| ==>
      DumpSpec(dump, |REGIONS|)[REGIONS[j].name] == RegionValues(dump, REGIONS[j].start, REGIONS[j].end)
  {
    DumpSpecKeys(dump, |REGIONS|);
    forall j | 0 <= j < |REGIONS|
      ensures DumpSpec(dump, |REGIONS|)[REGIONS[j].name] == RegionValues(dump, REGIONS[j].start, REGIONS[j].end)
    {
      DumpSpecValue(dump, |REGIONS|, j);
    }
  }

  /** parse_memory_dump: for each region, the dump entries inside it, by ascending address. */
  method ParseMemoryDump(dump: map<int, seq<Byte>>) returns (result: map<string, seq<RegisterValue>>)
    ensures result == DumpSpec(dump, |REGIONS|)
  {
    result := map[];
    var k := 0;
    while k < |REGIONS|
      invariant 0 <= k <= |REGIONS|
      invariant result == DumpSpec(dump, k)
    {
      var g := REGIONS[k];
      var values := CollectRegion(dump, g.start, g.end);
      result := result[g.name := values];
      k := k + 1;
    }
  }

  /** The inner loop of parse_memory_dump over the addresses start..end of one region. */
  method CollectRegion(dump: map<int, seq<Byte>>, start: int, end: int) returns (values: seq<RegisterValue>)
    ensures values == RegionValues(dump, start, end)
  {
    values := [];
    var addr := start;
    while addr <= end
      invariant start <= addr && (addr <= end + 1 || addr == start)
      invariant values == RegionValues(dump, start, addr - 1)
      decreases end - addr
    {
      if addr in dump {
        values := values + [NewRegisterValue(addr, dump[addr], None)];
      }
      addr := addr + 1;
    }
  }
}
