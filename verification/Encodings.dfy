/** Lower-case base 16 and padded base 64, as in sections 8 and 4 of RFC 4648, with the strict
    decoders that accept canonical text only. */
module Encodings {
  import opened Optional

  type Byte = b: int | 0 <= b < 256

  // ---------------------------------------------------------------- base 16

  function HexDigit(n: int): (c: char)
    requires 0 <= n < 16
    ensures c != '=' && c != '\n' && HexValue(c) == Some(n)
  {
    if n < 10 then '0' + n as char else 'a' + (n - 10) as char
  }

  /** Decoding tolerates upper case; canonical form is checked by encoding again. */
  function HexValue(c: char): (r: Option<int>)
    ensures r.Some? ==> 0 <= r.value < 16
  {
    if '0' <= c <= '9' then Some(c as int - '0' as int)
    else if 'a' <= c <= 'f' then Some(c as int - 'a' as int + 10)
    else if 'A' <= c <= 'F' then Some(c as int - 'A' as int + 10)
    else None
  }

  predicate Bytewise(s: string) { forall i :: 0 <= i < |s| ==> s[i] as int < 256 }

  function Hex(s: string): (r: string)
    requires Bytewise(s)
    ensures |r| == 2 * |s| && forall i :: 0 <= i < |r| ==> r[i] != '=' && r[i] != '\n'
  {
    if s == "" then "" else [HexDigit(s[0] as int / 16), HexDigit(s[0] as int % 16)] + Hex(s[1..])
  }

  function Unhex(t: string): (r: Option<string>)
    ensures r.Some? ==> Bytewise(r.value)
  {
    if t == "" then Some("")
    else if |t| < 2 || HexValue(t[0]).None? || HexValue(t[1]).None? then None
    else
      var rest := Unhex(t[2..]);
      if rest.None? then None
      else Some([(HexValue(t[0]).value * 16 + HexValue(t[1]).value) as char] + rest.value)
  }

  lemma {:induction false} UnhexHex(s: string)
    requires Bytewise(s)
    ensures Unhex(Hex(s)) == Some(s)
  {
    if s != "" {
      UnhexHex(s[1..]);
      UnhexFirst(s[0] as int / 16, s[0] as int % 16, Hex(s[1..]), s[1..]);
      assert s == [s[0]] + s[1..];
    }
  }

  lemma {:induction false} UnhexFirst(high: int, low: int, text: string, rest: string)
    requires 0 <= high < 16 && 0 <= low < 16 && Unhex(text) == Some(rest)
    ensures Unhex([HexDigit(high), HexDigit(low)] + text) == Some([(high * 16 + low) as char] + rest)
  {
    assert ([HexDigit(high), HexDigit(low)] + text)[2..] == text;
  }

  // ---------------------------------------------------------------- base 64: groups

  /** A group of four symbols stands for up to three bytes. */
  datatype Symbol = Six(d: int) | Pad

  predicate Proper(q: seq<Symbol>) { forall i :: 0 <= i < |q| ==> q[i].Six? ==> 0 <= q[i].d < 64 }

  function Sextet1(b0: Byte, b1: Byte): (d: int) ensures 0 <= d < 64 { b0 % 4 * 16 + b1 / 16 }
  function Sextet2(b1: Byte, b2: Byte): (d: int) ensures 0 <= d < 64 { b1 % 16 * 4 + b2 / 64 }

  function First(d0: int, d1: int): Byte requires 0 <= d0 < 64 && 0 <= d1 < 64 { d0 * 4 + d1 / 16 }
  function Second(d1: int, d2: int): Byte requires 0 <= d1 < 64 && 0 <= d2 < 64 { d1 % 16 * 16 + d2 / 4 }
  function Third(d2: int, d3: int): Byte requires 0 <= d2 < 64 && 0 <= d3 < 64 { d2 % 4 * 64 + d3 }

  function Group1(b0: Byte): (q: seq<Symbol>)
    ensures |q| == 4 && Proper(q)
  {
    [Six(b0 / 4), Six(Sextet1(b0, 0)), Pad, Pad]
  }

  function Group2(b0: Byte, b1: Byte): (q: seq<Symbol>)
    ensures |q| == 4 && Proper(q)
  {
    [Six(b0 / 4), Six(Sextet1(b0, b1)), Six(Sextet2(b1, 0)), Pad]
  }

  function Group3(b0: Byte, b1: Byte, b2: Byte): (q: seq<Symbol>)
    ensures |q| == 4 && Proper(q)
  {
    [Six(b0 / 4), Six(Sextet1(b0, b1)), Six(Sextet2(b1, b2)), Six(b2 % 64)]
  }

  /** Strict: padding is last, and the bits it leaves over are zero. */
  function Ungroup(q: seq<Symbol>): Option<seq<Byte>>
    requires |q| == 4 && Proper(q)
  {
    if q[0].Pad? || q[1].Pad? then None
    else if q[2].Pad? then
      if q[3].Pad? && q[1].d % 16 == 0 then Some([First(q[0].d, q[1].d)]) else None
    else if q[3].Pad? then
      if q[2].d % 4 == 0 then Some([First(q[0].d, q[1].d), Second(q[1].d, q[2].d)]) else None
    else Some([First(q[0].d, q[1].d), Second(q[1].d, q[2].d), Third(q[2].d, q[3].d)])
  }

  lemma {:induction false} Split4(q: int, r: int)
    requires 0 <= r < 4
    ensures (q * 4 + r) / 4 == q && (q * 4 + r) % 4 == r
  {
  }

  lemma {:induction false} Split16(q: int, r: int)
    requires 0 <= r < 16
    ensures (q * 16 + r) / 16 == q && (q * 16 + r) % 16 == r
  {
  }

  lemma {:induction false} Split64(q: int, r: int)
    requires 0 <= r < 64
    ensures (q * 64 + r) / 64 == q && (q * 64 + r) % 64 == r
  {
  }

  lemma {:induction false} PackFirst(b0: Byte, b1: Byte)
    ensures First(b0 / 4, Sextet1(b0, b1)) == b0 && Sextet1(b0, b1) % 16 == b1 / 16
  {
    Split16(b0 % 4, b1 / 16);
  }

  lemma {:induction false} PackSecond(d1: int, b1: Byte, b2: Byte)
    requires 0 <= d1 < 64 && d1 % 16 == b1 / 16
    ensures Second(d1, Sextet2(b1, b2)) == b1 && Sextet2(b1, b2) % 4 == b2 / 64
  {
    Split4(b1 % 16, b2 / 64);
  }

  lemma {:induction false} PackThird(d2: int, b2: Byte)
    requires 0 <= d2 < 64 && d2 % 4 == b2 / 64
    ensures Third(d2, b2 % 64) == b2
  {
  }

  lemma {:induction false} UnpackFirst(d0: int, d1: int, b1: Byte)
    requires 0 <= d0 < 64 && 0 <= d1 < 64 && b1 / 16 == d1 % 16
    ensures First(d0, d1) / 4 == d0 && Sextet1(First(d0, d1), b1) == d1
  {
    Split4(d0, d1 / 16);
  }

  lemma {:induction false} UnpackSecond(d1: int, d2: int, b2: Byte)
    requires 0 <= d1 < 64 && 0 <= d2 < 64 && b2 / 64 == d2 % 4
    ensures Second(d1, d2) / 16 == d1 % 16 && Sextet2(Second(d1, d2), b2) == d2
  {
    Split16(d1 % 16, d2 / 4);
  }

  lemma {:induction false} UnpackThird(d2: int, d3: int)
    requires 0 <= d2 < 64 && 0 <= d3 < 64
    ensures Third(d2, d3) / 64 == d2 % 4 && Third(d2, d3) % 64 == d3
  {
    Split64(d2 % 4, d3);
  }

  lemma {:induction false} UngroupGroup1(b0: Byte)
    ensures Ungroup(Group1(b0)) == Some([b0])
  {
    PackFirst(b0, 0);
  }

  lemma {:induction false} UngroupGroup2(b0: Byte, b1: Byte)
    ensures Ungroup(Group2(b0, b1)) == Some([b0, b1])
  {
    PackFirst(b0, b1);
    PackSecond(Sextet1(b0, b1), b1, 0);
  }

  lemma {:induction false} UngroupGroup3(b0: Byte, b1: Byte, b2: Byte)
    ensures Ungroup(Group3(b0, b1, b2)) == Some([b0, b1, b2])
  {
    PackFirst(b0, b1);
    PackSecond(Sextet1(b0, b1), b1, b2);
    PackThird(Sextet2(b1, b2), b2);
  }

  function Group(b: seq<Byte>): (q: seq<Symbol>)
    requires 1 <= |b| <= 3
    ensures |q| == 4 && Proper(q)
  {
    if |b| == 1 then Group1(b[0]) else if |b| == 2 then Group2(b[0], b[1]) else Group3(b[0], b[1], b[2])
  }

  lemma {:induction false} UngroupGroup(b: seq<Byte>)
    requires 1 <= |b| <= 3
    ensures Ungroup(Group(b)) == Some(b)
  {
    if |b| == 1 {
      UngroupGroup1(b[0]);
      assert b == [b[0]];
    } else if |b| == 2 {
      UngroupGroup2(b[0], b[1]);
      assert b == [b[0], b[1]];
    } else {
      UngroupGroup3(b[0], b[1], b[2]);
      assert b == [b[0], b[1], b[2]];
    }
  }

  lemma {:induction false} GroupUngroup(q: seq<Symbol>)
    requires |q| == 4 && Proper(q) && Ungroup(q).Some?
    ensures 1 <= |Ungroup(q).value| <= 3 && Group(Ungroup(q).value) == q
  {
    assert q == [q[0], q[1], q[2], q[3]];
    var d0, d1 := q[0].d, q[1].d;
    if q[2].Pad? {
      UnpackFirst(d0, d1, 0);
    } else if q[3].Pad? {
      UnpackSecond(d1, q[2].d, 0);
      UnpackFirst(d0, d1, Second(d1, q[2].d));
    } else {
      UnpackThird(q[2].d, q[3].d);
      UnpackSecond(d1, q[2].d, Third(q[2].d, q[3].d));
      UnpackFirst(d0, d1, Second(d1, q[2].d));
    }
  }

  // ---------------------------------------------------------------- base 64: text

  function Digit(n: int): (c: char)
    requires 0 <= n < 64
    ensures c != '=' && c != '\n'
  {
    if n < 26 then 'A' + n as char
    else if n < 52 then 'a' + (n - 26) as char
    else if n < 62 then '0' + (n - 52) as char
    else if n == 62 then '+' else '/'
  }

  function Show(y: Symbol): (c: char)
    requires y.Six? ==> 0 <= y.d < 64
    ensures c != '\n' && Read(c) == Some(y)
  {
    if y.Pad? then '=' else Digit(y.d)
  }

  function Read(c: char): (r: Option<Symbol>)
    ensures r.Some? && r.value.Six? ==> 0 <= r.value.d < 64
  {
    if c == '=' then Some(Pad)
    else if 'A' <= c <= 'Z' then Some(Six(c as int - 'A' as int))
    else if 'a' <= c <= 'z' then Some(Six(c as int - 'a' as int + 26))
    else if '0' <= c <= '9' then Some(Six(c as int - '0' as int + 52))
    else if c == '+' then Some(Six(62)) else if c == '/' then Some(Six(63)) else None
  }

  lemma {:induction false} ShowRead(c: char)
    requires Read(c).Some?
    ensures Show(Read(c).value) == c
  {
  }

  function Quad(q: seq<Symbol>): (s: string)
    requires |q| == 4 && Proper(q)
    ensures |s| == 4 && forall i :: 0 <= i < 4 ==> s[i] == Show(q[i])
  {
    [Show(q[0]), Show(q[1]), Show(q[2]), Show(q[3])]
  }

  function Unquad(s: string): (q: Option<seq<Symbol>>)
    requires |s| == 4
    ensures q.Some? ==> |q.value| == 4 && Proper(q.value) && forall i :: 0 <= i < 4 ==> Read(s[i]) == Some(q.value[i])
  {
    var a, b, c, d := Read(s[0]), Read(s[1]), Read(s[2]), Read(s[3]);
    if a.Some? && b.Some? && c.Some? && d.Some? then Some([a.value, b.value, c.value, d.value]) else None
  }

  function Encode(b: seq<Byte>): (s: string)
    ensures forall i :: 0 <= i < |s| ==> s[i] != '\n'
  {
    if |b| == 0 then "" else if |b| <= 3 then Quad(Group(b)) else Quad(Group(b[..3])) + Encode(b[3..])
  }

  /** Whole groups; only the last may be padded. */
  function Decode(s: string): Option<seq<Byte>> {
    if s == "" then Some([]) else
    if |s| < 4 then None else
    var q := Unquad(s[..4]);
    if q.None? then None else
    var b := Ungroup(q.value);
    if b.None? || |s| == 4 then b
    else
      var rest := Decode(s[4..]);
      if |b.value| < 3 || rest.None? then None else Some(b.value + rest.value)
  }

  lemma {:induction false} UnquadQuad(q: seq<Symbol>)
    requires |q| == 4 && Proper(q)
    ensures Unquad(Quad(q)) == Some(q)
  {
    assert q == [q[0], q[1], q[2], q[3]];
  }

  lemma {:induction false} QuadUnquad(s: string)
    requires |s| == 4 && Unquad(s).Some?
    ensures Quad(Unquad(s).value) == s
  {
    ShowRead(s[0]);
    ShowRead(s[1]);
    ShowRead(s[2]);
    ShowRead(s[3]);
  }

  lemma {:induction false} EncodeLength(b: seq<Byte>)
    ensures |Encode(b)| == EncodedLength(|b|)
  {
    if |b| > 3 {
      EncodeLength(b[3..]);
      ThreeMore(|b| - 3);
    }
  }

  lemma {:induction false} ThreeMore(n: nat)
    ensures EncodedLength(n + 3) == EncodedLength(n) + 4
  {
  }

  function EncodedLength(n: nat): nat { (n + 2) / 3 * 4 }

  lemma {:induction false} DecodeEncode(b: seq<Byte>)
    ensures Decode(Encode(b)) == Some(b)
    decreases |b|
  {
    if b != [] {
      var head, tail := if |b| <= 3 then b else b[..3], if |b| <= 3 then [] else b[3..];
      UngroupGroup(head);
      UnquadQuad(Group(head));
      DecodeEncode(tail);
      EncodeFirst(b, head, tail);
    }
  }

  /** The first group of a text by itself. */
  lemma {:induction false} EncodeFirst(b: seq<Byte>, head: seq<Byte>, tail: seq<Byte>)
    requires b == head + tail && 1 <= |head| <= 3 && (tail != [] ==> |head| == 3)
    ensures Encode(b) == Quad(Group(head)) + Encode(tail)
    ensures Encode(b)[..4] == Quad(Group(head)) && Encode(b)[4..] == Encode(tail)
    ensures |Encode(b)| == 4 <==> tail == []
  {
    assert tail == [] ==> b == head;
    assert tail != [] ==> b[..3] == head && b[3..] == tail;
    EncodeLength(tail);
  }

  /** Whatever the strict decoder accepts is the encoding of what it returns. */
  lemma {:induction false} EncodeDecode(s: string)
    requires Decode(s).Some?
    ensures Encode(Decode(s).value) == s
    ensures s != "" ==> Decode(s).value != []
    decreases |s|
  {
    if s != "" {
      var q := Unquad(s[..4]).value;
      var head := Ungroup(q).value;
      QuadUnquad(s[..4]);
      GroupUngroup(q);
      var tail := if |s| == 4 then [] else Decode(s[4..]).value;
      assert s[4..] == "" <==> |s| == 4;
      EncodeDecode(s[4..]);
      EncodeFirst(head + tail, head, tail);
      assert Decode(s).value == head + tail;
      assert s == s[..4] + s[4..];
    }
  }
}
