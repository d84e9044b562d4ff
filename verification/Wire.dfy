/** The canonical wire format. A `Schema` names the sequence of fields that a
pair of encode and decode functions walks; a message is one value of it. */
module Wire {
  import opened Bytes
  import opened Model

  const MAX_TEXT: nat := 512
  const MAX_ELEMENTS: nat := 0x10_0000

  // ---------------------------------------------------------------- numbers

  function Pow256(width: nat): nat
    decreases width
  {
    if width == 0 then 1 else 256 * Pow256(width - 1)
  }

  /** Most significant byte first. */
  function BigEndian(n: nat, width: nat): (bytes: seq<Byte>)
    ensures |bytes| == width
    decreases width
  {
    if width == 0 then [] else BigEndian(n / 256, width - 1) + [n % 256]
  }

  function Number(bytes: seq<Byte>): nat
    decreases |bytes|
  {
    if bytes == [] then 0 else 256 * Number(bytes[..|bytes| - 1]) + bytes[|bytes| - 1]
  }

  lemma {:induction false} NumberOfBigEndian(n: nat, width: nat)
    requires n < Pow256(width)
    ensures Number(BigEndian(n, width)) == n
    decreases width
  {
    if width > 0 {
      NumberOfBigEndian(n / 256, width - 1);
      assert BigEndian(n, width)[..width - 1] == BigEndian(n / 256, width - 1);
    }
  }

  lemma Split256(high: nat, low: Byte)
    ensures (256 * high + low) / 256 == high && (256 * high + low) % 256 == low
  {
  }

  lemma NoDigits()
    ensures BigEndian(0, 0) == []
  {
  }

  lemma BigEndianStep(high: nat, low: Byte, width: nat)
    ensures BigEndian(256 * high + low, width + 1) == BigEndian(high, width) + [low]
  {
    Split256(high, low);
  }

  lemma {:induction false} BigEndianOfNumber(bytes: seq<Byte>)
    ensures Number(bytes) < Pow256(|bytes|)
    ensures BigEndian(Number(bytes), |bytes|) == bytes
    decreases |bytes|
  {
    hide BigEndian;
    if bytes == [] {
      NoDigits();
    } else {
      var init, last := bytes[..|bytes| - 1], bytes[|bytes| - 1];
      BigEndianOfNumber(init);
      BigEndianStep(Number(init), last, |init|);
      assert init + [last] == bytes;
    }
  }

  // ------------------------------------------------------------------ UTF-8

  predicate Continues(b: Byte) { 0x80 <= b <= 0xBF }

  function Low(b: Byte, m: nat): nat
    requires m > 0
  {
    b % m
  }

  /** One code point at the front: its length, or nothing when the sequence is
  truncated, overlong, a surrogate or beyond the last plane. */
  function CodePoint(text: seq<Byte>): (n: nat)
    requires text != []
    ensures n <= |text| && n <= 4
  {
    var b := text[0];
    if b <= 0x7F then 1
    else if 0xC2 <= b <= 0xDF && |text| >= 2 && Continues(text[1]) then 2
    else if 0xE0 <= b <= 0xEF && |text| >= 3 && Continues(text[1]) && Continues(text[2]) then
      var code := 4096 * Low(b, 16) + 64 * Low(text[1], 64) + Low(text[2], 64);
      if code < 0x800 || 0xD800 <= code <= 0xDFFF then 0 else 3
    else if 0xF0 <= b <= 0xF4 && |text| >= 4 && Continues(text[1]) && Continues(text[2]) && Continues(text[3]) then
      var code := 262144 * Low(b, 8) + 4096 * Low(text[1], 64) + 64 * Low(text[2], 64) + Low(text[3], 64);
      if code < 0x10000 || code > 0x10FFFF then 0 else 4
    else 0
  }

  predicate ValidUtf8(text: seq<Byte>)
    decreases |text|
  {
    text == [] || (CodePoint(text) > 0 && ValidUtf8(text[CodePoint(text)..]))
  }

  // ----------------------------------------------------------------- schemas

  datatype Schema =
    | Unit
    | Uint(width: nat)
    | Signed
    | Flag
    | Enum(count: nat)
    | Scalar(max: nat)
    | Text
    | Fixed(size: nat)
    | Pair(first: Schema, second: Schema)
    | Maybe(inner: Schema)
    | List(bound: nat, element: Schema)

  datatype Value =
    | Nothing
    | Num(n: int)
    | Bool(b: bool)
    | Str(text: seq<Byte>)
    | Both(first: Value, second: Value)
    | Absent
    | Present(inner: Value)
    | Items(items: seq<Value>)

  /** Fewest bytes a value takes on the wire. */
  function MinSize(s: Schema): nat {
    match s
    case Unit => 0
    case Uint(w) => w
    case Signed => 8
    case Flag => 1
    case Enum(_) => 1
    case Scalar(_) => 8
    case Text => 2
    case Fixed(n) => n
    case Pair(a, b) => MinSize(a) + MinSize(b)
    case Maybe(_) => 1
    case List(_, _) => 4
  }

  /** Collections have elements of at least one byte, enums fit a byte and scalars a word. */
  predicate WellFormed(s: Schema) {
    match s
    case Enum(count) => count <= 256
    case Scalar(max) => max < Pow256(8)
    case Pair(a, b) => WellFormed(a) && WellFormed(b)
    case Maybe(inner) => WellFormed(inner)
    case List(_, e) => WellFormed(e) && MinSize(e) > 0
    case _ => true
  }

  const HALF: int := 0x8000_0000_0000_0000

  /** The values that the format can carry faithfully. */
  predicate Fits(s: Schema, v: Value)
    decreases s
  {
    match s
    case Unit => v.Nothing?
    case Uint(w) => v.Num? && 0 <= v.n < Pow256(w)
    case Signed => v.Num? && -HALF <= v.n < HALF
    case Flag => v.Bool?
    case Enum(count) => v.Num? && 0 <= v.n < count
    case Scalar(max) => v.Num? && 0 <= v.n <= max
    case Text => v.Str? && |v.text| <= MAX_TEXT && ValidUtf8(v.text)
    case Fixed(n) => v.Str? && |v.text| == n
    case Pair(a, b) => v.Both? && Fits(a, v.first) && Fits(b, v.second)
    case Maybe(inner) => v.Absent? || (v.Present? && Fits(inner, v.inner))
    case List(bound, e) =>
      && v.Items? && |v.items| <= bound && |v.items| <= MAX_ELEMENTS
      && forall i :: 0 <= i < |v.items| ==> Fits(e, v.items[i])
  }

  function Wrapped(n: int): nat
    requires -HALF <= n < HALF
  {
    if n < 0 then n + U64 else n
  }

  function Unwrapped(n: nat): int { if n < HALF then n else n - U64 }

  function Encode(s: Schema, v: Value): seq<Byte>
    requires Fits(s, v)
    decreases s, 0
  {
    match s
    case Unit => []
    case Uint(w) => BigEndian(v.n, w)
    case Signed => BigEndian(Wrapped(v.n), 8)
    case Flag => if v.b then [1] else [0]
    case Enum(_) => BigEndian(v.n, 1)
    case Scalar(_) => BigEndian(v.n, 8)
    case Text => BigEndian(|v.text|, 2) + v.text
    case Fixed(_) => v.text
    case Pair(a, b) => Encode(a, v.first) + Encode(b, v.second)
    case Maybe(inner) => if v.Absent? then [0] else [1] + Encode(inner, v.inner)
    case List(_, e) => BigEndian(|v.items|, 4) + EncodeItems(e, v.items)
  }

  function EncodeItems(e: Schema, items: seq<Value>): seq<Byte>
    requires forall i :: 0 <= i < |items| ==> Fits(e, items[i])
    decreases e, 1 + |items|
  {
    if items == [] then [] else Encode(e, items[0]) + EncodeItems(e, items[1..])
  }

  // ---------------------------------------------------------------- decoding

  datatype Parsed = Refusal | Got(value: Value, rest: seq<Byte>)

  function Natural(data: seq<Byte>, width: nat): (p: Parsed)
    ensures p.Got? <==> |data| >= width
    ensures p.Got? ==> p.value == Num(Number(data[..width])) && p.rest == data[width..]
  {
    if |data| < width then Refusal else Got(Num(Number(data[..width])), data[width..])
  }

  /** What the decoder makes of the front of a message, or that it refuses. */
  function Decode(s: Schema, data: seq<Byte>): Parsed
    decreases s, 0
  {
    match s
    case Unit => Got(Nothing, data)
    case Uint(w) => Natural(data, w)
    case Signed =>
      if |data| < 8 then Refusal else Got(Num(Unwrapped(Number(data[..8]))), data[8..])
    case Flag =>
      if data == [] || data[0] > 1 then Refusal else Got(Bool(data[0] == 1), data[1..])
    case Enum(count) =>
      var p := Natural(data, 1);
      if p.Refusal? || p.value.n >= count then Refusal else p
    case Scalar(max) =>
      var p := Natural(data, 8);
      if p.Refusal? || p.value.n > max then Refusal else p
    case Text =>
      if |data| < 2 then Refusal
      else
        var length := Number(data[..2]);
        if length > MAX_TEXT || |data| - 2 < length || !ValidUtf8(data[2..2 + length]) then Refusal
        else Got(Str(data[2..2 + length]), data[2 + length..])
    case Fixed(n) => if |data| < n then Refusal else Got(Str(data[..n]), data[n..])
    case Pair(a, b) =>
      var p := Decode(a, data);
      if p.Refusal? then Refusal
      else
        var q := Decode(b, p.rest);
        if q.Refusal? then Refusal else Got(Both(p.value, q.value), q.rest)
    case Maybe(inner) =>
      if data == [] || data[0] > 1 then Refusal
      else if data[0] == 0 then Got(Absent, data[1..])
      else
        var p := Decode(inner, data[1..]);
        if p.Refusal? then Refusal else Got(Present(p.value), p.rest)
    case List(bound, e) =>
      if |data| < 4 then Refusal
      else
        var count := Number(data[..4]);
        if count > MAX_ELEMENTS || count > |data| - 4 || count > bound then Refusal
        else DecodeItems(e, count, data[4..])
  }

  function DecodeItems(e: Schema, count: nat, data: seq<Byte>): (p: Parsed)
    ensures p.Got? ==> p.value.Items? && |p.value.items| == count
    decreases e, 1 + count
  {
    if count == 0 then Got(Items([]), data)
    else
      var p := Decode(e, data);
      if p.Refusal? then Refusal
      else
        var q := DecodeItems(e, count - 1, p.rest);
        if q.Refusal? then Refusal else Got(Items([p.value] + q.value.items), q.rest)
  }

  /** A complete message: nothing may follow it. */
  function DecodeAll(s: Schema, data: seq<Byte>): Option<Value> {
    var p := Decode(s, data);
    if p.Got? && p.rest == [] then Some(p.value) else None
  }

  // ------------------------------------------------------------- both inverses

  lemma {:induction false} EncodeLength(s: Schema, v: Value)
    requires Fits(s, v)
    ensures |Encode(s, v)| >= MinSize(s)
    decreases s
  {
    match s
    case Pair(a, b) =>
      EncodeLength(a, v.first);
      EncodeLength(b, v.second);
    case _ =>
  }

  lemma {:induction false} ItemsLength(e: Schema, items: seq<Value>)
    requires MinSize(e) > 0 && forall i :: 0 <= i < |items| ==> Fits(e, items[i])
    ensures |EncodeItems(e, items)| >= |items|
    decreases |items|
  {
    if items != [] {
      EncodeLength(e, items[0]);
      ItemsLength(e, items[1..]);
    }
  }

  lemma NaturalRoundTrip(n: nat, width: nat, tail: seq<Byte>)
    requires n < Pow256(width)
    ensures Natural(BigEndian(n, width) + tail, width) == Got(Num(n), tail)
    ensures (BigEndian(n, width) + tail)[..width] == BigEndian(n, width) && Number(BigEndian(n, width)) == n
  {
    hide BigEndian, Number;
    NumberOfBigEndian(n, width);
    assert (BigEndian(n, width) + tail)[..width] == BigEndian(n, width);
  }

  lemma SmallPowers()
    ensures Pow256(1) == 256 && Pow256(2) == 65536 && Pow256(4) == 0x1_0000_0000 && Pow256(8) == U64
  {
    assert Pow256(3) == 16777216 && Pow256(5) == 256 * Pow256(4) && Pow256(6) == 256 * Pow256(5) && Pow256(7) == 256 * Pow256(6);
  }

  lemma TextRoundTrip(text: seq<Byte>, tail: seq<Byte>)
    requires |text| <= MAX_TEXT && ValidUtf8(text)
    ensures Decode(Text, BigEndian(|text|, 2) + text + tail) == Got(Str(text), tail)
  {
    hide BigEndian, Number, ValidUtf8, Pow256;
    SmallPowers();
    NaturalRoundTrip(|text|, 2, text + tail);
    var data := BigEndian(|text|, 2) + text + tail;
    assert data == BigEndian(|text|, 2) + (text + tail);
    assert data[2..2 + |text|] == text && data[2 + |text|..] == tail;
  }

  lemma NumberRoundTrip(s: Schema, v: Value, tail: seq<Byte>)
    requires WellFormed(s) && (s.Uint? || s.Signed? || s.Enum? || s.Scalar?) && Fits(s, v)
    ensures Decode(s, Encode(s, v) + tail) == Got(v, tail)
  {
    hide BigEndian, Number, Pow256, Natural;
    SmallPowers();
    match s
    case Uint(w) => NaturalRoundTrip(v.n, w, tail);
    case Signed => NaturalRoundTrip(Wrapped(v.n), 8, tail);
    case Enum(_) => NaturalRoundTrip(v.n, 1, tail);
    case Scalar(_) => NaturalRoundTrip(v.n, 8, tail);
  }

  lemma PrimitiveRoundTrip(s: Schema, v: Value, tail: seq<Byte>)
    requires WellFormed(s) && !s.Pair? && !s.Maybe? && !s.List? && Fits(s, v)
    ensures Decode(s, Encode(s, v) + tail) == Got(v, tail)
  {
    hide BigEndian, Number, ValidUtf8, Pow256, Natural;
    match s
    case Unit => assert Encode(s, v) + tail == tail;
    case Flag =>
    case Text => TextRoundTrip(v.text, tail);
    case Fixed(n) => assert (v.text + tail)[..n] == v.text && (v.text + tail)[n..] == tail;
    case _ => NumberRoundTrip(s, v, tail);
  }

  lemma ListRoundTrip(bound: nat, e: Schema, items: seq<Value>, tail: seq<Byte>)
    requires WellFormed(List(bound, e)) && Fits(List(bound, e), Items(items))
    requires DecodeItems(e, |items|, EncodeItems(e, items) + tail) == Got(Items(items), tail)
    ensures Decode(List(bound, e), Encode(List(bound, e), Items(items)) + tail) == Got(Items(items), tail)
  {
    hide BigEndian, Number, Pow256, Natural, EncodeItems, DecodeItems;
    SmallPowers();
    var body := EncodeItems(e, items);
    var data := BigEndian(|items|, 4) + body + tail;
    assert data == BigEndian(|items|, 4) + (body + tail);
    NaturalRoundTrip(|items|, 4, body + tail);
    assert data[4..] == body + tail;
    ItemsLength(e, items);
  }

  lemma PairRoundTrip(a: Schema, b: Schema, v: Value, w: Value, front: seq<Byte>, back: seq<Byte>, tail: seq<Byte>)
    requires Decode(a, front + (back + tail)) == Got(v, back + tail)
    requires Decode(b, back + tail) == Got(w, tail)
    ensures Decode(Pair(a, b), front + back + tail) == Got(Both(v, w), tail)
  {
    hide Decode;
    assert front + back + tail == front + (back + tail);
    PairDecodes(a, b, front + (back + tail));
  }

  lemma MaybeRoundTrip(inner: Schema, v: Value, tail: seq<Byte>)
    requires Fits(inner, v) && Decode(inner, Encode(inner, v) + tail) == Got(v, tail)
    ensures Decode(Maybe(inner), Encode(Maybe(inner), Present(v)) + tail) == Got(Present(v), tail)
  {
    hide Decode, Encode, Fits;
    MaybeEncodes(inner, v);
    var data := [1] + Encode(inner, v) + tail;
    assert data[1..] == Encode(inner, v) + tail;
    MaybeDecodes(inner, data);
  }

  lemma PairDecodes(a: Schema, b: Schema, data: seq<Byte>)
    ensures var p := Decode(a, data);
            Decode(Pair(a, b), data) ==
            if p.Refusal? then Refusal
            else
              var q := Decode(b, p.rest);
              if q.Refusal? then Refusal else Got(Both(p.value, q.value), q.rest)
  {
  }

  lemma PairEncodes(a: Schema, b: Schema, v: Value, w: Value)
    requires Fits(a, v) && Fits(b, w)
    ensures Fits(Pair(a, b), Both(v, w)) && Encode(Pair(a, b), Both(v, w)) == Encode(a, v) + Encode(b, w)
  {
  }

  lemma MaybeDecodes(inner: Schema, data: seq<Byte>)
    ensures Decode(Maybe(inner), data) ==
            if data == [] || data[0] > 1 then Refusal
            else if data[0] == 0 then Got(Absent, data[1..])
            else
              var p := Decode(inner, data[1..]);
              if p.Refusal? then Refusal else Got(Present(p.value), p.rest)
  {
  }

  lemma MaybeEncodes(inner: Schema, v: Value)
    requires Fits(inner, v)
    ensures Fits(Maybe(inner), Present(v)) && Encode(Maybe(inner), Present(v)) == [1] + Encode(inner, v)
  {
  }

  lemma AbsentRoundTrip(inner: Schema, tail: seq<Byte>)
    ensures Fits(Maybe(inner), Absent) && Encode(Maybe(inner), Absent) == [0]
    ensures Decode(Maybe(inner), [0] + tail) == Got(Absent, tail)
  {
  }

  lemma PartsFit(s: Schema, v: Value)
    requires WellFormed(s) && Fits(s, v)
    ensures s.Pair? ==> v.Both? && WellFormed(s.first) && WellFormed(s.second) && Fits(s.first, v.first) && Fits(s.second, v.second)
    ensures s.Maybe? ==> WellFormed(s.inner) && (v.Absent? || (v.Present? && Fits(s.inner, v.inner)))
    ensures s.List? ==> WellFormed(s.element) && v.Items? && forall i :: 0 <= i < |v.items| ==> Fits(s.element, v.items[i])
  {
  }

  /** Decoding the encoding of a value, whatever follows it, gives the value and what followed. */
  lemma {:induction false} RoundTrip(s: Schema, v: Value, tail: seq<Byte>)
    requires WellFormed(s) && Fits(s, v)
    ensures Decode(s, Encode(s, v) + tail) == Got(v, tail)
    decreases s, 0
  {
    hide Decode, Encode, Fits, WellFormed;
    PartsFit(s, v);
    match s
    case Pair(a, b) =>
      RoundTrip(a, v.first, Encode(b, v.second) + tail);
      RoundTrip(b, v.second, tail);
      PairEncodes(a, b, v.first, v.second);
      PairRoundTrip(a, b, v.first, v.second, Encode(a, v.first), Encode(b, v.second), tail);
    case Maybe(inner) =>
      if v.Present? {
        RoundTrip(inner, v.inner, tail);
        MaybeRoundTrip(inner, v.inner, tail);
      } else {
        AbsentRoundTrip(inner, tail);
      }
    case List(bound, e) =>
      ItemsRoundTrip(e, v.items, tail);
      ListRoundTrip(bound, e, v.items, tail);
    case _ => PrimitiveRoundTrip(s, v, tail);
  }

  lemma {:induction false} ItemsRoundTrip(e: Schema, items: seq<Value>, tail: seq<Byte>)
    requires WellFormed(e) && forall i :: 0 <= i < |items| ==> Fits(e, items[i])
    ensures DecodeItems(e, |items|, EncodeItems(e, items) + tail) == Got(Items(items), tail)
    decreases e, 1 + |items|
  {
    hide WellFormed, Fits, Decode, Encode;
    if items == [] {
      assert EncodeItems(e, items) + tail == tail;
    } else {
      var front, back := Encode(e, items[0]), EncodeItems(e, items[1..]);
      assert front + back + tail == front + (back + tail);
      RoundTrip(e, items[0], back + tail);
      ItemsRoundTrip(e, items[1..], tail);
      assert [items[0]] + items[1..] == items;
    }
  }

  lemma NaturalCanonical(data: seq<Byte>, width: nat)
    requires |data| >= width
    ensures var n := Number(data[..width]); n < Pow256(width) && data == BigEndian(n, width) + data[width..]
  {
    hide BigEndian, Number, Pow256;
    BigEndianOfNumber(data[..width]);
    assert data == data[..width] + data[width..];
  }

  lemma TextCanonical(data: seq<Byte>)
    requires Decode(Text, data).Got?
    ensures var p := Decode(Text, data); Fits(Text, p.value) && data == BigEndian(|p.value.text|, 2) + p.value.text + p.rest
  {
    hide BigEndian, Number, ValidUtf8, Pow256;
    NaturalCanonical(data, 2);
    var length := Number(data[..2]);
    assert data[2..] == data[2..2 + length] + data[2 + length..];
  }

  lemma NumberCanonical(s: Schema, data: seq<Byte>)
    requires WellFormed(s) && (s.Uint? || s.Signed? || s.Enum? || s.Scalar?) && Decode(s, data).Got?
    ensures var p := Decode(s, data); Fits(s, p.value) && data == Encode(s, p.value) + p.rest
  {
    hide BigEndian, Number, Pow256;
    SmallPowers();
    match s
    case Uint(w) => NaturalCanonical(data, w);
    case Signed => NaturalCanonical(data, 8);
    case Enum(_) => NaturalCanonical(data, 1);
    case Scalar(_) => NaturalCanonical(data, 8);
  }

  lemma PrimitiveCanonical(s: Schema, data: seq<Byte>)
    requires WellFormed(s) && !s.Pair? && !s.Maybe? && !s.List? && Decode(s, data).Got?
    ensures var p := Decode(s, data); Fits(s, p.value) && data == Encode(s, p.value) + p.rest
  {
    hide BigEndian, Number, ValidUtf8, Pow256, Natural;
    match s
    case Unit =>
    case Flag => assert data == [data[0]] + data[1..];
    case Text => TextCanonical(data);
    case Fixed(n) => assert data == data[..n] + data[n..];
    case _ => NumberCanonical(s, data);
  }

  lemma PairCanonical(a: Schema, b: Schema, data: seq<Byte>)
    requires Decode(Pair(a, b), data).Got? && Decode(a, data).Got? && Decode(b, Decode(a, data).rest).Got?
    requires var p := Decode(a, data); Fits(a, p.value) && data == Encode(a, p.value) + p.rest
    requires var q := Decode(b, Decode(a, data).rest); Fits(b, q.value) && Decode(a, data).rest == Encode(b, q.value) + q.rest
    ensures var r := Decode(Pair(a, b), data); Fits(Pair(a, b), r.value) && data == Encode(Pair(a, b), r.value) + r.rest
  {
    hide Decode, Encode, Fits;
    PairDecodes(a, b, data);
    var p := Decode(a, data);
    var q := Decode(b, p.rest);
    PairEncodes(a, b, p.value, q.value);
    var front, back := Encode(a, p.value), Encode(b, q.value);
    assert front + (back + q.rest) == front + back + q.rest;
  }

  lemma MaybeCanonical(inner: Schema, data: seq<Byte>)
    requires Decode(Maybe(inner), data).Got? && data != []
    requires data[0] == 1 ==>
               var p := Decode(inner, data[1..]); p.Got? && Fits(inner, p.value) && data[1..] == Encode(inner, p.value) + p.rest
    ensures var r := Decode(Maybe(inner), data); Fits(Maybe(inner), r.value) && data == Encode(Maybe(inner), r.value) + r.rest
  {
    hide Decode, Encode, Fits;
    MaybeDecodes(inner, data);
    assert data == [data[0]] + data[1..];
    if data[0] == 1 {
      var p := Decode(inner, data[1..]);
      MaybeEncodes(inner, p.value);
      assert [1] + (Encode(inner, p.value) + p.rest) == [1] + Encode(inner, p.value) + p.rest;
    } else {
      AbsentRoundTrip(inner, data[1..]);
    }
  }

  lemma ListCanonical(bound: nat, e: Schema, data: seq<Byte>)
    requires Decode(List(bound, e), data).Got?
    requires var p := DecodeItems(e, Number(data[..4]), data[4..]);
             && (forall i :: 0 <= i < |p.value.items| ==> Fits(e, p.value.items[i]))
             && data[4..] == EncodeItems(e, p.value.items) + p.rest
    ensures var r := Decode(List(bound, e), data); Fits(List(bound, e), r.value) && data == Encode(List(bound, e), r.value) + r.rest
  {
    hide BigEndian, Number, Pow256;
    NaturalCanonical(data, 4);
    var count := Number(data[..4]);
    var p := DecodeItems(e, count, data[4..]);
    var body := EncodeItems(e, p.value.items);
    assert BigEndian(count, 4) + (body + p.rest) == BigEndian(count, 4) + body + p.rest;
  }

  lemma Parts(s: Schema, data: seq<Byte>)
    requires WellFormed(s) && Decode(s, data).Got?
    ensures s.Pair? ==> WellFormed(s.first) && WellFormed(s.second) && Decode(s.first, data).Got?
                        && Decode(s.second, Decode(s.first, data).rest).Got?
    ensures s.Maybe? ==> WellFormed(s.inner) && data != [] && (data[0] == 1 ==> Decode(s.inner, data[1..]).Got?)
    ensures s.List? ==> WellFormed(s.element) && |data| >= 4 && DecodeItems(s.element, Number(data[..4]), data[4..]).Got?
  {
  }

  /** Whatever the decoder accepts is byte for byte the encoding of what it returned. */
  lemma {:induction false} Canonical(s: Schema, data: seq<Byte>)
    requires WellFormed(s) && Decode(s, data).Got?
    ensures var p := Decode(s, data); Fits(s, p.value) && data == Encode(s, p.value) + p.rest
    decreases s, 0
  {
    hide WellFormed, Decode, Encode, Fits;
    Parts(s, data);
    match s
    case Pair(a, b) =>
      Canonical(a, data);
      Canonical(b, Decode(a, data).rest);
      PairCanonical(a, b, data);
    case Maybe(inner) =>
      if data[0] == 1 { Canonical(inner, data[1..]); }
      MaybeCanonical(inner, data);
    case List(bound, e) =>
      ItemsCanonical(e, Number(data[..4]), data[4..]);
      ListCanonical(bound, e, data);
    case _ => PrimitiveCanonical(s, data);
  }

  lemma {:induction false} ItemsCanonical(e: Schema, count: nat, data: seq<Byte>)
    requires WellFormed(e) && DecodeItems(e, count, data).Got?
    ensures var p := DecodeItems(e, count, data);
            && (forall i :: 0 <= i < count ==> Fits(e, p.value.items[i]))
            && data == EncodeItems(e, p.value.items) + p.rest
    decreases e, 1 + count
  {
    hide WellFormed, Fits, Decode, Encode;
    if count > 0 {
      var p := Decode(e, data);
      Canonical(e, data);
      ItemsCanonical(e, count - 1, p.rest);
      var q := DecodeItems(e, count - 1, p.rest);
      var items := [p.value] + q.value.items;
      assert items[1..] == q.value.items;
      assert Encode(e, p.value) + (EncodeItems(e, q.value.items) + q.rest) == Encode(e, p.value) + EncodeItems(e, q.value.items) + q.rest;
    }
  }

  /** No strict prefix of an encoding is accepted. */
  lemma PrefixRefused(s: Schema, v: Value, k: nat)
    requires WellFormed(s) && Fits(s, v) && k < |Encode(s, v)|
    ensures Decode(s, Encode(s, v)[..k]).Refusal?
  {
    hide WellFormed, Fits, Decode, Encode;
    var whole := Encode(s, v);
    var front, back := whole[..k], whole[k..];
    assert whole == front + back && whole + [] == whole;
    var p := Decode(s, front);
    if p.Got? {
      Canonical(s, front);
      assert front + back == Encode(s, p.value) + (p.rest + back);
      RoundTrip(s, p.value, p.rest + back);
      RoundTrip(s, v, []);
    }
  }

  // --------------------------------------------------- what encoders really write

  /** The right kind of value, whether or not the format can carry it. */
  predicate Shaped(s: Schema, v: Value)
    decreases s
  {
    match s
    case Text => v.Str?
    case Pair(a, b) => v.Both? && Shaped(a, v.first) && Shaped(b, v.second)
    case Maybe(inner) => v.Absent? || (v.Present? && Shaped(inner, v.inner))
    case List(_, e) => v.Items? && forall i :: 0 <= i < |v.items| ==> Shaped(e, v.items[i])
    case _ => Fits(s, v)
  }

  predicate TextOk(text: seq<Byte>) { |text| <= MAX_TEXT && ValidUtf8(text) }

  /** An encoder writes nothing for a text it refuses, truncates a count to 32 bits, and checks no bound. */
  function Written(s: Schema, v: Value): seq<Byte>
    requires Shaped(s, v)
    decreases s, 0
  {
    match s
    case Text => if TextOk(v.text) then BigEndian(|v.text|, 2) + v.text else []
    case Pair(a, b) => Written(a, v.first) + Written(b, v.second)
    case Maybe(inner) => if v.Absent? then [0] else [1] + Written(inner, v.inner)
    case List(_, e) => BigEndian(|v.items| % 0x1_0000_0000, 4) + WrittenItems(e, v.items)
    case _ => Encode(s, v)
  }

  function WrittenItems(e: Schema, items: seq<Value>): seq<Byte>
    requires forall i :: 0 <= i < |items| ==> Shaped(e, items[i])
    decreases e, 1 + |items|
  {
    if items == [] then [] else Written(e, items[0]) + WrittenItems(e, items[1..])
  }

  /** The sticky status of the encoder, which its callers ignore. */
  predicate Accepted(s: Schema, v: Value)
    requires Shaped(s, v)
    decreases s
  {
    match s
    case Text => TextOk(v.text)
    case Pair(a, b) => Accepted(a, v.first) && Accepted(b, v.second)
    case Maybe(inner) => v.Absent? || Accepted(inner, v.inner)
    case List(_, e) => forall i :: 0 <= i < |v.items| ==> Accepted(e, v.items[i])
    case _ => true
  }

  lemma {:induction false} FitsWritten(s: Schema, v: Value)
    requires Fits(s, v)
    ensures Shaped(s, v) && Written(s, v) == Encode(s, v)
    decreases s, 0
  {
    hide BigEndian, ValidUtf8, Pow256;
    match s
    case Pair(a, b) =>
      FitsWritten(a, v.first);
      FitsWritten(b, v.second);
    case Maybe(inner) => if v.Present? { FitsWritten(inner, v.inner); }
    case List(_, e) =>
      ItemsFitWritten(e, v.items);
    case _ =>
  }

  lemma {:induction false} ItemsFitWritten(e: Schema, items: seq<Value>)
    requires forall i :: 0 <= i < |items| ==> Fits(e, items[i])
    ensures (forall i :: 0 <= i < |items| ==> Shaped(e, items[i])) && WrittenItems(e, items) == EncodeItems(e, items)
    decreases e, 1 + |items|
  {
    hide Fits, Shaped, Written, Encode;
    if items != [] {
      FitsWritten(e, items[0]);
      ItemsFitWritten(e, items[1..]);
      assert forall i :: 0 < i < |items| ==> items[i] == items[1..][i - 1];
    }
  }

  /** What was written reads back as the same value exactly when the format can carry that value. */
  lemma RoundTripExact(s: Schema, v: Value)
    requires WellFormed(s) && Shaped(s, v)
    ensures DecodeAll(s, Written(s, v)) == Some(v) <==> Fits(s, v)
  {
    hide WellFormed, Fits, Shaped, Written, Encode, Decode;
    if Fits(s, v) {
      FitsWritten(s, v);
      RoundTrip(s, v, []);
      assert Encode(s, v) + [] == Encode(s, v);
    }
    if DecodeAll(s, Written(s, v)) == Some(v) {
      Canonical(s, Written(s, v));
    }
  }
}
