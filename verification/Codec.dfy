/** The encoder and decoder objects: one appends to a buffer, the other advances
over a message, and both keep a sticky failure state. */
module Codec {
  import opened Bytes
  import opened Model
  import opened Wire

  class Encoder {
    var raw: seq<Byte>
    var ok: bool

    constructor ()
      ensures raw == [] && ok
    {
      raw, ok := [], true;
    }

    /** Appends a number byte by byte, most significant first. */
    method Integer(value: nat, width: nat)
      modifies this`raw
      ensures raw == old(raw) + BigEndian(value, width)
    {
      for i := 0 to width
        invariant raw == old(raw) + BigEndian(value, width)[..i]
      {
        ByteAt(value, width, i);
        PowPositive(width - 1 - i);
        var b := value / Pow256(width - 1 - i) % 256;
        assert BigEndian(value, width)[..i + 1] == BigEndian(value, width)[..i] + [b];
        raw := raw + [b];
      }
      assert BigEndian(value, width)[..width] == BigEndian(value, width);
    }

    method String(text: seq<Byte>)
      modifies this
      ensures raw == old(raw) + if TextOk(text) then BigEndian(|text|, 2) + text else []
      ensures ok == (old(ok) && TextOk(text))
    {
      if |text| > MAX_TEXT { ok := false; return; }
      var valid := CheckUtf8(text);
      if !valid { ok := false; return; }
      Integer(|text|, 2);
      raw := raw + text;
    }

    /** Appends a value field by field; a field that is refused only leaves its mark in the status. */
    method Put(s: Schema, v: Value)
      requires Shaped(s, v)
      modifies this
      ensures raw == old(raw) + Written(s, v)
      ensures ok == (old(ok) && Accepted(s, v))
      decreases s, 0
    {
      hide BigEndian, ValidUtf8, Pow256;
      match s {
        case Unit =>
        case Uint(w) => Integer(v.n, w);
        case Signed => Integer(Wrapped(v.n), 8);
        case Flag => raw := raw + [if v.b then 1 else 0];
        case Enum(_) => Integer(v.n, 1);
        case Scalar(_) => Integer(v.n, 8);
        case Text => String(v.text);
        case Fixed(_) => raw := raw + v.text;
        case Pair(a, b) =>
          Put(a, v.first);
          Put(b, v.second);
        case Maybe(inner) =>
          raw := raw + [if v.Present? then 1 else 0];
          if v.Present? { Put(inner, v.inner); }
        case List(_, e) => PutItems(e, v.items);
      }
    }

    method PutItems(e: Schema, items: seq<Value>)
      requires forall i :: 0 <= i < |items| ==> Shaped(e, items[i])
      modifies this
      ensures raw == old(raw) + BigEndian(|items| % 0x1_0000_0000, 4) + WrittenItems(e, items)
      ensures ok == (old(ok) && forall i :: 0 <= i < |items| ==> Accepted(e, items[i]))
      decreases e, 1
    {
      hide BigEndian, Written, Shaped, Accepted;
      Integer(|items| % 0x1_0000_0000, 4);
      ghost var start := raw;
      for i := 0 to |items|
        invariant raw + WrittenItems(e, items[i..]) == start + WrittenItems(e, items)
        invariant ok == (old(ok) && forall k :: 0 <= k < i ==> Accepted(e, items[k]))
      {
        assert items[i..][0] == items[i] && items[i..][1..] == items[i + 1..];
        Put(e, items[i]);
      }
      assert raw + [] == raw;
    }
  }

  lemma PowPositive(k: nat)
    ensures Pow256(k) > 0
  {
  }

  lemma {:induction false} ByteAt(n: nat, width: nat, i: nat)
    requires i < width
    ensures Pow256(width - 1 - i) > 0 && BigEndian(n, width)[i] == n / Pow256(width - 1 - i) % 256
    decreases width
  {
    PowPositive(width - 1 - i);
    if i < width - 1 {
      ByteAt(n / 256, width - 1, i);
      Nested(n, Pow256(width - 2 - i));
    }
  }

  lemma Nested(n: nat, m: nat)
    requires m > 0
    ensures n / 256 / m == n / (256 * m)
  {
    var q := n / 256 / m;
    var r := n / 256 % m;
    assert n / 256 == q * m + r;
    var t := n % 256;
    assert n == 256 * (q * m + r) + t == q * (256 * m) + (256 * r + t);
    assert 256 * r + t < 256 * m;
    Quotient(n, 256 * m, q, 256 * r + t);
  }

  lemma Quotient(n: nat, d: nat, q: nat, r: nat)
    requires d > 0 && n == q * d + r && r < d
    ensures n / d == q
  {
    var k, m := n / d, n % d;
    assert n == k * d + m;
    assert (k - q) * d == r - m;
    Multiple(k - q, d);
  }

  lemma Multiple(x: int, d: nat)
    ensures x >= 1 ==> x * d >= d
    ensures x <= -1 ==> x * d + d <= 0
  {
    if x >= 1 { assert (x - 1) * d >= 0; }
    if x <= -1 { assert (x + 1) * d <= 0; }
  }

  /** Scans a text one code point at a time. */
  method CheckUtf8(text: seq<Byte>) returns (ok: bool)
    ensures ok <==> ValidUtf8(text)
  {
    hide CodePoint;
    var i := 0;
    while i < |text|
      invariant 0 <= i <= |text|
      invariant ValidUtf8(text[i..]) <==> ValidUtf8(text)
      decreases |text| - i
    {
      var n := CodePoint(text[i..]);
      if n == 0 { return false; }
      assert text[i..][n..] == text[i + n..];
      i := i + n;
    }
    return true;
  }

  /** Values already read in front of a collection that is still being read. */
  function Prepend(items: seq<Value>, p: Parsed): Parsed
    requires p.Got? ==> p.value.Items?
  {
    if p.Refusal? then Refusal else Got(Items(items + p.value.items), p.rest)
  }

  class Decoder {
    const data: seq<Byte>
    var offset: nat
    var ok: bool

    ghost predicate Valid()
      reads this
    {
      offset <= |data|
    }

    constructor (message: seq<Byte>)
      ensures Valid() && data == message && offset == 0 && ok
    {
      data, offset, ok := message, 0, true;
    }

    /** The decoder after reading something: it stands behind it, or it failed for good. */
    twostate predicate Advanced(p: Parsed, v: Value)
      reads this
    {
      && Valid() && old(offset) <= offset
      && (!old(ok) ==> !ok && offset == old(offset))
      && (old(ok) ==> ok == p.Got? && (p.Got? ==> v == p.value && data[offset..] == p.rest))
    }

    method Integer(width: nat) returns (n: nat)
      requires Valid()
      modifies this
      ensures Advanced(Natural(data[old(offset)..], width), Num(n))
    {
      n := 0;
      if !ok { return; }
      if |data| - offset < width { ok := false; return; }
      var raw := data[offset..offset + width];
      assert raw == data[offset..][..width];
      for i := 0 to width
        invariant n == Number(raw[..i])
      {
        assert raw[..i + 1][..i] == raw[..i];
        n := 256 * n + raw[i];
      }
      assert raw[..width] == raw;
      offset := offset + width;
    }

    /** A byte that must be exactly zero or one. */
    method Boolean() returns (b: bool)
      requires Valid()
      modifies this
      ensures Advanced(Decode(Flag, data[old(offset)..]), Bool(b))
    {
      b := false;
      if !ok { return; }
      if offset == |data| { ok := false; return; }
      var raw := data[offset];
      assert data[offset..][0] == raw;
      offset := offset + 1;
      if raw > 1 { ok := false; return; }
      b := raw == 1;
    }

    method String() returns (text: seq<Byte>)
      requires Valid()
      modifies this
      ensures Advanced(Decode(Text, data[old(offset)..]), Str(text))
    {
      hide Number, ValidUtf8;
      text := [];
      ghost var front := data[offset..];
      var length := Integer(2);
      if !ok { return; }
      if length > MAX_TEXT || |data| - offset < length { ok := false; return; }
      var view := data[offset..offset + length];
      assert view == front[2..2 + length];
      var valid := CheckUtf8(view);
      if !valid { ok := false; return; }
      text := view;
      offset := offset + length;
      assert data[offset..] == front[2 + length..];
    }

    method Raw(size: nat) returns (bytes: seq<Byte>)
      requires Valid()
      modifies this
      ensures Advanced(Decode(Fixed(size), data[old(offset)..]), Str(bytes))
    {
      bytes := [];
      if !ok { return; }
      if |data| - offset < size { ok := false; return; }
      bytes := data[offset..offset + size];
      offset := offset + size;
    }

    /** Reads a value field by field. */
    method Get(s: Schema) returns (v: Value)
      requires Valid()
      modifies this
      ensures Advanced(Decode(s, data[old(offset)..]), v)
      decreases s, 0
    {
      hide Number, ValidUtf8, Pow256;
      v := Nothing;
      match s {
        case Unit =>
        case Uint(w) =>
          var n := Integer(w);
          v := Num(n);
        case Signed =>
          var n := Integer(8);
          v := Num(Unwrapped(n));
        case Flag =>
          var b := Boolean();
          v := Bool(b);
        case Enum(count) =>
          var n := Integer(1);
          if ok && n >= count { ok := false; }
          v := Num(n);
        case Scalar(max) =>
          var n := Integer(8);
          if ok && n > max { ok := false; }
          v := Num(n);
        case Text =>
          var text := String();
          v := Str(text);
        case Fixed(size) =>
          var bytes := Raw(size);
          v := Str(bytes);
        case Pair(a, b) =>
          var x := Get(a);
          var y := Get(b);
          v := Both(x, y);
        case Maybe(inner) =>
          var present := Boolean();
          v := Absent;
          if present {
            var x := Get(inner);
            v := Present(x);
          }
        case List(bound, e) =>
          v := GetItems(bound, e);
      }
    }

    method GetItems(bound: nat, e: Schema) returns (v: Value)
      requires Valid()
      modifies this
      ensures Advanced(Decode(List(bound, e), data[old(offset)..]), v)
      decreases e, 1
    {
      hide Number, Decode, DecodeItems, Prepend;
      v := Nothing;
      ghost var front := data[offset..];
      ListDecodes(bound, e, front);
      var count := Integer(4);
      if !ok { return; }
      if count > MAX_ELEMENTS || count > |data| - offset || count > bound { ok := false; return; }
      var items: seq<Value> := [];
      ghost var whole := DecodeItems(e, count, data[offset..]);
      ghost var start := offset;
      PrependNothing(whole);
      for i := 0 to count
        invariant Valid() && ok && start <= offset && |items| == i
        invariant whole == Prepend(items, DecodeItems(e, count - i, data[offset..]))
      {
        ItemsStep(items, e, count - i, data[offset..]);
        var x := Get(e);
        if !ok { return; }
        items := items + [x];
      }
      v := Items(items);
      NoMoreItems(items, e, data[offset..]);
    }
  }

  lemma PrependNothing(p: Parsed)
    requires p.Got? ==> p.value.Items?
    ensures Prepend([], p) == p
  {
    if p.Got? { assert [] + p.value.items == p.value.items; }
  }

  lemma ItemsStep(items: seq<Value>, e: Schema, count: nat, data: seq<Byte>)
    requires count > 0
    ensures var p := Decode(e, data);
            Prepend(items, DecodeItems(e, count, data)) ==
            if p.Refusal? then Refusal else Prepend(items + [p.value], DecodeItems(e, count - 1, p.rest))
  {
    hide Decode;
    var p := Decode(e, data);
    if p.Got? {
      var q := DecodeItems(e, count - 1, p.rest);
      if q.Got? { assert items + ([p.value] + q.value.items) == items + [p.value] + q.value.items; }
    }
  }

  lemma NoMoreItems(items: seq<Value>, e: Schema, data: seq<Byte>)
    ensures Prepend(items, DecodeItems(e, 0, data)) == Got(Items(items), data)
  {
    assert items + [] == items;
  }

  lemma ListDecodes(bound: nat, e: Schema, data: seq<Byte>)
    ensures Decode(List(bound, e), data) ==
            if |data| < 4 then Refusal
            else
              var count := Number(data[..4]);
              if count > MAX_ELEMENTS || count > |data| - 4 || count > bound then Refusal else DecodeItems(e, count, data[4..])
  {
  }

  /** A complete message: decoding must end where the message ends. */
  method DecodeMessage(s: Schema, message: seq<Byte>) returns (r: Option<Value>)
    ensures r == DecodeAll(s, message)
  {
    hide Decode;
    var decoder := new Decoder(message);
    assert message[0..] == message;
    var v := decoder.Get(s);
    if !decoder.ok || decoder.offset != |message| { return None; }
    return Some(v);
  }

  method EncodeMessage(s: Schema, v: Value) returns (message: seq<Byte>, ok: bool)
    requires Shaped(s, v)
    ensures message == Written(s, v) && ok == Accepted(s, v)
  {
    var encoder := new Encoder();
    encoder.Put(s, v);
    return encoder.raw, encoder.ok;
  }
}
