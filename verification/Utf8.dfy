/** How a string, a sequence of UTF-16 units, is written as bytes (RFC 3629, section 3), and read back. */
module Utf8 {
  import opened Options

  type Byte = x: int | 0 <= x < 256
  type Bytes = seq<Byte>
  type Unit = x: int | 0 <= x < 0x10000
  type Text = seq<Unit>

  predicate IsHigh(u: Unit) {
    0xD800 <= u < 0xDC00
  }

  predicate IsLow(u: Unit) {
    0xDC00 <= u < 0xE000
  }

  /** Surrogates stand in pairs only. */
  predicate WellFormed(s: Text) {
    if s == [] then true
    else if IsHigh(s[0]) then |s| >= 2 && IsLow(s[1]) && WellFormed(s[2..])
    else !IsLow(s[0]) && WellFormed(s[1..])
  }

  /** The character two surrogates stand for. */
  function Joined(high: Unit, low: Unit): (c: int)
    requires IsHigh(high) && IsLow(low)
    ensures 0x10000 <= c < 0x110000
  {
    0x10000 + (high - 0xD800) * 1024 + (low - 0xDC00)
  }

  function One(u: Unit): Bytes {
    var a: int := u / 64;
    if u < 0x80 then [u]
    else if u < 0x800 then [192 + a, 128 + u % 64]
    else [224 + a / 64, 128 + a % 64, 128 + u % 64]
  }

  function Pair(high: Unit, low: Unit): Bytes
    requires IsHigh(high) && IsLow(low)
  {
    var c := Joined(high, low);
    var a := c / 64;
    var b := a / 64;
    [240 + b / 64, 128 + b % 64, 128 + a % 64, 128 + c % 64]
  }

  /** A surrogate without its partner is written as U+FFFD. */
  function Write(s: Text): Bytes {
    if s == [] then []
    else if IsHigh(s[0]) && |s| >= 2 && IsLow(s[1]) then Pair(s[0], s[1]) + Write(s[2..])
    else One(if IsHigh(s[0]) || IsLow(s[0]) then 0xFFFD else s[0]) + Write(s[1..])
  }

  /** How many bytes the first character takes. */
  function Width(first: Byte): nat {
    if first < 128 then 1 else if first < 224 then 2 else if first < 240 then 3 else 4
  }

  /** The number the bytes of one character stand for. */
  function Value(bytes: Bytes): int
    requires bytes != [] && |bytes| == Width(bytes[0])
  {
    var first: int := bytes[0];
    if |bytes| == 1 then first
    else if |bytes| == 2 then More(first - 192, bytes[1])
    else if |bytes| == 3 then More(More(first - 224, bytes[1]), bytes[2])
    else More(More(More(first - 240, bytes[1]), bytes[2]), bytes[3])
  }

  /** Six bits more. */
  function More(c: int, b: Byte): int {
    c * 64 + (b as int - 128)
  }

  function Units(c: int): Option<Text> {
    if 0 <= c < 0x10000 then Some([c])
    else if 0x10000 <= c < 0x110000 then Some([0xD800 + (c - 0x10000) / 1024, 0xDC00 + (c - 0x10000) % 1024])
    else None
  }

  function Read(bytes: Bytes): Option<Text> {
    if bytes == [] then Some([])
    else
      var n := Width(bytes[0]);
      if |bytes| < n then None
      else
        var first, rest := Units(Value(bytes[..n])), Read(bytes[n..]);
        if first.None? || rest.None? then None else Some(first.value + rest.value)
  }

  lemma {:induction false} OneIsRead(u: Unit)
    ensures One(u) != [] && |One(u)| == Width(One(u)[0]) && Value(One(u)) == u
  {
  }

  lemma {:induction false} PairIsRead(high: Unit, low: Unit)
    requires IsHigh(high) && IsLow(low)
    ensures Pair(high, low) != [] && |Pair(high, low)| == Width(Pair(high, low)[0])
    ensures Value(Pair(high, low)) == Joined(high, low) && Units(Joined(high, low)) == Some([high, low])
  {
  }

  lemma {:induction false} FirstIsRead(first: Bytes, rest: Bytes)
    requires first != [] && |first| == Width(first[0])
    ensures Read(first + rest)
            == if Units(Value(first)).None? || Read(rest).None? then None
               else Some(Units(Value(first)).value + Read(rest).value)
  {
    assert (first + rest)[..|first|] == first && (first + rest)[|first|..] == rest;
  }

  /** Every well-formed string is read back. */
  lemma {:induction false} ReadInvertsWrite(s: Text)
    requires WellFormed(s)
    ensures Read(Write(s)) == Some(s)
  {
    if s == [] {
    } else if IsHigh(s[0]) {
      ReadInvertsWrite(s[2..]);
      PairIsRead(s[0], s[1]);
      FirstIsRead(Pair(s[0], s[1]), Write(s[2..]));
      assert [s[0], s[1]] + s[2..] == s;
    } else {
      ReadInvertsWrite(s[1..]);
      OneIsRead(s[0]);
      FirstIsRead(One(s[0]), Write(s[1..]));
      assert [s[0]] + s[1..] == s;
    }
  }

  /** Four bytes are those of the character: the last three carry six bits each. */
  predicate IsFour(bytes: Bytes, c: int) {
    && |bytes| == 4 && 240 <= bytes[0] < 248
    && (forall k :: 1 <= k < 4 ==> 128 <= bytes[k] < 192)
    && c == (((bytes[0] as int - 240) * 64 + (bytes[1] as int - 128)) * 64 + (bytes[2] as int - 128)) * 64
            + (bytes[3] as int - 128)
  }

  /** What every string is written as, whatever halves of pairs it holds: a pair as the four bytes of the character
      it stands for, half a pair as those of U+FFFD, and every other unit as one to three bytes. */
  lemma {:induction false} WriteExactly(s: Text)
    requires s != []
    ensures var u, v := s[0] as int, if |s| > 1 then s[1] as int else 0;
            if 0xD800 <= u <= 0xDBFF && 0xDC00 <= v <= 0xDFFF then
              && |Write(s)| >= 4 && Write(s) == Write(s)[..4] + Write(s[2..])
              && IsFour(Write(s)[..4], 0x10000 + (u - 0xD800) * 1024 + (v - 0xDC00))
            else if 0xD800 <= u <= 0xDFFF then Write(s) == [0xEF, 0xBF, 0xBD] + Write(s[1..])
            else if u <= 0x7F then Write(s) == [u] + Write(s[1..])
            else if u <= 0x7FF then Write(s) == [192 + u / 64, 128 + u % 64] + Write(s[1..])
            else Write(s) == [224 + u / 64 / 64, 128 + u / 64 % 64, 128 + u % 64] + Write(s[1..])
  {
    if |s| > 1 && IsHigh(s[0]) && IsLow(s[1]) {
      PairIsRead(s[0], s[1]);
      assert Write(s)[..4] == Pair(s[0], s[1]);
    }
  }

  /** Only NUL is written with a NUL. */
  lemma {:induction false} NulFreeIsKept(s: Text)
    requires forall i :: 0 <= i < |s| ==> s[i] != 0
    ensures forall i :: 0 <= i < |Write(s)| ==> Write(s)[i] != 0
  {
    if s == [] {
    } else if IsHigh(s[0]) && |s| >= 2 && IsLow(s[1]) {
      NulFreeIsKept(s[2..]);
    } else {
      NulFreeIsKept(s[1..]);
    }
  }

  /** ASCII characters in front keep a string well-formed. */
  lemma {:induction false} AsciiInFront(head: Text, s: Text)
    requires WellFormed(s) && forall i :: 0 <= i < |head| ==> head[i] < 128
    ensures WellFormed(head + s)
  {
    if head == [] {
      assert head + s == s;
    } else {
      AsciiInFront(head[1..], s);
      assert (head + s)[1..] == head[1..] + s;
    }
  }
}
