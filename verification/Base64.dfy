/** Unpadded base64 over the standard alphabet (sections 4 and 3.2 of RFC 4648), decoded strictly (section 3.5). */
module Base64 {
  import opened Prelude

  type Byte = x: int | 0 <= x < 256
  type Sextet = x: int | 0 <= x < 64

  // ---------------------------------------------------------------- symbols

  function Symbol(n: Sextet): char {
    if n < 26 then ('A' as int + n) as char
    else if n < 52 then ('a' as int + n - 26) as char
    else if n < 62 then ('0' as int + n - 52) as char
    else if n == 62 then '+' else '/'
  }

  function Value(c: char): Option<Sextet> {
    if 'A' <= c <= 'Z' then Some(c as int - 'A' as int)
    else if 'a' <= c <= 'z' then Some(c as int - 'a' as int + 26)
    else if '0' <= c <= '9' then Some(c as int - '0' as int + 52)
    else if c == '+' then Some(62)
    else if c == '/' then Some(63)
    else None
  }

  /** Line breaks, which the decoder passes over even when it is strict. */
  predicate Skipped(c: char) {
    c == '\n' || c == '\r'
  }

  function Symbols(v: seq<Sextet>): string
    decreases |v|
  {
    if v == [] then [] else [Symbol(v[0])] + Symbols(v[1..])
  }

  function Sextets(s: string): Option<seq<Sextet>>
    decreases |s|
  {
    if s == [] then Some([])
    else if Skipped(s[0]) then Sextets(s[1..])
    else if Value(s[0]).None? || Sextets(s[1..]).None? then None
    else Some([Value(s[0]).value] + Sextets(s[1..]).value)
  }

  // ---------------------------------------------------------------- bits

  function High6(a: Byte): Sextet { a / 4 }
  function Low2High4(a: Byte, b: Byte): Sextet { (a as int % 4) * 16 + b as int / 16 }
  function Low4High2(b: Byte, c: Byte): Sextet { (b as int % 16) * 4 + c as int / 64 }
  function Low6(c: Byte): Sextet { c % 64 }

  function Byte0(w: Sextet, x: Sextet): Byte { w as int * 4 + x as int / 16 }
  function Byte1(x: Sextet, y: Sextet): Byte { (x as int % 16) * 16 + y as int / 4 }
  function Byte2(y: Sextet, z: Sextet): Byte { (y as int % 4) * 64 + z as int }

  /** Three bytes become four sextets; one or two left over become two or three, the unused low bits zero. */
  function Groups(bs: seq<Byte>): seq<Sextet>
    decreases |bs|
  {
    if bs == [] then []
    else if |bs| == 1 then [High6(bs[0]), Low2High4(bs[0], 0)]
    else if |bs| == 2 then [High6(bs[0]), Low2High4(bs[0], bs[1]), Low4High2(bs[1], 0)]
    else [High6(bs[0]), Low2High4(bs[0], bs[1]), Low4High2(bs[1], bs[2]), Low6(bs[2])] + Groups(bs[3..])
  }

  /** A lone sextet is an error, and so are unused bits that are not zero. */
  function Bytes(v: seq<Sextet>): Option<seq<Byte>>
    decreases |v|
  {
    if v == [] then Some([])
    else if |v| == 1 then None
    else if |v| == 2 then if v[1] % 16 != 0 then None else Some([Byte0(v[0], v[1])])
    else if |v| == 3 then if v[2] % 4 != 0 then None else Some([Byte0(v[0], v[1]), Byte1(v[1], v[2])])
    else if Bytes(v[4..]).None? then None
    else Some([Byte0(v[0], v[1]), Byte1(v[1], v[2]), Byte2(v[2], v[3])] + Bytes(v[4..]).value)
  }

  function Encode(bs: seq<Byte>): string {
    Symbols(Groups(bs))
  }

  function Decode(s: string): Option<seq<Byte>> {
    var v := Sextets(s);
    if v.None? then None else Bytes(v.value)
  }

  // ---------------------------------------------------------------- each is the other's inverse

  lemma SymbolValue(n: Sextet)
    ensures Value(Symbol(n)) == Some(n) && !Skipped(Symbol(n))
  {}

  lemma ValueSymbol(c: char)
    requires Value(c).Some?
    ensures Symbol(Value(c).value) == c
  {}

  lemma BitsThere(a: Byte, b: Byte, c: Byte)
    ensures Byte0(High6(a), Low2High4(a, b)) == a
    ensures Byte1(Low2High4(a, b), Low4High2(b, c)) == b
    ensures Byte2(Low4High2(b, c), Low6(c)) == c
    ensures Low2High4(a, 0) % 16 == 0 && Low4High2(b, 0) % 4 == 0
  {}

  lemma BitsBack(w: Sextet, x: Sextet, y: Sextet, z: Sextet)
    ensures High6(Byte0(w, x)) == w
    ensures Low2High4(Byte0(w, x), Byte1(x, y)) == x && (x % 16 == 0 ==> Low2High4(Byte0(w, x), 0) == x)
    ensures Low4High2(Byte1(x, y), Byte2(y, z)) == y && (y % 4 == 0 ==> Low4High2(Byte1(x, y), 0) == y)
    ensures Low6(Byte2(y, z)) == z
  {}

  lemma {:induction false} SextetsOfSymbols(v: seq<Sextet>)
    ensures Sextets(Symbols(v)) == Some(v)
    decreases |v|
  {
    hide Symbol, Value, Skipped;
    if v != [] {
      SymbolValue(v[0]);
      SextetsOfSymbols(v[1..]);
      var s := Symbols(v);
      assert s[0] == Symbol(v[0]) && s[1..] == Symbols(v[1..]);
      assert Sextets(s) == Some([v[0]] + v[1..]);
      assert v == [v[0]] + v[1..];
    }
  }

  lemma {:induction false} SymbolsOfSextets(s: string)
    requires Sextets(s).Some? && forall c :: c in s ==> !Skipped(c)
    ensures Symbols(Sextets(s).value) == s
    decreases |s|
  {
    hide Symbol, Value, Skipped;
    if s != [] {
      ValueSymbol(s[0]);
      SymbolsOfSextets(s[1..]);
      assert Sextets(s).value[1..] == Sextets(s[1..]).value;
    }
  }

  lemma {:induction false} BytesOfGroups(bs: seq<Byte>)
    ensures Bytes(Groups(bs)) == Some(bs)
    decreases |bs|
  {
    hide High6, Low2High4, Low4High2, Low6, Byte0, Byte1, Byte2;
    if bs != [] {
      BitsThere(bs[0], if |bs| > 1 then bs[1] else 0, if |bs| > 2 then bs[2] else 0);
    }
    if |bs| == 1 {
      assert bs == [bs[0]];
    } else if |bs| == 2 {
      assert bs == [bs[0], bs[1]];
    } else if |bs| >= 3 {
      BytesOfGroups(bs[3..]);
      assert Groups(bs)[4..] == Groups(bs[3..]) && bs == [bs[0], bs[1], bs[2]] + bs[3..];
    }
  }

  lemma {:induction false} GroupsOfBytes(v: seq<Sextet>)
    requires Bytes(v).Some?
    ensures Groups(Bytes(v).value) == v
    decreases |v|
  {
    hide High6, Low2High4, Low4High2, Low6, Byte0, Byte1, Byte2;
    if |v| >= 2 {
      BitsBack(v[0], v[1], if |v| > 2 then v[2] else 0, if |v| > 3 then v[3] else 0);
    }
    if |v| >= 4 {
      GroupsOfBytes(v[4..]);
      assert Bytes(v).value[3..] == Bytes(v[4..]).value;
    }
  }

  /** Every byte string survives encoding and strict decoding. */
  lemma RoundTrip(bs: seq<Byte>)
    ensures Decode(Encode(bs)) == Some(bs)
  {
    SextetsOfSymbols(Groups(bs));
    BytesOfGroups(bs);
  }

  /** Strictness makes the text canonical: line breaks aside, what decodes is exactly what encoding would print. */
  lemma StrictIsCanonical(s: string)
    requires Decode(s).Some? && forall c :: c in s ==> !Skipped(c)
    ensures Encode(Decode(s).value) == s
  {
    SymbolsOfSextets(s);
    GroupsOfBytes(Sextets(s).value);
  }

  /** The alphabet is the standard one: capitals, small letters, digits, plus and slash, each run in order. */
  lemma StandardAlphabet(n: Sextet, m: Sextet)
    ensures Symbol(0) == 'A' && Symbol(26) == 'a' && Symbol(52) == '0' && Symbol(62) == '+' && Symbol(63) == '/'
    ensures n <= m && (m < 26 || 26 <= n <= m < 52 || 52 <= n <= m < 62) ==>
              Symbol(m) as int - Symbol(n) as int == m - n
    ensures Encode([115, 97, 108, 116]) == "c2FsdA" && Encode([104, 97, 115, 104]) == "aGFzaA"
  {
    assert Groups([115, 97, 108, 116]) == [28, 54, 5, 44, 29, 0];
    assert Groups([104, 97, 115, 104]) == [26, 6, 5, 51, 26, 0];
    SixSymbols(28, 54, 5, 44, 29, 0);
    SixSymbols(26, 6, 5, 51, 26, 0);
  }

  lemma SixSymbols(a: Sextet, b: Sextet, c: Sextet, d: Sextet, e: Sextet, f: Sextet)
    ensures Symbols([a, b, c, d, e, f]) == [Symbol(a), Symbol(b), Symbol(c), Symbol(d), Symbol(e), Symbol(f)]
  {
    hide Symbol;
    assert [f][1..] == [] && [e, f][1..] == [f];
    assert Symbols([f]) == [Symbol(f)] && Symbols([e, f]) == [Symbol(e), Symbol(f)];
    assert [d, e, f][1..] == [e, f] && [c, d, e, f][1..] == [d, e, f];
    assert Symbols([d, e, f]) == [Symbol(d)] + Symbols([e, f]);
    assert Symbols([c, d, e, f]) == [Symbol(c)] + Symbols([d, e, f]);
    assert [b, c, d, e, f][1..] == [c, d, e, f] && [a, b, c, d, e, f][1..] == [b, c, d, e, f];
    assert Symbols([b, c, d, e, f]) == [Symbol(b)] + Symbols([c, d, e, f]);
  }

  /** Encodings use the 64 symbols only. */
  lemma {:induction false} SymbolsAreSymbols(v: seq<Sextet>, c: char)
    requires c in Symbols(v)
    ensures Value(c).Some?
    decreases |v|
  {
    hide Symbol, Value, Skipped;
    SymbolValue(v[0]);
    if c in Symbols(v[1..]) {
      SymbolsAreSymbols(v[1..], c);
    }
  }
}
