/** The argon2id hash string in PHC format: printing it, parsing it, and what logins do with it over time. Argon2id
    itself (RFC 9106) is any deterministic function with the requested output length; the salt is an input. */
module PasswordHash {
  import opened Prelude
  import opened Base64

  type Uint32 = x: int | 0 <= x < 0x1_0000_0000
  type Uint8 = x: int | 0 <= x < 0x100

  const VERSION: nat := 19
  const KEY_LENGTH: nat := 32
  const INT_MAX: nat := 0x7FFF_FFFF_FFFF_FFFF

  // ---------------------------------------------------------------- decimal fields

  predicate IsDigit(c: char) {
    '0' <= c <= '9'
  }

  function Decimal(n: nat): string {
    if n < 10 then [('0' as int + n) as char] else Decimal(n / 10) + [('0' as int + n % 10) as char]
  }

  /** The white space Sscanf skips before a number; a newline is not skipped. */
  predicate IsBlank(c: char) {
    c == '\t' || c == 11 as char || c == 12 as char || c == '\r' || c == ' ' || c == 0x85 as char || c == 0xA0 as char
    || c == 0x1680 as char || 0x2000 as char <= c <= 0x200A as char || c == 0x2028 as char || c == 0x2029 as char
    || c == 0x202F as char || c == 0x205F as char || c == 0x3000 as char
  }

  function SkipBlanks(s: string): string
    decreases |s|
  {
    if s != [] && IsBlank(s[0]) then SkipBlanks(s[1..]) else s
  }

  /** Reads digits greedily onto `n`; gives the number and what follows it. */
  function Digits(s: string, n: nat): (nat, string)
    decreases |s|
  {
    if s != [] && IsDigit(s[0]) then Digits(s[1..], 10 * n + (s[0] as int - '0' as int)) else (n, s)
  }

  /** %d into an unsigned field: no sign, at least one digit, and in range. */
  function ScanUnsigned(s: string, max: nat): Option<(nat, string)> {
    var t := SkipBlanks(s);
    if t == [] || !IsDigit(t[0]) then None
    else if Digits(t, 0).0 > max then None
    else Some(Digits(t, 0))
  }

  /** %d into an int: an optional sign first. */
  function ScanSigned(s: string): Option<(int, string)> {
    var t := SkipBlanks(s);
    var sign := if t != [] && t[0] == '-' then -1 else 1;
    var u := if t != [] && (t[0] == '-' || t[0] == '+') then t[1..] else t;
    if u == [] || !IsDigit(u[0]) then None
    else if Digits(u, 0).0 > (if sign == 1 then INT_MAX else INT_MAX + 1) then None
    else Some((sign * Digits(u, 0).0, Digits(u, 0).1))
  }

  /** Literal text in the format must match exactly. */
  function ScanLiteral(s: string, text: string): Option<string> {
    if text <= s then Some(s[|text|..]) else None
  }

  /** "v=%d"; whatever follows the number is ignored. */
  function ScanVersion(s: string): Option<int> {
    var a := ScanLiteral(s, "v=");
    if a.None? || ScanSigned(a.value).None? then None else Some(ScanSigned(a.value).value.0)
  }

  /** "m=%d,t=%d,p=%d" into two 32-bit fields and an 8-bit one; whatever follows is ignored. */
  function ScanParameters(s: string): Option<(Uint32, Uint32, Uint8)> {
    var a := ScanLiteral(s, "m=");
    var m := if a.None? then None else ScanUnsigned(a.value, 0xFFFF_FFFF);
    var b := if m.None? then None else ScanLiteral(m.value.1, ",t=");
    var t := if b.None? then None else ScanUnsigned(b.value, 0xFFFF_FFFF);
    var c := if t.None? then None else ScanLiteral(t.value.1, ",p=");
    var p := if c.None? then None else ScanUnsigned(c.value, 0xFF);
    if m.None? || t.None? || p.None? then None else Some((m.value.0, t.value.0, p.value.0))
  }

  // ---------------------------------------------------------------- the string

  /** strings.Split on "$". */
  function Split(s: string): (parts: seq<string>)
    ensures |parts| >= 1
    decreases |s|
  {
    if s == [] then [[]]
    else
      var rest := Split(s[1..]);
      if s[0] == '$' then [[]] + rest else [[s[0]] + rest[0]] + rest[1..]
  }

  datatype Hasher = Hasher(memoryKiB: Uint32, iterations: Uint32, parallelism: Uint8)

  datatype Decoded =
    | Fields(memoryKiB: Uint32, iterations: Uint32, parallelism: Uint8, salt: seq<Byte>, key: seq<Byte>)
    | Malformed(error: DecodeError)

  datatype DecodeError = NotPhc | BadVersion | UnsupportedVersion | BadParameters | BadSalt | BadKey | EmptyKey

  function VersionField(): string {
    "v=" + Decimal(VERSION)
  }

  function ParameterField(h: Hasher): string {
    "m=" + Decimal(h.memoryKiB) + (",t=" + Decimal(h.iterations) + (",p=" + Decimal(h.parallelism)))
  }

  function Print(h: Hasher, salt: seq<Byte>, key: seq<Byte>): string {
    "$argon2id$" + VersionField() + "$" + ParameterField(h) + "$" + Encode(salt) + "$" + Encode(key)
  }

  function DecodeHash(s: string): Decoded {
    var parts := Split(s);
    if |parts| != 6 || parts[1] != "argon2id" then Malformed(NotPhc)
    else if ScanVersion(parts[2]).None? then Malformed(BadVersion)
    else if ScanVersion(parts[2]).value != VERSION then Malformed(UnsupportedVersion)
    else if ScanParameters(parts[3]).None? then Malformed(BadParameters)
    else if Decode(parts[4]).None? then Malformed(BadSalt)
    else if Decode(parts[5]).None? then Malformed(BadKey)
    else if Decode(parts[5]).value == [] then Malformed(EmptyKey)
    else
      var (m, t, p) := ScanParameters(parts[3]).value;
      Fields(m, t, p, Decode(parts[4]).value, Decode(parts[5]).value)
  }

  /** With the documented parameters the string reads as documented, whatever the salt and the key. */
  lemma PrintsAsDocumented(salt: seq<Byte>, key: seq<Byte>)
    ensures Print(Hasher(19456, 2, 1), salt, key)
            == "$argon2id$v=19$m=19456,t=2,p=1$" + Encode(salt) + "$" + Encode(key)
  {
    hide Encode, Decimal;
    DocumentedNumbers();
  }

  lemma DocumentedNumbers()
    ensures Decimal(19) == "19" && Decimal(2) == "2" && Decimal(1) == "1" && Decimal(19456) == "19456"
  {
    assert Decimal(19) == Decimal(1) + "9";
    assert Decimal(194) == Decimal(19) + "4";
    assert Decimal(1945) == Decimal(194) + "5";
    assert Decimal(19456) == Decimal(1945) + "6";
  }

  // ---------------------------------------------------------------- scanning undoes printing

  lemma {:induction false} DigitsOfDecimal(n: nat, rest: string)
    ensures Decimal(n) != [] && IsDigit(Decimal(n)[0])
    ensures Digits(Decimal(n) + rest, 0) == Digits(rest, n)
    decreases n
  {
    if n < 10 {
      assert (Decimal(n) + rest)[1..] == rest;
    } else {
      var d := [('0' as int + n % 10) as char];
      DigitsOfDecimal(n / 10, d + rest);
      assert Decimal(n) + rest == Decimal(n / 10) + (d + rest);
      assert (d + rest)[1..] == rest;
    }
  }

  lemma ScanUnsignedDecimal(n: nat, rest: string, max: nat)
    requires n <= max && (rest == [] || !IsDigit(rest[0]))
    ensures ScanUnsigned(Decimal(n) + rest, max) == Some((n, rest))
  {
    DigitsOfDecimal(n, rest);
    assert (Decimal(n) + rest)[0] == Decimal(n)[0];
  }

  lemma VersionScans()
    ensures ScanVersion(VersionField()) == Some(VERSION)
  {
    var d := Decimal(VERSION);
    assert VersionField()[2..] == d;
    DigitsOfDecimal(VERSION, []);
    assert d + [] == d;
  }

  lemma ParametersScan(h: Hasher)
    ensures ScanParameters(ParameterField(h)) == Some((h.memoryKiB, h.iterations, h.parallelism))
  {
    hide ScanUnsigned, Decimal;
    var p := ",p=" + Decimal(h.parallelism);
    var t := ",t=" + Decimal(h.iterations) + p;
    assert ParameterField(h) == "m=" + Decimal(h.memoryKiB) + t;
    assert ParameterField(h)[2..] == Decimal(h.memoryKiB) + t;
    ScanUnsignedDecimal(h.memoryKiB, t, 0xFFFF_FFFF);
    assert t[3..] == Decimal(h.iterations) + p;
    ScanUnsignedDecimal(h.iterations, p, 0xFFFF_FFFF);
    assert p[3..] == Decimal(h.parallelism) + [];
    ScanUnsignedDecimal(h.parallelism, [], 0xFF);
  }

  // ---------------------------------------------------------------- splitting undoes joining

  predicate NoDollar(s: string) {
    forall c :: c in s ==> c != '$'
  }

  lemma {:induction false} SplitField(field: string, rest: string)
    requires NoDollar(field)
    ensures Split(field + "$" + rest) == [field] + Split(rest)
    ensures Split(field) == [field]
    decreases |field|
  {
    if field == [] {
      assert field + "$" + rest == "$" + rest;
      assert ("$" + rest)[1..] == rest;
    } else {
      var tail := field[1..];
      assert NoDollar(tail) by {
        assert forall c :: c in tail ==> c in field;
      }
      SplitField(tail, rest);
      var s := field + "$" + rest;
      assert s[0] == field[0] && s[1..] == tail + "$" + rest;
      assert [field[0]] + tail == field;
      var parts := Split(s[1..]);
      assert field[0] in field;
      assert parts[0] == tail && parts[1..] == Split(rest);
      assert Split(s) == [[s[0]] + parts[0]] + parts[1..];
    }
  }

  lemma {:induction false} DecimalHasNoDollar(n: nat)
    ensures NoDollar(Decimal(n))
    decreases n
  {
    if n >= 10 {
      DecimalHasNoDollar(n / 10);
    }
  }

  lemma EncodingHasNoDollar(bs: seq<Byte>)
    ensures NoDollar(Encode(bs))
  {
    forall c | c in Encode(bs) ensures c != '$' {
      SymbolsAreSymbols(Groups(bs), c);
    }
  }

  /** The printed string has exactly six fields, the first of them empty. */
  lemma SplitPrinted(h: Hasher, salt: seq<Byte>, key: seq<Byte>)
    ensures Split(Print(h, salt, key))
            == ["", "argon2id", VersionField(), ParameterField(h), Encode(salt), Encode(key)]
  {
    hide Split, Encode, Decimal;
    DecimalHasNoDollar(VERSION);
    DecimalHasNoDollar(h.memoryKiB);
    DecimalHasNoDollar(h.iterations);
    DecimalHasNoDollar(h.parallelism);
    EncodingHasNoDollar(salt);
    EncodingHasNoDollar(key);
    var s5 := Encode(key);
    var s4 := Encode(salt) + "$" + s5;
    var s3 := ParameterField(h) + "$" + s4;
    var s2 := VersionField() + "$" + s3;
    var s1 := "argon2id" + "$" + s2;
    assert Print(h, salt, key) == "" + "$" + s1;
    SplitField("", s1);
    SplitField("argon2id", s2);
    SplitField(VersionField(), s3);
    SplitField(ParameterField(h), s4);
    SplitField(Encode(salt), s5);
    SplitField(s5, "");
  }

  /** Decoding returns exactly what was printed, for all cost parameters, any salt and any non-empty key. */
  lemma DecodeUndoesPrint(h: Hasher, salt: seq<Byte>, key: seq<Byte>)
    requires key != []
    ensures DecodeHash(Print(h, salt, key)) == Fields(h.memoryKiB, h.iterations, h.parallelism, salt, key)
  {
    hide Split, Print, Encode, Decode, ScanVersion, ScanParameters, VersionField, ParameterField;
    SplitPrinted(h, salt, key);
    VersionScans();
    ParametersScan(h);
    RoundTrip(salt);
    RoundTrip(key);
  }

  /** An empty key is printable but never accepted back. */
  lemma EmptyKeyRejected(h: Hasher, salt: seq<Byte>)
    ensures DecodeHash(Print(h, salt, [])) == Malformed(EmptyKey)
  {
    hide Split, Print, Encode, Decode, ScanVersion, ScanParameters, VersionField, ParameterField;
    SplitPrinted(h, salt, []);
    VersionScans();
    ParametersScan(h);
    RoundTrip(salt);
    RoundTrip([]);
  }

  // ---------------------------------------------------------------- hashing and verifying

  /** argon2.IDKey: password, salt, iterations, memory, parallelism and key length to the derived key. */
  type Kdf = (string, seq<Byte>, Uint32, Uint32, Uint8, nat) -> seq<Byte>

  ghost predicate GivesKeys(kdf: Kdf) {
    forall password, salt, t, m, p, length :: |kdf(password, salt, t, m, p, length)| == length
  }

  datatype Verification = Verified | Mismatch | Unreadable(error: DecodeError)

  function Hash(h: Hasher, kdf: Kdf, password: string, salt: seq<Byte>): string {
    Print(h, salt, kdf(password, salt, h.iterations, h.memoryKiB, h.parallelism, KEY_LENGTH))
  }

  /** Uses the parameters in the string, not those of any hasher. */
  function Verify(kdf: Kdf, password: string, encoded: string): Verification {
    match DecodeHash(encoded)
    case Malformed(e) => Unreadable(e)
    case Fields(m, t, p, salt, key) => if kdf(password, salt, t, m, p, |key|) == key then Verified else Mismatch
  }

  predicate NeedsRehash(h: Hasher, encoded: string) {
    match DecodeHash(encoded)
    case Malformed(_) => true
    case Fields(m, t, p, _, _) => m < h.memoryKiB || t < h.iterations || p < h.parallelism
  }

  /** A hash made under any parameters is readable under any others: the right password verifies, and another fails
      as a mismatch unless it derives the very same key. */
  lemma AnyHasherVerifiesAnother(h: Hasher, kdf: Kdf, password: string, salt: seq<Byte>, guess: string)
    requires GivesKeys(kdf)
    ensures Verify(kdf, password, Hash(h, kdf, password, salt)) == Verified
    ensures Verify(kdf, guess, Hash(h, kdf, password, salt))
            == if kdf(guess, salt, h.iterations, h.memoryKiB, h.parallelism, KEY_LENGTH)
                  == kdf(password, salt, h.iterations, h.memoryKiB, h.parallelism, KEY_LENGTH)
               then Verified else Mismatch
  {
    hide DecodeHash, Print;
    DecodeUndoesPrint(h, salt, kdf(password, salt, h.iterations, h.memoryKiB, h.parallelism, KEY_LENGTH));
  }

  /** No parameter of `now` is above that of `then`. */
  predicate NoStronger(now: Hasher, before: Hasher) {
    now.memoryKiB <= before.memoryKiB && now.iterations <= before.iterations && now.parallelism <= before.parallelism
  }

  /** A stored hash is due for an upgrade exactly when some parameter has risen above those it was written with. */
  lemma RehashIff(now: Hasher, writer: Hasher, kdf: Kdf, password: string, salt: seq<Byte>)
    requires GivesKeys(kdf)
    ensures NeedsRehash(now, Hash(writer, kdf, password, salt)) <==> !NoStronger(now, writer)
  {
    hide DecodeHash, Print;
    DecodeUndoesPrint(writer, salt,
                      kdf(password, salt, writer.iterations, writer.memoryKiB, writer.parallelism, KEY_LENGTH));
  }

  // ---------------------------------------------------------------- logins over time

  /** A login with the right password: the hasher then configured, the salt it would draw, and whether the write of an
      upgraded hash succeeds. */
  datatype Login = Login(hasher: Hasher, salt: seq<Byte>, written: bool)

  function Upgraded(kdf: Kdf, password: string, stored: string, login: Login): string {
    if Verify(kdf, password, stored).Verified? && NeedsRehash(login.hasher, stored) && login.written
    then Hash(login.hasher, kdf, password, login.salt) else stored
  }

  function AfterLogins(kdf: Kdf, password: string, stored: string, logins: seq<Login>): string
    decreases |logins|
  {
    if logins == [] then stored else AfterLogins(kdf, password, Upgraded(kdf, password, stored, logins[0]), logins[1..])
  }

  /** The hasher whose hash is stored in the end, starting from one written by `writer`. */
  function LastWriter(writer: Hasher, logins: seq<Login>): Hasher
    decreases |logins|
  {
    if logins == [] then writer
    else LastWriter(if logins[0].written && !NoStronger(logins[0].hasher, writer) then logins[0].hasher else writer,
                    logins[1..])
  }

  /** Over any sequence of logins under any parameters, whether or not each upgrade is written, the stored hash keeps
      verifying the same password, and it is due for an upgrade exactly when a parameter has risen above those of its
      last writer. */
  lemma {:induction false} PasswordSurvivesUpgrades(kdf: Kdf, password: string, writer: Hasher, salt: seq<Byte>,
                                                    logins: seq<Login>, now: Hasher)
    requires GivesKeys(kdf)
    ensures var stored := AfterLogins(kdf, password, Hash(writer, kdf, password, salt), logins);
            && Verify(kdf, password, stored) == Verified
            && (NeedsRehash(now, stored) <==> !NoStronger(now, LastWriter(writer, logins)))
    decreases |logins|
  {
    hide Verify, NeedsRehash, Hash;
    AnyHasherVerifiesAnother(writer, kdf, password, salt, password);
    if logins == [] {
      RehashIff(now, writer, kdf, password, salt);
    } else {
      var next := logins[0];
      RehashIff(next.hasher, writer, kdf, password, salt);
      if next.written && !NoStronger(next.hasher, writer) {
        PasswordSurvivesUpgrades(kdf, password, next.hasher, next.salt, logins[1..], now);
      } else {
        PasswordSurvivesUpgrades(kdf, password, writer, salt, logins[1..], now);
      }
    }
  }

  /** An upgrade replaces all three parameters, so two configurations undo each other's work, every login under one
      finding the other's hash due again, exactly when neither covers the other. */
  lemma ParametersAlternateExactly(a: Hasher, b: Hasher, kdf: Kdf, password: string, s: seq<Byte>, r: seq<Byte>)
    requires GivesKeys(kdf)
    ensures NeedsRehash(b, Hash(a, kdf, password, s)) && NeedsRehash(a, Hash(b, kdf, password, r))
            <==> !NoStronger(a, b) && !NoStronger(b, a)
    ensures !NoStronger(a, b) && !NoStronger(b, a) ==>
              && Upgraded(kdf, password, Hash(a, kdf, password, s), Login(b, r, true)) == Hash(b, kdf, password, r)
              && Upgraded(kdf, password, Hash(b, kdf, password, r), Login(a, s, true)) == Hash(a, kdf, password, s)
  {
    hide Verify, NeedsRehash, Hash;
    AnyHasherVerifiesAnother(a, kdf, password, s, password);
    AnyHasherVerifiesAnother(b, kdf, password, r, password);
    RehashIff(b, a, kdf, password, s);
    RehashIff(a, b, kdf, password, r);
  }
}
