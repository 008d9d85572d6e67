// Reading a bandwidth limit. The result is in Mbps; zero means unlimited.
module Bandwidth {
  import opened Wrappers
  import opened Text

  const TWO_TO_64: int := 0x1_0000_0000_0000_0000
  const MAX_INT32: int := 0x7fff_ffff

  // unicode.IsSpace
  predicate IsSpace(c: char) {
    || c == ' ' || '\t' <= c <= '\r' || c == '\U{85}' || c == '\U{A0}' || c == '\U{1680}'
    || '\U{2000}' <= c <= '\U{200A}' || c == '\U{2028}' || c == '\U{2029}' || c == '\U{202F}'
    || c == '\U{205F}' || c == '\U{3000}'
  }

  // The class \s of a Go regular expression.
  predicate IsBlank(c: char) {
    c == ' ' || c == '\t' || c == '\n' || c == '\U{C}' || c == '\r'
  }

  // strings.TrimSpace
  function TrimSpace(s: string): string {
    if s == "" then s
    else if IsSpace(s[0]) then TrimSpace(s[1..])
    else if IsSpace(s[|s| - 1]) then TrimSpace(s[..|s| - 1])
    else s
  }

  // strconv.Atoi on a 64-bit platform
  function Atoi(s: string): Option<int> {
    var signed := s != "" && (s[0] == '-' || s[0] == '+');
    var digits := if signed then s[1..] else s;
    if digits == "" || DigitRun(digits) != |digits| then None
    else
      var n: int := ParseNat(digits);
      var v := if signed && s[0] == '-' then -n else n;
      if -TWO_TO_64 / 2 <= v < TWO_TO_64 / 2 then Some(v) else None
  }

  function SkipBlanks(s: string): string {
    if s != "" && IsBlank(s[0]) then SkipBlanks(s[1..]) else s
  }

  function Scale(prefix: char): Option<int> {
    if prefix == 'T' || prefix == 't' then Some(1000 * 1000 * 1000 * 1000)
    else if prefix == 'G' || prefix == 'g' then Some(1000 * 1000 * 1000)
    else if prefix == 'M' || prefix == 'm' then Some(1000 * 1000)
    else if prefix == 'K' || prefix == 'k' then Some(1000)
    else None
  }

  // A limit with a unit: the number, the power of ten, and bytes or bits.
  datatype Limit = Limit(value: nat, scale: int, bytes: bool)

  // bandwidthPattern, applied to a trimmed string
  function ParsePattern(s: string): Option<Limit> {
    var k := DigitRun(s);
    var unit := SkipBlanks(s[k..]);
    var scale := if unit == "" then None else Scale(unit[0]);
    var tail := if scale.Some? then unit[1..] else unit;
    if k > 0 && (tail == "bps" || tail == "Bps") then
      Some(Limit(ParseNat(s[..k]), if scale.Some? then scale.value else 1, tail[0] == 'B'))
    else None
  }

  // Unsigned 64-bit multiplication.
  function Mul64(a: int, b: int): int {
    a * b % TWO_TO_64
  }

  // The limit in bits per second, as the machine computes it.
  function WrappedBits(l: Limit): int {
    var bits := Mul64(l.value, l.scale);
    if l.bytes then Mul64(bits, 8) else bits
  }

  // Rounded down to Mbps, but not to 0, and capped.
  function Rate(bits: int): int {
    var mbps := bits / 1_000_000;
    if mbps == 0 && bits > 0 then 1
    else if mbps > MAX_INT32 then MAX_INT32
    else mbps
  }

  // With a unit the result always fits sing-box's field.
  function Mbps(l: Limit): (r: int)
    ensures 0 <= r <= MAX_INT32
  {
    if l.value >= TWO_TO_64 then 0   // ParseUint fails
    else Rate(WrappedBits(l))
  }

  function ParseBandwidth(text: string): int {
    var s := TrimSpace(text);
    if s == "" then 0
    else if Atoi(s).Some? then Atoi(s).value
    else
      match ParsePattern(s)
      case None => 0
      case Some(l) => Mbps(l)
  }

  method ReadBandwidth(text: string) returns (mbps: int)
    ensures mbps == ParseBandwidth(text)
  {
    var s := TrimSpace(text);
    if s == "" {
      return 0;
    }
    var plain := Atoi(s);
    if plain.Some? {
      return plain.value;
    }
    var m := ParsePattern(s);
    if m == None || m.value.value >= TWO_TO_64 {
      return 0;
    }
    var bits: int := m.value.value;
    if m.value.scale != 1 {
      bits := Mul64(bits, m.value.scale);
    }
    if m.value.bytes {
      bits := Mul64(bits, 8);
    }
    assert bits == WrappedBits(m.value);
    mbps := bits / 1_000_000;
    if mbps == 0 && bits > 0 {
      return 1;
    }
    if mbps > MAX_INT32 {
      return MAX_INT32;
    }
  }

  // ---------------------------------------------------------------------
  // What the limit means
  // ---------------------------------------------------------------------

  // The bits per second that were meant.
  function Bits(l: Limit): int {
    l.value * l.scale * (if l.bytes then 8 else 1)
  }

  predicate ValidScale(scale: int) {
    scale in {1, 1000, 1000 * 1000, 1000 * 1000 * 1000, 1000 * 1000 * 1000 * 1000}
  }

  lemma ModOfProduct(a: int, b: int)
    ensures (a % TWO_TO_64) * b % TWO_TO_64 == a * b % TWO_TO_64
  {
    var q := a / TWO_TO_64;
    assert a == q * TWO_TO_64 + a % TWO_TO_64;
    assert a * b == (q * b) * TWO_TO_64 + (a % TWO_TO_64) * b;
    ModOfSum((a % TWO_TO_64) * b, q * b);
  }

  lemma ModOfSum(x: int, k: int)
    ensures (k * TWO_TO_64 + x) % TWO_TO_64 == x % TWO_TO_64
  {
    var q, r := x / TWO_TO_64, x % TWO_TO_64;
    assert k * TWO_TO_64 + x == (k + q) * TWO_TO_64 + r;
  }

  lemma WrappedIsModular(l: Limit)
    ensures WrappedBits(l) == Bits(l) % TWO_TO_64
  {
    if l.bytes {
      ModOfProduct(l.value * l.scale, 8);
    }
  }

  // As long as the bits fit 64 bits, the result is the limit in Mbps rounded
  // down, but a limit below 1 Mbps counts as 1, and the result is capped. So it is
  // 0 (unlimited) only for 0.
  lemma MbpsExact(l: Limit)
    requires ValidScale(l.scale) && Bits(l) < TWO_TO_64
    ensures
      var r := Mbps(l);
      && (l.value == 0 <==> r == 0)
      && (l.value > 0 ==> 1 <= r <= MAX_INT32)
      && (r > 1 ==> r * 1_000_000 <= Bits(l))
      && (r < MAX_INT32 ==> Bits(l) < (r + 1) * 1_000_000)
  {
    BitsBound(l);
    WrappedIsModular(l);
  }

  lemma BitsBound(l: Limit)
    requires ValidScale(l.scale)
    ensures l.value <= Bits(l)
  {
  }

  lemma BitsGrow(l: Limit, k: Limit)
    requires ValidScale(l.scale) && k == l.(value := k.value) && l.value <= k.value
    ensures Bits(l) <= Bits(k)
  {
  }

  lemma RateGrows(a: int, b: int)
    requires 0 <= a <= b
    ensures Rate(a) <= Rate(b)
  {
  }

  lemma MbpsFits(l: Limit)
    requires ValidScale(l.scale) && Bits(l) < TWO_TO_64
    ensures 0 <= Bits(l) && Mbps(l) == Rate(Bits(l))
  {
    BitsBound(l);
    WrappedIsModular(l);
  }

  lemma MbpsMonotone(l: Limit, k: Limit)
    requires ValidScale(l.scale) && k == l.(value := k.value) && l.value <= k.value
    requires Bits(k) < TWO_TO_64
    ensures Mbps(l) <= Mbps(k)
  {
    BitsGrow(l, k);
    MbpsFits(l);
    MbpsFits(k);
    RateGrows(Bits(l), Bits(k));
  }

  // Exactly when a limit with a unit turns into "unlimited": the number does not
  // fit 64 bits, or its bits wrap around to zero.
  lemma UnlimitedExactly(l: Limit)
    ensures Mbps(l) == 0 <==> l.value >= TWO_TO_64 || Bits(l) % TWO_TO_64 == 0
  {
    WrappedIsModular(l);
  }

  // 2^52 Tbps is such a limit.
  lemma HugeLimitIsUnlimited()
    ensures Mbps(Limit(4503599627370496, 1000 * 1000 * 1000 * 1000, false)) == 0
  {
    var l := Limit(4503599627370496, 1000 * 1000 * 1000 * 1000, false);
    assert Bits(l) == 244140625 * TWO_TO_64;
    UnlimitedExactly(l);
  }

  // ---------------------------------------------------------------------
  // Text
  // ---------------------------------------------------------------------

  predicate AllBlank(s: string) {
    forall c | c in s :: IsBlank(c)
  }

  lemma SkipAllBlanks(blanks: string, rest: string)
    requires AllBlank(blanks) && (rest == "" || !IsBlank(rest[0]))
    ensures SkipBlanks(blanks + rest) == rest
  {
    if blanks == "" {
      assert blanks + rest == rest;
    } else {
      assert (blanks + rest)[1..] == blanks[1..] + rest;
      SkipAllBlanks(blanks[1..], rest);
    }
  }

  predicate ValidUnit(prefix: string, tail: string) {
    && (prefix == "" || (|prefix| == 1 && Scale(prefix[0]).Some?))
    && (tail == "bps" || tail == "Bps")
  }

  lemma UnitReads(prefix: string, tail: string)
    requires ValidUnit(prefix, tail)
    ensures
      var unit := prefix + tail;
      && unit != "" && !IsBlank(unit[0]) && !IsDigit(unit[0])
      && (prefix == "" ==> Scale(unit[0]) == None && unit == tail)
      && (prefix != "" ==> Scale(unit[0]) == Scale(prefix[0]) && unit[1..] == tail)
  {
    if prefix == "" {
      assert prefix + tail == tail;
    }
  }

  lemma UnitAfterBlanks(blanks: string, prefix: string, tail: string)
    requires AllBlank(blanks) && ValidUnit(prefix, tail)
    ensures
      var rest := blanks + (prefix + tail);
      && rest != "" && !IsDigit(rest[0]) && rest[|rest| - 1] == 's'
      && SkipBlanks(rest) == prefix + tail
  {
    var rest := blanks + (prefix + tail);
    UnitReads(prefix, tail);
    SkipAllBlanks(blanks, prefix + tail);
    assert rest[0] == if blanks == "" then (prefix + tail)[0] else blanks[0];
    assert rest[|rest| - 1] == tail[|tail| - 1];
  }

  lemma NumberFirst(n: nat, rest: string)
    requires rest == "" || !IsDigit(rest[0])
    ensures
      var s, k := Itoa(n) + rest, |Itoa(n)|;
      && k > 0 && DigitRun(s) == k && s[..k] == Itoa(n) && s[k..] == rest
      && AllDigits(Itoa(n)) && ParseNat(Itoa(n)) == n && IsDigit(s[0])
  {
    ItoaParses(n);
    DigitRunOf(Itoa(n), rest);
    assert (Itoa(n) + rest)[0] == Itoa(n)[0];
  }

  lemma PatternReadsBack(s: string, n: nat, blanks: string, prefix: string, tail: string)
    requires AllBlank(blanks) && ValidUnit(prefix, tail)
    requires s == Itoa(n) + (blanks + (prefix + tail))
    ensures
      ParsePattern(s)
      == Some(Limit(n, if prefix == "" then 1 else Scale(prefix[0]).value, tail == "Bps"))
  {
    UnitAfterBlanks(blanks, prefix, tail);
    NumberFirst(n, blanks + (prefix + tail));
    UnitReads(prefix, tail);
  }

  lemma UnitIsNoNumber(n: nat, rest: string)
    requires rest != "" && !IsDigit(rest[0]) && rest[|rest| - 1] == 's'
    ensures
      var s := Itoa(n) + rest;
      s != "" && TrimSpace(s) == s && Atoi(s) == None
  {
    NumberFirst(n, rest);
    var s := Itoa(n) + rest;
    assert s[|s| - 1] == 's' && IsDigit(s[0]);
  }

  // The notations mihomo documents, such as "100 Mbps", "1Gbps" and "12 MBps":
  // every number, any blanks, any prefix in either case, bits or bytes.
  lemma LimitReadsBack(s: string, n: nat, blanks: string, prefix: string, tail: string)
    requires AllBlank(blanks) && ValidUnit(prefix, tail)
    requires s == Itoa(n) + (blanks + (prefix + tail))
    ensures
      ParseBandwidth(s)
      == Mbps(Limit(n, if prefix == "" then 1 else Scale(prefix[0]).value, tail == "Bps"))
  {
    PatternReadsBack(s, n, blanks, prefix, tail);
    UnitAfterBlanks(blanks, prefix, tail);
    UnitIsNoNumber(n, blanks + (prefix + tail));
  }

  lemma AtoiReadsBack(n: nat)
    requires n < TWO_TO_64 / 2
    ensures Itoa(n) != "" && IsDigit(Itoa(n)[0]) && IsDigit(Itoa(n)[|Itoa(n)| - 1])
    ensures Atoi(Itoa(n)) == Atoi("+" + Itoa(n)) == Some(n) && Atoi("-" + Itoa(n)) == Some(-(n as int))
  {
    ItoaParses(n);
    DigitRunOf(Itoa(n), "");
    assert Itoa(n) + "" == Itoa(n);
    assert ("+" + Itoa(n))[1..] == ("-" + Itoa(n))[1..] == Itoa(n);
  }

  lemma NoSpaceAround(s: string)
    requires s != "" && !IsSpace(s[0]) && !IsSpace(s[|s| - 1])
    ensures TrimSpace(s) == s
  {
  }

  // Without a unit the number is taken as it stands: neither capped nor checked
  // for its sign.
  lemma UnitlessIsTakenAsIs(n: nat)
    requires n < TWO_TO_64 / 2
    ensures ParseBandwidth(Itoa(n)) == n
    ensures ParseBandwidth("+" + Itoa(n)) == n
    ensures ParseBandwidth("-" + Itoa(n)) == -(n as int)
  {
    AtoiReadsBack(n);
    var plus, minus := "+" + Itoa(n), "-" + Itoa(n);
    assert plus[|plus| - 1] == minus[|minus| - 1] == Itoa(n)[|Itoa(n)| - 1];
    NoSpaceAround(Itoa(n));
    NoSpaceAround(plus);
    NoSpaceAround(minus);
  }

  // A number that fits no 64-bit integer is not taken at all.
  lemma HugeNumberIsUnlimited(n: nat)
    requires n >= 0x8000_0000_0000_0000
    ensures ParseBandwidth(Itoa(n)) == 0
  {
    ItoaParses(n);
    DigitRunOf(Itoa(n), "");
    assert Itoa(n) + "" == Itoa(n);
    NoSpaceAround(Itoa(n));
  }

  // ---------------------------------------------------------------------
  // Units, one by one
  // ---------------------------------------------------------------------

  function Min(a: int, b: int): int {
    if a < b then a else b
  }

  function Max(a: int, b: int): int {
    if a < b then b else a
  }

  // `n` of the unit with this letter, blanks between them if any.
  function Written(n: nat, blanks: string, prefix: string, tail: string): string {
    Itoa(n) + (blanks + (prefix + tail))
  }

  lemma ReadsAs(n: nat, blanks: string, prefix: string, tail: string, scale: int)
    requires AllBlank(blanks) && ValidUnit(prefix, tail)
    requires scale == (if prefix == "" then 1 else Scale(prefix[0]).value) && ValidScale(scale)
    requires n * scale * (if tail == "Bps" then 8 else 1) < TWO_TO_64
    ensures ParseBandwidth(Written(n, blanks, prefix, tail)) == Rate(n * scale * if tail == "Bps" then 8 else 1)
  {
    LimitReadsBack(Written(n, blanks, prefix, tail), n, blanks, prefix, tail);
    MbpsFits(Limit(n, scale, tail == "Bps"));
  }

  // A limit is read in Mbps, at most 2147483647 of them, with either case of the letter
  // and any blanks in between, as long as its bits fit 64 bits.
  lemma ReadsMega(n: nat, blanks: string)
    requires AllBlank(blanks) && n * 1_000_000 < 0x1_0000_0000_0000_0000
    ensures ParseBandwidth(Written(n, blanks, "M", "bps")) == Min(n, 2147483647)
    ensures ParseBandwidth(Written(n, blanks, "m", "bps")) == Min(n, 2147483647)
  {
    ReadsAs(n, blanks, "M", "bps", 1_000_000);
    ReadsAs(n, blanks, "m", "bps", 1_000_000);
  }

  lemma ReadsGiga(n: nat, blanks: string)
    requires AllBlank(blanks) && n * 1_000_000_000 < 0x1_0000_0000_0000_0000
    ensures ParseBandwidth(Written(n, blanks, "G", "bps")) == Min(1000 * n, 2147483647)
    ensures ParseBandwidth(Written(n, blanks, "g", "bps")) == Min(1000 * n, 2147483647)
  {
    ReadsAs(n, blanks, "G", "bps", 1_000_000_000);
    ReadsAs(n, blanks, "g", "bps", 1_000_000_000);
  }

  lemma ReadsTera(n: nat, blanks: string)
    requires AllBlank(blanks) && n * 1_000_000_000_000 < 0x1_0000_0000_0000_0000
    ensures ParseBandwidth(Written(n, blanks, "T", "bps")) == Min(1_000_000 * n, 2147483647)
    ensures ParseBandwidth(Written(n, blanks, "t", "bps")) == Min(1_000_000 * n, 2147483647)
  {
    ReadsAs(n, blanks, "T", "bps", 1_000_000_000_000);
    ReadsAs(n, blanks, "t", "bps", 1_000_000_000_000);
  }

  // Less than one Mbps counts as one.
  lemma ReadsKilo(n: nat, blanks: string)
    requires AllBlank(blanks) && 0 < n && n * 1000 < 0x1_0000_0000_0000_0000
    ensures ParseBandwidth(Written(n, blanks, "K", "bps")) == Min(Max(1, n / 1000), 2147483647)
    ensures ParseBandwidth(Written(n, blanks, "k", "bps")) == Min(Max(1, n / 1000), 2147483647)
  {
    ReadsAs(n, blanks, "K", "bps", 1000);
    ReadsAs(n, blanks, "k", "bps", 1000);
  }

  lemma ReadsBits(n: nat, blanks: string)
    requires AllBlank(blanks) && 0 < n < 0x1_0000_0000_0000_0000
    ensures ParseBandwidth(Written(n, blanks, "", "bps")) == Min(Max(1, n / 1_000_000), 2147483647)
  {
    ReadsAs(n, blanks, "", "bps", 1);
  }

  // Bytes count eight times, whatever the letter.
  lemma ReadsBytes(n: nat, blanks: string, prefix: string, scale: int)
    requires AllBlank(blanks) && ValidUnit(prefix, "Bps") && ValidScale(scale)
    requires scale == (if prefix == "" then 1 else Scale(prefix[0]).value)
    requires 8 * n * scale < 0x1_0000_0000_0000_0000
    ensures ParseBandwidth(Written(n, blanks, prefix, "Bps")) == ParseBandwidth(Written(8 * n, blanks, prefix, "bps"))
  {
    EightTimes(n, scale);
    ReadsAs(n, blanks, prefix, "Bps", scale);
    ReadsAs(8 * n, blanks, prefix, "bps", scale);
  }

  lemma EightTimes(n: int, scale: int)
    ensures n * scale * 8 == 8 * n * scale == (8 * n) * scale * 1
  {
  }

  lemma ReadsMegabytes(n: nat, blanks: string)
    requires AllBlank(blanks) && 8 * n * 1_000_000 < 0x1_0000_0000_0000_0000
    ensures ParseBandwidth(Written(n, blanks, "M", "Bps")) == Min(8 * n, 2147483647)
    ensures ParseBandwidth(Written(n, blanks, "m", "Bps")) == Min(8 * n, 2147483647)
  {
    ReadsAs(n, blanks, "M", "Bps", 1_000_000);
    ReadsAs(n, blanks, "m", "Bps", 1_000_000);
  }

  // ---------------------------------------------------------------------
  // Blanks, and what is no limit
  // ---------------------------------------------------------------------

  predicate AllSpace(s: string) {
    forall c | c in s :: IsSpace(c)
  }

  lemma {:induction false} TrimsFront(front: string, s: string)
    requires AllSpace(front)
    ensures TrimSpace(front + s) == TrimSpace(s)
  {
    if front == "" {
      assert front + s == s;
    } else {
      assert front[0] in front && forall c | c in front[1..] :: c in front;
      assert (front + s)[0] == front[0] && (front + s)[1..] == front[1..] + s;
      TrimsFront(front[1..], s);
    }
  }

  lemma {:induction false} TrimsBack(s: string, back: string)
    requires AllSpace(back)
    ensures TrimSpace(s + back) == TrimSpace(s)
    decreases |s| + |back|
  {
    if back == "" {
      assert s + back == s;
    } else if s == "" {
      TrimsFront(back, "");
      assert s + back == back + "";
    } else if IsSpace(s[0]) {
      assert (s + back)[0] == s[0] && (s + back)[1..] == s[1..] + back;
      TrimsBack(s[1..], back);
    } else {
      var less := back[..|back| - 1];
      assert back[|back| - 1] in back && forall c | c in less :: c in back;
      assert (s + back)[0] == s[0] && (s + back)[..|s + back| - 1] == s + less;
      TrimsBack(s, less);
    }
  }

  // White space around a limit does not matter.
  lemma SpaceAroundIsIgnored(front: string, s: string, back: string)
    requires AllSpace(front) && AllSpace(back)
    ensures ParseBandwidth(front + (s + back)) == ParseBandwidth(s)
  {
    TrimsFront(front, s + back);
    TrimsBack(s, back);
  }

  // Between number and unit a vertical tab or a space beyond ASCII is no blank.
  lemma BlanksAndSpaces(c: char)
    ensures IsBlank(c) <==> c in " \t\n\U{C}\r"
    ensures c < '\U{80}' ==> (IsSpace(c) <==> c in " \t\n\U{B}\U{C}\r")
    ensures IsBlank(c) ==> IsSpace(c)
  {
  }

  lemma {:induction false} SkipSplits(s: string) returns (blanks: string)
    ensures s == blanks + SkipBlanks(s) && AllBlank(blanks)
  {
    blanks := "";
    if s != "" && IsBlank(s[0]) {
      var more := SkipSplits(s[1..]);
      blanks := [s[0]] + more;
    }
  }

  // Digits, blanks and a unit.
  ghost predicate Reads(s: string, digits: string, blanks: string, prefix: string, tail: string) {
    && s == digits + (blanks + (prefix + tail)) && digits != "" && AllDigits(digits) && AllBlank(blanks)
    && prefix in {"", "K", "k", "M", "m", "G", "g", "T", "t"} && tail in {"bps", "Bps"}
  }

  lemma UnitSplits(unit: string) returns (prefix: string, tail: string)
    requires unit != ""
    ensures unit == prefix + tail && prefix in {"", "K", "k", "M", "m", "G", "g", "T", "t"}
    ensures tail == if Scale(unit[0]).Some? then unit[1..] else unit
  {
    if Scale(unit[0]).Some? {
      prefix, tail := [unit[0]], unit[1..];
    } else {
      prefix, tail := "", unit;
    }
  }

  lemma PatternReads(s: string)
    requires ParsePattern(s).Some?
    ensures exists digits, blanks, prefix, tail :: Reads(s, digits, blanks, prefix, tail)
  {
    var k := DigitRun(s);
    var blanks := SkipSplits(s[k..]);
    var prefix, tail := UnitSplits(SkipBlanks(s[k..]));
    assert Reads(s, s[..k], blanks, prefix, tail);
  }

  // What is neither a number nor a number with a unit is no limit.
  lemma OnlyLimitsAreRead(text: string)
    requires ParseBandwidth(text) != 0
    ensures
      var s := TrimSpace(text);
      Atoi(s).Some? || exists digits, blanks, prefix, tail :: Reads(s, digits, blanks, prefix, tail)
  {
    if Atoi(TrimSpace(text)) == None {
      PatternReads(TrimSpace(text));
    }
  }
}
