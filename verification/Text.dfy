// Decimal numbers and durations as text.
module Text {
  import opened Wrappers

  predicate IsDigit(c: char) {
    '0' <= c <= '9'
  }

  predicate AllDigits(s: string) {
    forall c | c in s :: IsDigit(c)
  }

  // strconv.Itoa for numbers that are not negative
  function Itoa(n: nat): string {
    if n < 10 then [('0' as int + n) as char] else Itoa(n / 10) + [('0' as int + n % 10) as char]
  }

  // The number a string of digits denotes.
  function ParseNat(s: string): nat
    requires AllDigits(s)
  {
    if s == "" then 0 else 10 * ParseNat(s[..|s| - 1]) + Digit(s[|s| - 1])
  }

  function Digit(c: char): nat
    requires IsDigit(c)
  {
    c as int - '0' as int
  }

  lemma {:induction false} ItoaParses(n: nat)
    ensures AllDigits(Itoa(n)) && Itoa(n) != "" && ParseNat(Itoa(n)) == n
  {
    if n < 10 {
      assert Itoa(n)[..0] == "";
    } else {
      ItoaParses(n / 10);
      assert Itoa(n)[..|Itoa(n)| - 1] == Itoa(n / 10);
    }
  }

  lemma ItoaInjective(n: nat, k: nat)
    requires Itoa(n) == Itoa(k)
    ensures n == k
  {
    ItoaParses(n);
    ItoaParses(k);
  }

  // The length of the run of digits a string starts with.
  function DigitRun(s: string): (k: nat)
    ensures k <= |s| && AllDigits(s[..k])
    ensures k < |s| ==> !IsDigit(s[k])
  {
    if s == "" || !IsDigit(s[0]) then 0
    else
      var k := DigitRun(s[1..]);
      assert s[..k + 1] == [s[0]] + s[1..][..k];
      k + 1
  }

  lemma DigitRunOf(digits: string, rest: string)
    requires AllDigits(digits) && (rest == "" || !IsDigit(rest[0]))
    ensures DigitRun(digits + rest) == |digits|
  {
    if digits == "" {
      assert digits + rest == rest;
    } else {
      assert (digits + rest)[1..] == digits[1..] + rest;
      DigitRunOf(digits[1..], rest);
    }
  }

  // ---------------------------------------------------------------------
  // Durations
  // ---------------------------------------------------------------------

  function Unit(n: nat, u: char): string {
    if n == 0 then "" else Itoa(n) + [u]
  }

  function Duration(seconds: int): string {
    if seconds <= 0 then "0s"
    else Unit(seconds / 3600, 'h') + Unit(seconds % 3600 / 60, 'm') + Unit(seconds % 60, 's')
  }

  method SecondsToDuration(seconds: int) returns (r: string)
    ensures r == Duration(seconds)
  {
    if seconds <= 0 {
      return "0s";
    }
    var h := seconds / 3600;
    var m := (seconds % 3600) / 60;
    var s := seconds % 60;
    r := "";
    if h > 0 {
      r := r + Itoa(h) + "h";
    }
    if m > 0 {
      r := r + Itoa(m) + "m";
    }
    if s > 0 {
      r := r + Itoa(s) + "s";
    }
  }

  datatype Part = Part(n: nat, unit: char)

  // How a reader takes a duration apart: numbers, each followed by its unit.
  function ParseParts(s: string): Option<seq<Part>>
    decreases |s|
  {
    if s == "" then Some([])
    else
      var k := DigitRun(s);
      if k == 0 || k == |s| then None
      else
        match ParseParts(s[k + 1..])
        case None => None
        case Some(parts) => Some([Part(ParseNat(s[..k]), s[k])] + parts)
  }

  function UnitSeconds(u: char): int {
    if u == 'h' then 3600 else if u == 'm' then 60 else if u == 's' then 1 else 0
  }

  function TotalSeconds(parts: seq<Part>): int {
    if parts == [] then 0 else parts[0].n * UnitSeconds(parts[0].unit) + TotalSeconds(parts[1..])
  }

  lemma ParseOne(n: nat, u: char, rest: string)
    requires !IsDigit(u)
    ensures
      var s := Itoa(n) + ([u] + rest);
      && Itoa(n) != "" && DigitRun(s) == |Itoa(n)| && s[..|Itoa(n)|] == Itoa(n)
      && s[|Itoa(n)|] == u && s[|Itoa(n)| + 1..] == rest
  {
    ItoaParses(n);
    DigitRunOf(Itoa(n), [u] + rest);
  }

  lemma ParseStep(s: string, k: int)
    requires k == DigitRun(s) && 0 < k < |s| && ParseParts(s[k + 1..]).Some?
    ensures ParseParts(s) == Some([Part(ParseNat(s[..k]), s[k])] + ParseParts(s[k + 1..]).value)
  {
  }

  lemma ParseUnit(n: nat, u: char, rest: string)
    requires !IsDigit(u) && ParseParts(rest).Some?
    ensures
      ParseParts(Unit(n, u) + rest)
      == Some(OnePart(n, u) + ParseParts(rest).value)
  {
    if n == 0 {
      assert Unit(n, u) + rest == rest;
      assert [] + ParseParts(rest).value == ParseParts(rest).value;
    } else {
      ItoaParses(n);
      ParseOne(n, u, rest);
      ParseStep(Itoa(n) + ([u] + rest), |Itoa(n)|);
      assert Unit(n, u) + rest == Itoa(n) + ([u] + rest);
    }
  }

  function OnePart(n: nat, u: char): seq<Part> {
    if n == 0 then [] else [Part(n, u)]
  }

  function Parts(h: nat, m: nat, s: nat): seq<Part> {
    OnePart(h, 'h') + (OnePart(m, 'm') + (OnePart(s, 's') + []))
  }

  lemma PartsParse(h: nat, m: nat, s: nat)
    ensures ParseParts(Unit(h, 'h') + (Unit(m, 'm') + (Unit(s, 's') + ""))) == Some(Parts(h, m, s))
  {
    assert ParseParts("") == Some([]);
    ParseUnit(s, 's', "");
    ParseUnit(m, 'm', Unit(s, 's') + "");
    ParseUnit(h, 'h', Unit(m, 'm') + (Unit(s, 's') + ""));
  }

  lemma OnePartTotal(n: nat, u: char, rest: seq<Part>)
    ensures TotalSeconds(OnePart(n, u) + rest) == n * UnitSeconds(u) + TotalSeconds(rest)
  {
    if n == 0 {
      assert OnePart(n, u) + rest == rest;
    } else {
      assert (OnePart(n, u) + rest)[1..] == rest;
    }
  }

  lemma PartsTotal(h: nat, m: nat, s: nat)
    ensures TotalSeconds(Parts(h, m, s)) == 3600 * h + 60 * m + s
  {
    OnePartTotal(s, 's', []);
    OnePartTotal(m, 'm', OnePart(s, 's') + []);
    OnePartTotal(h, 'h', OnePart(m, 'm') + (OnePart(s, 's') + []));
  }

  predicate WellPrinted(parts: seq<Part>) {
    && (forall i | 0 <= i < |parts| :: parts[i].n > 0)
    && (forall i, j | 0 <= i < j < |parts| ::
          UnitSeconds(parts[i].unit) > UnitSeconds(parts[j].unit) > 0)
  }

  lemma PartsWellPrinted(h: nat, m: nat, s: nat)
    ensures WellPrinted(Parts(h, m, s))
  {
  }

  lemma SplitSeconds(seconds: int)
    requires seconds > 0
    ensures seconds == 3600 * (seconds / 3600) + 60 * (seconds % 3600 / 60) + seconds % 60
  {
  }

  lemma ZeroReadsBack()
    ensures ParseParts("0s") == Some([Part(0, 's')]) && TotalSeconds([Part(0, 's')]) == 0
  {
    DigitRunOf("0", "s");
    assert "0" + "s" == "0s" && "0s"[..1] == "0" && "0s"[2..] == "";
    ItoaParses(0);
    assert DigitRun("0s") == 1 && ParseNat("0s"[..1]) == 0;
    assert ParseParts("0s"[2..]) == Some([]);
    assert [Part(0, 's')] + [] == [Part(0, 's')];
  }

  // What is printed reads back as the same number of seconds: no unit is written
  // with the number zero, and the units go from the largest to the smallest. Zero
  // itself, and what is negative, is written with one unit.
  lemma DurationReadsBack(seconds: int)
    ensures
      var parts := ParseParts(Duration(seconds));
      && parts.Some? && parts.value != []
      && TotalSeconds(parts.value) == (if seconds <= 0 then 0 else seconds)
      && (seconds > 0 ==> WellPrinted(parts.value))
  {
    if seconds <= 0 {
      ZeroReadsBack();
    } else {
      var h, m, s := seconds / 3600, seconds % 3600 / 60, seconds % 60;
      assert Duration(seconds) == Unit(h, 'h') + (Unit(m, 'm') + (Unit(s, 's') + ""));
      PartsParse(h, m, s);
      PartsTotal(h, m, s);
      PartsWellPrinted(h, m, s);
      SplitSeconds(seconds);
    }
  }
}
