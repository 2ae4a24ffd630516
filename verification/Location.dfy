/** The location grammar and the PLC command codec of
    src/core/orchestrator/locationTranslator.js, on ASCII text. */
module Location {
  import opened Sequences

  datatype RawLocation = RawLocation(shelf: string, moduleNumber: nat, level: nat, position: nat)

  predicate IsDigit(c: char) { '0' <= c <= '9' }

  predicate IsAlnum(c: char) { IsDigit(c) || 'A' <= c <= 'Z' }

  predicate ValidLocation(l: RawLocation) {
    && l.shelf != []
    && (forall i :: 0 <= i < |l.shelf| ==> IsAlnum(l.shelf[i]))
    && l.moduleNumber < 100
    && 1 <= l.level <= 12
    && l.position < 10
  }

  /** A shelving unit, a two-digit module, a level A..L (1..12) and a one-digit position. */
  type Location = l: RawLocation | ValidLocation(l) witness RawLocation("3X", 1, 1, 1)

  /** T takes a box; D (also written L) leaves one. */
  datatype CarAction = Take | Drop

  datatype Parsed = Parsed(location: Location, action: Option<CarAction>)

  // ---------- digits ----------

  function Digit(d: nat): char
    requires d < 10
  {
    '0' + d as char
  }

  function DigitValue(c: char): nat
    requires IsDigit(c)
  {
    (c - '0') as nat
  }

  ghost predicate Digits(s: string) { forall i :: 0 <= i < |s| ==> IsDigit(s[i]) }

  /** `Number(s)` on a string of digits. */
  function ToNumber(s: string): nat
    requires forall i :: 0 <= i < |s| ==> IsDigit(s[i])
  {
    if s == [] then 0 else 10 * ToNumber(s[..|s| - 1]) + DigitValue(s[|s| - 1])
  }

  /** `String(n)` on a natural number. */
  function ToText(n: nat): (s: string)
    ensures s != [] && forall i :: 0 <= i < |s| ==> IsDigit(s[i])
  {
    if n < 10 then [Digit(n)] else ToText(n / 10) + [Digit(n % 10)]
  }

  /** `s.padStart(width, "0")` */
  function PadStart(s: string, width: nat): (r: string)
    ensures |r| >= width && |r| >= |s|
    ensures (forall i :: 0 <= i < |s| ==> IsDigit(s[i])) ==> forall i :: 0 <= i < |r| ==> IsDigit(r[i])
    decreases width - |s|
  {
    if |s| >= width then s else PadStart(['0'] + s, width)
  }

  lemma {:induction false} ToNumberToText(n: nat)
    ensures ToNumber(ToText(n)) == n
  {
    if n >= 10 {
      ToNumberToText(n / 10);
      assert ToText(n)[..|ToText(n)| - 1] == ToText(n / 10);
    } else {
      assert ToText(n)[..0] == [];
    }
  }

  lemma {:induction false} LeadingZero(s: string)
    requires Digits(s)
    ensures ToNumber(['0'] + s) == ToNumber(s)
  {
    var t := ['0'] + s;
    if s == [] {
      assert t[..0] == [];
    } else {
      LeadingZero(s[..|s| - 1]);
      assert t[..|t| - 1] == ['0'] + s[..|s| - 1];
    }
  }

  lemma {:induction false} PadStartValue(s: string, width: nat)
    requires Digits(s)
    ensures ToNumber(PadStart(s, width)) == ToNumber(s)
    decreases width - |s|
  {
    if |s| < width {
      LeadingZero(s);
      PadStartValue(['0'] + s, width);
    }
  }

  lemma {:induction false} PadStartLength(s: string, width: nat)
    ensures |PadStart(s, width)| == if |s| >= width then |s| else width
    decreases width - |s|
  {
    if |s| < width { PadStartLength(['0'] + s, width); }
  }

  // ---------- printing and parsing ----------

  function LevelLetter(level: nat): char
    requires 1 <= level <= 12
  {
    'A' + (level - 1) as char
  }

  /** `baseCode`: shelf, two-digit module, the letter A, level letter, position. */
  function Print(l: Location): string {
    l.shelf + [Digit(l.moduleNumber / 10), Digit(l.moduleNumber % 10), 'A', LevelLetter(l.level), Digit(l.position)]
  }

  function ToUpper(c: char): char {
    if 'a' <= c <= 'z' then 'A' + (c - 'a') else c
  }

  function Upper(s: string): (r: string)
    ensures |r| == |s| && forall i :: 0 <= i < |s| ==> r[i] == ToUpper(s[i])
  {
    if s == [] then [] else [ToUpper(s[0])] + Upper(s[1..])
  }

  /** ASCII white space. */
  predicate IsSpace(c: char) { c == ' ' || 9 <= c as int <= 13 }

  function TrimLeft(s: string): string {
    if s != [] && IsSpace(s[0]) then TrimLeft(s[1..]) else s
  }

  function TrimRight(s: string): string {
    if s != [] && IsSpace(s[|s| - 1]) then TrimRight(s[..|s| - 1]) else s
  }

  /** `String(input || "").trim().toUpperCase()` */
  function Normalized(input: string): string {
    Upper(TrimRight(TrimLeft(input)))
  }

  /** T is T; D and L are D. */
  function ActionOf(c: char): Option<CarAction> {
    if c == 'T' then Some(Take) else if c == 'D' || c == 'L' then Some(Drop) else None
  }

  /** The part of a normalized code that the regular expression matches before the optional action. */
  function ParseBase(v: string): Option<Location> {
    var n := |v|;
    if n >= 6
       && IsDigit(v[n - 1]) && 'A' <= v[n - 2] <= 'L' && v[n - 3] == 'A'
       && IsDigit(v[n - 4]) && IsDigit(v[n - 5])
       && (forall i :: 0 <= i < n - 5 ==> IsAlnum(v[i]))
    then
      var l := RawLocation(v[..n - 5], 10 * DigitValue(v[n - 5]) + DigitValue(v[n - 4]),
                           (v[n - 2] - 'A') as nat + 1, DigitValue(v[n - 1]));
      Some(l)
    else None
  }

  /** `parseLocationCode`: None is the thrown format error. */
  function Parse(input: string): Option<Parsed> {
    ParseNormalized(Normalized(input))
  }

  function ParseNormalized(v: string): Option<Parsed> {
    var action := if v == [] then None else ActionOf(v[|v| - 1]);
    match ParseBase(if action.Some? then v[..|v| - 1] else v)
    case Some(l) => Some(Parsed(l, action))
    case None => None
  }

  /** `hasLocationActionSuffix` */
  predicate HasActionSuffix(input: string) {
    var v := Normalized(input);
    v != [] && ActionOf(v[|v| - 1]).Some?
  }

  /** `inferRobotIdFromEstanteria` with its default map. */
  function RobotOf(l: Location): string {
    if l.shelf == "3X" then "1" else l.shelf
  }

  lemma ParseBasePrint(l: Location)
    ensures ParseBase(Print(l)) == Some(l)
  {
    var v := Print(l);
    var n := |v|;
    assert v[..n - 5] == l.shelf;
    forall i | 0 <= i < n - 5 ensures IsAlnum(v[i]) { assert v[i] == l.shelf[i]; }
  }

  lemma PrintParseBase(v: string)
    requires ParseBase(v).Some?
    ensures Print(ParseBase(v).value) == v
  {
    var n := |v|;
    assert v == v[..n - 5] + [v[n - 5], v[n - 4], v[n - 3], v[n - 2], v[n - 1]];
  }

  /** Characters that normalization leaves alone. */
  ghost predicate Plain(s: string) { forall i :: 0 <= i < |s| ==> IsAlnum(s[i]) }

  lemma PrintIsPlain(l: Location)
    ensures Plain(Print(l)) && Print(l) != []
    ensures IsDigit(Print(l)[|Print(l)| - 1])
  {
  }

  lemma NormalizedPlain(s: string)
    requires Plain(s)
    ensures Normalized(s) == s
  {
    assert TrimLeft(s) == s;
    assert TrimRight(s) == s;
    assert Upper(s) == s;
  }

  function ActionText(action: Option<CarAction>, letterL: bool): string {
    match action
    case None => ""
    case Some(Take) => "T"
    case Some(Drop) => if letterL then "L" else "D"
  }

  lemma ParseWithAction(l: Location, c: char)
    requires ActionOf(c).Some?
    ensures ParseNormalized(Print(l) + [c]) == Some(Parsed(l, ActionOf(c)))
  {
    var v := Print(l) + [c];
    assert v[..|v| - 1] == Print(l);
    ParseBasePrint(l);
  }

  lemma ParseWithoutAction(l: Location)
    ensures ParseNormalized(Print(l)) == Some(Parsed(l, None))
  {
    PrintIsPlain(l);
    ParseBasePrint(l);
  }

  /** Parsing inverts printing a base code followed by an optional action letter (D or L for Drop). */
  lemma ParseInvertsPrint(l: Location, action: Option<CarAction>, letterL: bool)
    ensures Parse(Print(l) + ActionText(action, letterL)) == Some(Parsed(l, action))
    ensures HasActionSuffix(Print(l) + ActionText(action, letterL)) <==> action.Some?
  {
    var t := ActionText(action, letterL);
    PrintIsPlain(l);
    if action.Some? {
      assert t == [t[0]] && ActionOf(t[0]) == action;
      ParseWithAction(l, t[0]);
      NormalizedParse(Print(l) + t, Print(l) + [t[0]]);
    } else {
      ParseWithoutAction(l);
      NormalizedParse(Print(l) + t, Print(l));
    }
  }

  lemma NormalizedParse(v: string, w: string)
    requires v == w && Plain(v)
    ensures Parse(v) == ParseNormalized(w)
    ensures HasActionSuffix(v) <==> v != [] && ActionOf(w[|w| - 1]).Some?
  {
    NormalizedPlain(v);
  }

  lemma PrintInvertsParseNormalized(v: string) returns (letterL: bool)
    requires ParseNormalized(v).Some?
    ensures var p := ParseNormalized(v).value;
            v == Print(p.location) + ActionText(p.action, letterL)
    ensures ParseNormalized(v).value.action == if v == [] then None else ActionOf(v[|v| - 1])
  {
    var p := ParseNormalized(v).value;
    letterL := v != [] && v[|v| - 1] == 'L';
    if p.action.Some? {
      PrintParseBase(v[..|v| - 1]);
      assert v == v[..|v| - 1] + [v[|v| - 1]];
      assert ActionText(p.action, letterL) == [v[|v| - 1]];
    } else {
      PrintParseBase(v);
      assert ActionText(p.action, letterL) == "";
    }
  }

  /** Whatever parses is, once trimmed and upper-cased, exactly one printed code plus an action letter:
      the grammar is unambiguous and parsing accepts nothing else. */
  lemma PrintInvertsParse(input: string)
    requires Parse(input).Some?
    ensures var p := Parse(input).value;
            exists letterL :: Normalized(input) == Print(p.location) + ActionText(p.action, letterL)
    ensures HasActionSuffix(input) <==> Parse(input).value.action.Some?
  {
    var letterL := PrintInvertsParseNormalized(Normalized(input));
  }

  /** `normalizeLocationCode` is idempotent: a base code parses to itself with no action. */
  lemma NormalizationIdempotent(input: string)
    requires Parse(input).Some?
    ensures Parse(Print(Parse(input).value.location)) == Some(Parsed(Parse(input).value.location, None))
  {
    var l := Parse(input).value.location;
    ParseInvertsPrint(l, None, false);
    assert Print(l) + "" == Print(l);
  }

  lemma PrintInjective(a: Location, b: Location)
    requires Print(a) == Print(b)
    ensures a == b
  {
    ParseBasePrint(a);
    ParseBasePrint(b);
  }

  // ---------- command codec ----------

  function SideBit(l: Location): nat { l.moduleNumber % 2 }

  /** `toParanteCode`: None is the thrown error for module 00. */
  function ParanteText(moduleNumber: nat): Option<string> {
    if moduleNumber == 0 then None else Some(PadStart(ToText((moduleNumber + 1) / 2), 2))
  }

  function ActionBit(a: CarAction): nat { if a == Take then 1 else 0 }

  /** `toCarroCommand(...).commandCode`: position, two-digit pair number, side bit, action bit. */
  function CarCommand(l: Location, a: CarAction): Option<nat> {
    match ParanteText(l.moduleNumber)
    case None => None
    case Some(p) => Some(ToNumber([Digit(l.position)] + p + [Digit(SideBit(l)), Digit(ActionBit(a))]))
  }

  /** `toElevadorGoLevelCommand(...).commandCode` */
  function LiftCommand(l: Location): nat { 100 + l.level }

  /** The concatenated digits are the decimal number they spell. */
  lemma CarCommandValue(l: Location, a: CarAction)
    ensures CarCommand(l, a).Some? <==> l.moduleNumber >= 1
    ensures l.moduleNumber >= 1 ==>
              CarCommand(l, a) == Some(10000 * l.position + 100 * ((l.moduleNumber + 1) / 2)
                                       + 10 * (if l.moduleNumber % 2 == 0 then 0 else 1) + (if a == Take then 1 else 0))
  {
    if l.moduleNumber >= 1 {
      var pair := (l.moduleNumber + 1) / 2;
      var p := ParanteText(l.moduleNumber).value;
      TwoDigits(pair);
      FiveDigits([Digit(l.position)] + p + [Digit(SideBit(l)), Digit(ActionBit(a))]);
    }
  }

  lemma TwoDigits(n: nat)
    requires n < 100
    ensures var p := PadStart(ToText(n), 2); p == [Digit(n / 10), Digit(n % 10)]
  {
    if n >= 10 {
      assert ToText(n) == ToText(n / 10) + [Digit(n % 10)];
    } else {
      assert PadStart(['0'] + ToText(n), 2) == ['0'] + ToText(n);
    }
  }

  lemma FiveDigits(d: string)
    requires Digits(d) && |d| == 5
    ensures ToNumber(d) == 10000 * DigitValue(d[0]) + 1000 * DigitValue(d[1]) + 100 * DigitValue(d[2])
                           + 10 * DigitValue(d[3]) + DigitValue(d[4])
  {
    assert d[..4][..3] == d[..3] && d[..3][..2] == d[..2] && d[..2][..1] == d[..1] && d[..1][..0] == [];
    assert ToNumber(d[..1]) == DigitValue(d[0]);
    assert ToNumber(d[..2]) == 10 * ToNumber(d[..1]) + DigitValue(d[1]);
    assert ToNumber(d[..3]) == 10 * ToNumber(d[..2]) + DigitValue(d[2]);
    assert ToNumber(d[..4]) == 10 * ToNumber(d[..3]) + DigitValue(d[3]);
  }

  /** For modules 1..99 the pair (car code, lift code) determines module, level, position and action. */
  lemma CommandPairInjective(l: Location, a: CarAction, m: Location, b: CarAction)
    requires l.moduleNumber >= 1 && m.moduleNumber >= 1
    requires CarCommand(l, a) == CarCommand(m, b) && LiftCommand(l) == LiftCommand(m)
    ensures l.moduleNumber == m.moduleNumber && l.level == m.level && l.position == m.position && a == b
  {
    CarCommandValue(l, a);
    CarCommandValue(m, b);
    var p, q := (l.moduleNumber + 1) / 2, (m.moduleNumber + 1) / 2;
    FieldsUnique(l.position, p, SideBit(l), ActionBit(a), m.position, q, SideBit(m), ActionBit(b));
    assert l.moduleNumber == 2 * p - SideBit(l) && m.moduleNumber == 2 * q - SideBit(m);
  }

  lemma FieldsUnique(x: nat, p: nat, s: nat, a: nat, y: nat, q: nat, t: nat, b: nat)
    requires p < 100 && q < 100 && s < 2 && t < 2 && a < 2 && b < 2
    requires 10000 * x + 100 * p + 10 * s + a == 10000 * y + 100 * q + 10 * t + b
    ensures x == y && p == q && s == t && a == b
  {
    assert 100 * p + 10 * s + a < 10000 && 100 * q + 10 * t + b < 10000;
    assert x == y;
  }

  // ---------- splitting a car command over two registers ----------

  datatype Split = Split(high: nat, low: nat)

  /** `splitCarroCommandValue` on a natural value: the last five digits, first one apart. */
  function SplitCarCommand(value: nat): Split {
    var padded := PadStart(ToText(value), 5);
    var digits := padded[|padded| - 5..];
    Split(DigitValue(digits[0]), ToNumber(digits[1..]))
  }

  function Pow10(k: nat): nat { if k == 0 then 1 else 10 * Pow10(k - 1) }

  /** The last k digits are the number modulo 10^k. */
  lemma {:induction false} LastDigits(s: string, k: nat)
    requires Digits(s) && k <= |s|
    ensures Pow10(k) > 0 && ToNumber(s[|s| - k..]) == ToNumber(s) % Pow10(k)
  {
    var t := s[|s| - k..];
    if k == 0 {
      assert t == [];
    } else {
      var init := s[..|s| - 1];
      LastDigits(init, k - 1);
      assert t[..k - 1] == init[|init| - (k - 1)..];
      var n, d, m := ToNumber(init), DigitValue(s[|s| - 1]), Pow10(k - 1);
      ModTimesTen(n, d, m);
    }
  }

  lemma ModTimesTen(n: nat, d: nat, m: nat)
    requires m > 0 && d < 10
    ensures 10 * (n % m) + d == (10 * n + d) % (10 * m)
  {
    var q, r := n / m, n % m;
    assert 10 * n + d == (10 * m) * q + (10 * r + d);
    assert 10 * r + d < 10 * m;
    DivModUnique(10 * n + d, 10 * m, q, 10 * r + d);
  }

  lemma DivModUnique(x: nat, m: nat, q: nat, r: nat)
    requires m > 0 && x == m * q + r && r < m
    ensures x % m == r
  {
    var d := q - x / m;
    assert x == m * (x / m) + x % m;
    assert m * d == x % m - r;
    MultipleBounds(m, d);
  }

  lemma MultipleBounds(m: int, d: int)
    requires m > 0
    ensures d >= 1 ==> m * d >= m
    ensures d <= -1 ==> m * d <= -m
  {
    assert m * d == m * (d - 1) + m && m * d == m * (d + 1) - m;
    if d >= 1 { assert m * (d - 1) >= 0; }
    if d <= -1 { assert m * (d + 1) <= 0; }
  }

  /** The two registers rebuild the code modulo 100000 and each fits a 16-bit Modbus register. */
  lemma SplitValue(value: nat)
    ensures var s := SplitCarCommand(value);
            s.high * 10000 + s.low == value % 100000 && s.high <= 9 && s.low <= 9999 < 0x1_0000
  {
    var padded := PadStart(ToText(value), 5);
    PadStartValue(ToText(value), 5);
    ToNumberToText(value);
    LastDigits(padded, 5);
    assert Pow10(4) == 10000 && Pow10(5) == 100000 by {
      assert Pow10(1) == 10 && Pow10(2) == 100 && Pow10(3) == 1000;
    }
    var d := padded[|padded| - 5..];
    LastDigits(padded, 4);
    assert d[1..] == padded[|padded| - 4..];
    FirstOfFive(d);
    assert ToNumber(d[1..]) == value % 10000;
  }

  lemma FirstOfFive(d: string)
    requires Digits(d) && |d| == 5
    ensures ToNumber(d) == 10000 * DigitValue(d[0]) + ToNumber(d[1..])
  {
    var e := ['0'] + d[1..];
    LeadingZero(d[1..]);
    FiveDigits(d);
    FiveDigits(e);
  }

  /** Every command the orchestrator sends to the car for a location survives the split unchanged. */
  lemma CarCommandSplits(l: Location, a: CarAction)
    requires l.moduleNumber >= 1
    ensures var s := SplitCarCommand(CarCommand(l, a).value);
            s.high * 10000 + s.low == CarCommand(l, a).value && s.high == l.position
  {
    CarCommandValue(l, a);
    SplitValue(CarCommand(l, a).value);
  }
}
