/** `durationToMs` from utils/jwt.js: a duration such as "15m" or "7 d"
    becomes a number of milliseconds, and anything it does not recognise
    becomes 0. The regular expression `^(\d+)\s*([smhdw])$` with the `i`
    flag is written out as a scan: digits, then optional whitespace, then
    one unit letter. `Shape` below is the declarative reading of the same
    expression, and the lemmas show the scan and the reading agree. */
module Duration {
  import opened Wrappers

  /** JavaScript's whitespace and line terminators: the set both
      `String.prototype.trim` and the regular-expression class `\s` use. */
  predicate IsSpace(c: char) {
    c == '\t' || c == '\n' || c == '\U{B}' || c == '\U{C}' || c == '\r' || c == ' '
    || c == '\U{A0}' || c == '\U{1680}' || ('\U{2000}' <= c <= '\U{200A}')
    || c == '\U{2028}' || c == '\U{2029}' || c == '\U{202F}' || c == '\U{205F}'
    || c == '\U{3000}' || c == '\U{FEFF}'
  }

  /** `\d`: an ASCII digit only. */
  predicate IsDigit(c: char) {
    '0' <= c <= '9'
  }

  /** `[smhdw]` under the `i` flag. */
  predicate IsUnitLetter(c: char) {
    c in "smhdwSMHDW"
  }

  predicate AllSpace(s: string) {
    forall i :: 0 <= i < |s| ==> IsSpace(s[i])
  }

  predicate AllDigits(s: string) {
    forall i :: 0 <= i < |s| ==> IsDigit(s[i])
  }

  /** `toLowerCase` on a unit letter. */
  function Lower(c: char): (l: char)
    requires IsUnitLetter(c)
    ensures l in "smhdw"
  {
    if 'A' <= c <= 'Z' then (c as int + 32) as char else c
  }

  /** The decimal value of a digit string (`Number` on `\d+`). */
  function DigitsValue(ds: string): nat
    requires AllDigits(ds)
  {
    if ds == [] then 0
    else DigitsValue(ds[..|ds| - 1]) * 10 + (ds[|ds| - 1] as int - '0' as int)
  }

  /** Removes trailing whitespace. */
  function TrimEnd(s: string): (r: string)
    ensures r <= s
    ensures AllSpace(s[|r|..])
    ensures r == [] || !IsSpace(r[|r| - 1])
  {
    if s == [] || !IsSpace(s[|s| - 1]) then s else TrimEnd(s[..|s| - 1])
  }

  /** Removes leading whitespace. */
  function TrimStart(s: string): (r: string)
    ensures |r| <= |s|
    ensures r == [] || !IsSpace(r[0])
  {
    if s == [] || !IsSpace(s[0]) then s else TrimStart(s[1..])
  }

  /** `String.prototype.trim`. */
  function Trim(s: string): string {
    TrimStart(TrimEnd(s))
  }

  /** What a successful match captures: the number and the lower-cased unit. */
  datatype Parsed = Parsed(value: nat, unit: char)

  /** The match of `^(\d+)\s*([smhdw])$`, case-insensitively, on `t`:
      the last character is the unit; what precedes it, once its trailing
      whitespace is dropped, must be a non-empty run of digits. */
  function Match(t: string): Option<Parsed> {
    if t == [] || !IsUnitLetter(t[|t| - 1]) then None
    else
      var digits := TrimEnd(t[..|t| - 1]);
      if digits != [] && AllDigits(digits) then Some(Parsed(DigitsValue(digits), Lower(t[|t| - 1])))
      else None
  }

  /** The declarative reading of the regular expression: `t` is a non-empty
      digit run `ds`, then whitespace `ws`, then the unit letter `u`. */
  predicate Shape(t: string, ds: string, ws: string, u: char) {
    t == ds + ws + [u] && ds != [] && AllDigits(ds) && AllSpace(ws) && IsUnitLetter(u)
  }

  /** Milliseconds per unit, the `map` of lines 45-51. */
  function UnitMs(unit: char): nat {
    match unit
    case 's' => 1000
    case 'm' => 60000
    case 'h' => 3600000
    case 'd' => 86400000
    case 'w' => 604800000
    case _ => 0
  }

  /** Seconds per unit. */
  function UnitSeconds(unit: char): nat {
    match unit
    case 's' => 1
    case 'm' => 60
    case 'h' => 3600
    case 'd' => 86400
    case 'w' => 604800
    case _ => 0
  }

  /** `durationToMs(str)`; `None` stands for `undefined`. */
  function DurationToMs(str: Option<string>): nat {
    if str.None? || str.value == [] then 0
    else
      match Match(Trim(str.value))
      case None => 0
      case Some(p) => p.value * UnitMs(p.unit)
  }

  /** `Math.floor(durationToMs(str) / 1000)`, the `expiresIn` of a token pair. */
  function ExpiresIn(str: Option<string>): nat {
    DurationToMs(str) / 1000
  }

  // ---------------------------------------------------------------------
  // The scan and the regular expression agree.

  lemma {:induction false} TrimEndOfSpaces(ds: string, ws: string)
    requires ds == [] || !IsSpace(ds[|ds| - 1])
    requires AllSpace(ws)
    ensures TrimEnd(ds + ws) == ds
  {
    if ws != [] {
      var w' := ws[..|ws| - 1];
      assert (ds + ws)[..|ds + ws| - 1] == ds + w';
      TrimEndOfSpaces(ds, w');
    } else {
      assert ds + ws == ds;
    }
  }

  /** Every input of the regular expression's shape is matched, and the
      match captures its digits' value and its lower-cased unit. */
  lemma MatchComplete(t: string, ds: string, ws: string, u: char)
    requires Shape(t, ds, ws, u)
    ensures Match(t) == Some(Parsed(DigitsValue(ds), Lower(u)))
  {
    assert t[|t| - 1] == u;
    assert t[..|t| - 1] == ds + ws;
    TrimEndOfSpaces(ds, ws);
  }

  /** Every match comes from an input of the regular expression's shape. */
  lemma MatchSound(t: string)
    requires Match(t).Some?
    ensures exists ds, ws, u :: Shape(t, ds, ws, u) && Match(t) == Some(Parsed(DigitsValue(ds), Lower(u)))
  {
    var body := t[..|t| - 1];
    var ds := TrimEnd(body);
    var ws := body[|ds|..];
    var u := t[|t| - 1];
    assert t == ds + ws + [u];
    assert Shape(t, ds, ws, u);
  }

  /** Inputs that are not of the shape, once trimmed, give 0. */
  lemma NoShapeIsZero(s: string)
    requires forall ds, ws, u :: !Shape(Trim(s), ds, ws, u)
    ensures DurationToMs(Some(s)) == 0
  {
    if s != [] && Match(Trim(s)).Some? {
      MatchSound(Trim(s));
    }
  }

  /** The value of a well-formed duration: digits times the unit's milliseconds. */
  lemma DurationOfShape(s: string, ds: string, ws: string, u: char)
    requires Shape(Trim(s), ds, ws, u)
    ensures DurationToMs(Some(s)) == DigitsValue(ds) * UnitMs(Lower(u))
  {
    MatchComplete(Trim(s), ds, ws, u);
  }

  // ---------------------------------------------------------------------
  // Properties of the result.

  lemma {:induction false} TrimStartSnoc(p: string, c: char)
    requires !IsSpace(c)
    ensures TrimStart(p + [c]) == TrimStart(p) + [c]
  {
    var pc := p + [c];
    if p == [] {
      assert pc == [c];
    } else if IsSpace(p[0]) {
      assert pc[0] == p[0];
      assert pc[1..] == p[1..] + [c];
      TrimStartSnoc(p[1..], c);
    } else {
      assert pc[0] == p[0];
    }
  }

  /** The case of the unit letter does not matter: "2H" is "2h". */
  lemma UnitCaseIrrelevant(p: string, c: char)
    requires IsUnitLetter(c)
    ensures DurationToMs(Some(p + [c])) == DurationToMs(Some(p + [Lower(c)]))
  {
    var l := Lower(c);
    if l != c {
      assert !IsSpace(c) && !IsSpace(l);
      assert TrimEnd(p + [c]) == p + [c];
      assert TrimEnd(p + [l]) == p + [l];
      TrimStartSnoc(p, c);
      TrimStartSnoc(p, l);
      var q := TrimStart(p);
      var t, t' := q + [c], q + [l];
      assert t[..|t| - 1] == q == t'[..|t'| - 1];
      assert Lower(l) == l;
    }
  }

  /** A duration is always a whole number of seconds, so `expiresIn`
      loses nothing: it is the value times the unit's seconds. */
  lemma ExpiresInExact(s: string, ds: string, ws: string, u: char)
    requires Shape(Trim(s), ds, ws, u)
    ensures DurationToMs(Some(s)) % 1000 == 0
    ensures ExpiresIn(Some(s)) == DigitsValue(ds) * UnitSeconds(Lower(u))
    ensures ExpiresIn(Some(s)) * 1000 == DurationToMs(Some(s))
  {
    DurationOfShape(s, ds, ws, u);
    UnitMsInSeconds(Lower(u));
    ScaledSeconds(DigitsValue(ds), UnitSeconds(Lower(u)), DurationToMs(Some(s)));
  }

  /** `v` units of `secs` seconds each, counted in milliseconds, divide
      back exactly. */
  lemma ScaledSeconds(v: nat, secs: nat, ms: nat)
    requires ms == v * (secs * 1000)
    ensures ms % 1000 == 0 && ms / 1000 == v * secs
  {
    assert ms == (v * secs) * 1000;
    WholeSeconds(v * secs);
  }

  /** Every unit is a whole number of seconds. */
  lemma UnitMsInSeconds(unit: char)
    ensures UnitMs(unit) == UnitSeconds(unit) * 1000
  {
  }

  lemma WholeSeconds(n: nat)
    ensures (n * 1000) % 1000 == 0 && (n * 1000) / 1000 == n
  {
  }

  /** For a fixed unit, a larger number never gives a shorter duration. */
  lemma MonotoneInValue(s: string, ds: string, ws: string, s': string, ds': string, ws': string, u: char)
    requires Shape(Trim(s), ds, ws, u) && Shape(Trim(s'), ds', ws', u)
    requires DigitsValue(ds) <= DigitsValue(ds')
    ensures DurationToMs(Some(s)) <= DurationToMs(Some(s'))
  {
    DurationOfShape(s, ds, ws, u);
    DurationOfShape(s', ds', ws', u);
    MulMonotone(DigitsValue(ds), DigitsValue(ds'), UnitMs(Lower(u)));
  }

  lemma MulMonotone(a: nat, b: nat, k: nat)
    requires a <= b
    ensures a * k <= b * k
  {
  }

  /** Worked cases: no input, "0s", "15m", "2H" against "2h", and "1.5h",
      which the regular expression does not match. */
  lemma ExampleZero()
    ensures DurationToMs(None) == 0 && DurationToMs(Some("")) == 0
    ensures DurationToMs(Some("0s")) == 0
  {
    assert Trim("0s") == "0s";
    MatchComplete("0s", "0", "", 's');
  }

  lemma ExampleMinutes()
    ensures DurationToMs(Some("15m")) == 900000
  {
    assert Trim("15m") == "15m";
    MatchComplete("15m", "15", "", 'm');
  }

  lemma ExampleUpperCase()
    ensures DurationToMs(Some("2H")) == DurationToMs(Some("2h")) == 7200000
  {
    assert Trim("2h") == "2h" && Trim("2H") == "2H";
    MatchComplete("2h", "2", "", 'h');
    MatchComplete("2H", "2", "", 'H');
    assert Lower('H') == 'h';
  }

  lemma ExampleFraction()
    ensures DurationToMs(Some("1.5h")) == 0
  {
    var t := "1.5h";
    assert Trim(t) == t;
    assert t[..3] == "1.5";
    assert TrimEnd("1.5") == "1.5";
    assert !IsDigit("1.5"[1]);
  }
}
