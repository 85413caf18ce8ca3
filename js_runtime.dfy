/** The JavaScript string and number built-ins the pages rely on. */
module JsRuntime {
  import opened Arith

  // ---------------------------------------------------------------- strings

  /** `toLowerCase` on one character; only the ASCII letters are folded. */
  function LowerChar(c: char): char {
    if 'A' <= c <= 'Z' then (c as int + 32) as char else c
  }

  /** `String.prototype.toLowerCase`. */
  function ToLowerCase(s: string): (r: string)
    ensures |r| == |s|
    ensures forall i :: 0 <= i < |s| ==> r[i] == LowerChar(s[i])
    ensures forall i :: 0 <= i < |r| ==> !('A' <= r[i] <= 'Z')
  {
    if s == [] then [] else [LowerChar(s[0])] + ToLowerCase(s[1..])
  }

  /** `t` occurs in `s` starting at position `i`. */
  ghost predicate OccursAt(s: string, t: string, i: int) {
    0 <= i && i + |t| <= |s| && s[i..i + |t|] == t
  }

  /** `String.prototype.includes`: scans `s` for the first position where `t` starts. */
  function Includes(s: string, t: string): bool
    decreases |s|
  {
    if |t| > |s| then false
    else if s[..|t|] == t then true
    else Includes(s[1..], t)
  }

  /** `includes` holds exactly when the needle occurs somewhere in the string. */
  lemma {:induction false} IncludesIff(s: string, t: string)
    ensures Includes(s, t) <==> exists i :: OccursAt(s, t, i)
    decreases |s|
  {
    if |t| > |s| {
    } else if s[..|t|] == t {
      assert OccursAt(s, t, 0);
    } else {
      IncludesIff(s[1..], t);
      if Includes(s[1..], t) {
        var i :| OccursAt(s[1..], t, i);
        assert s[1..][i..i + |t|] == s[i + 1..i + 1 + |t|];
        assert OccursAt(s, t, i + 1);
      } else {
        forall i | OccursAt(s, t, i) ensures false {
          assert i != 0;
          assert s[1..][i - 1..i - 1 + |t|] == s[i..i + |t|];
          assert OccursAt(s[1..], t, i - 1);
        }
      }
    }
  }

  /** Every string includes the empty string: an empty search term matches everything. */
  lemma IncludesEmpty(s: string)
    ensures Includes(s, "")
  {
    IncludesIff(s, "");
    assert OccursAt(s, "", 0);
  }

  /** The characters `String.prototype.trim` strips: WhiteSpace and LineTerminator of ECMA-262. */
  predicate IsWhiteSpace(c: char) {
    c == ' ' || c == '\t' || c == '\n' || c == '\r' || c == '\U{0B}' || c == '\U{0C}'
    || c == '\U{A0}' || c == '\U{1680}' || ('\U{2000}' <= c <= '\U{200A}')
    || c == '\U{2028}' || c == '\U{2029}' || c == '\U{202F}' || c == '\U{205F}'
    || c == '\U{3000}' || c == '\U{FEFF}'
  }

  function TrimStart(s: string): string {
    if s != [] && IsWhiteSpace(s[0]) then TrimStart(s[1..]) else s
  }

  function TrimEnd(s: string): string {
    if s != [] && IsWhiteSpace(s[|s| - 1]) then TrimEnd(s[..|s| - 1]) else s
  }

  /** `String.prototype.trim`. */
  function Trim(s: string): string {
    TrimEnd(TrimStart(s))
  }

  ghost predicate IsBlank(s: string) {
    forall i :: 0 <= i < |s| ==> IsWhiteSpace(s[i])
  }

  lemma {:induction false} TrimStartBlank(s: string)
    ensures TrimStart(s) == [] <==> IsBlank(s)
    ensures TrimStart(s) != [] ==> !IsWhiteSpace(TrimStart(s)[0])
  {
    if s != [] && IsWhiteSpace(s[0]) {
      TrimStartBlank(s[1..]);
      assert IsBlank(s[1..]) ==> IsBlank(s) by {
        if IsBlank(s[1..]) {
          forall i | 0 <= i < |s| ensures IsWhiteSpace(s[i]) {
            if i > 0 { assert s[i] == s[1..][i - 1]; }
          }
        }
      }
      assert IsBlank(s) ==> IsBlank(s[1..]) by {
        if IsBlank(s) {
          forall i | 0 <= i < |s| - 1 ensures IsWhiteSpace(s[1..][i]) {
            assert s[1..][i] == s[i + 1];
          }
        }
      }
    }
  }

  lemma {:induction false} TrimEndKeepsNonBlank(s: string)
    requires s != [] && !IsWhiteSpace(s[0])
    ensures TrimEnd(s) != []
    decreases |s|
  {
    if IsWhiteSpace(s[|s| - 1]) {
      TrimEndKeepsNonBlank(s[..|s| - 1]);
    }
  }

  /** `trim()` yields the empty string exactly when every character is white space. */
  lemma TrimEmptyIffBlank(s: string)
    ensures Trim(s) == "" <==> IsBlank(s)
  {
    TrimStartBlank(s);
    if TrimStart(s) != [] {
      TrimEndKeepsNonBlank(TrimStart(s));
    }
  }

  // ---------------------------------------------------------------- numbers

  /** A JavaScript number whose finite values are integers. */
  datatype JsNumber = Finite(n: int) | PosInfinity | NegInfinity | NaN

  /** `Math.floor(a / b)` on two integers: a zero divisor gives an infinity or `NaN`. */
  function FloorOfQuotient(a: int, b: int): (r: JsNumber)
    ensures b != 0 ==> r == Finite(FloorDiv(a, b))
    ensures b == 0 ==> (r == PosInfinity <==> a > 0) && (r == NegInfinity <==> a < 0) && (r == NaN <==> a == 0)
  {
    if b != 0 then Finite(FloorDiv(a, b))
    else if a > 0 then PosInfinity
    else if a < 0 then NegInfinity
    else NaN
  }

  /** `x <= y` in the order `Math.min` uses (neither may be `NaN`). */
  predicate AtMost(x: JsNumber, y: JsNumber)
    requires !x.NaN? && !y.NaN?
  {
    x.NegInfinity? || y.PosInfinity? || (x.Finite? && y.Finite? && x.n <= y.n)
  }

  /** `Math.min(x, y)`. */
  function Min2(x: JsNumber, y: JsNumber): JsNumber {
    if x.NaN? || y.NaN? then NaN else if AtMost(x, y) then x else y
  }

  /** `Math.max(x, y)`. */
  function Max2(x: JsNumber, y: JsNumber): (r: JsNumber)
    ensures r.NaN? <==> x.NaN? || y.NaN?
    ensures !r.NaN? ==> AtMost(x, r) && AtMost(y, r) && (r == x || r == y)
  {
    if x.NaN? || y.NaN? then NaN else if AtMost(x, y) then y else x
  }

  /** `x + c` for an integer `c`: infinities and `NaN` absorb the addition. */
  function AddInt(x: JsNumber, c: int): (r: JsNumber)
    ensures x.Finite? <==> r.Finite?
    ensures x.Finite? ==> r.n == x.n + c
    ensures !x.Finite? ==> r == x
  {
    if x.Finite? then Finite(x.n + c) else x
  }

  /** `Math.min(...xs)`: `Infinity` for no arguments, `NaN` as soon as one argument is `NaN`. */
  function MathMin(xs: seq<JsNumber>): (r: JsNumber)
    ensures r.NaN? <==> exists i :: 0 <= i < |xs| && xs[i].NaN?
    ensures !r.NaN? ==> forall i :: 0 <= i < |xs| ==> AtMost(r, xs[i])
    ensures xs != [] && !r.NaN? ==> r in xs
    ensures xs == [] ==> r == PosInfinity
  {
    if xs == [] then PosInfinity else Min2(MathMin(xs[..|xs| - 1]), xs[|xs| - 1])
  }
}
