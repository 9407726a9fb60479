/**
The Spanish tax-id validators: normalisation, the NIF/NIE mod-23 letter, and the
CIF check character, with the error-detection theorems the check characters exist for.

A validator that raises ValueError is a predicate that is false here.
*/
module TaxIds {

  // ---------------------------------------------------------------------------
  // Normalisation: value.strip().upper()
  // ---------------------------------------------------------------------------

  /** The characters Python's str.strip() removes. */
  predicate IsSpace(c: char) {
    var n := c as int;
    || 0x09 <= n <= 0x0D || 0x1C <= n <= 0x20 || n == 0x85 || n == 0xA0 || n == 0x1680
    || 0x2000 <= n <= 0x200A || n == 0x2028 || n == 0x2029 || n == 0x202F || n == 0x205F || n == 0x3000
  }

  function StripLeft(s: string): string {
    if s != "" && IsSpace(s[0]) then StripLeft(s[1..]) else s
  }

  function StripRight(s: string): string {
    if s != "" && IsSpace(s[|s| - 1]) then StripRight(s[..|s| - 1]) else s
  }

  function Strip(s: string): string {
    StripRight(StripLeft(s))
  }

  /**
  Upper-case mapping of one character. It lists every character whose upper-case form is
  all ASCII; any other character maps to something that holds a non-ASCII character, which
  no format accepts, so it is left as it is.
  */
  function UpperChar(c: char): string {
    if 'a' <= c <= 'z' then [(c as int - 32) as char]
    else if c == '\U{0131}' then "I"
    else if c == '\U{017F}' then "S"
    else if c == '\U{00DF}' then "SS"
    else if c == '\U{FB00}' then "FF"
    else if c == '\U{FB01}' then "FI"
    else if c == '\U{FB02}' then "FL"
    else if c == '\U{FB03}' then "FFI"
    else if c == '\U{FB04}' then "FFL"
    else if c == '\U{FB05}' || c == '\U{FB06}' then "ST"
    else [c]
  }

  function Upper(s: string): string {
    if s == "" then "" else UpperChar(s[0]) + Upper(s[1..])
  }

  function Normalize(s: string): string {
    Upper(Strip(s))
  }

  predicate IsDigit(c: char) { '0' <= c <= '9' }

  predicate IsLetter(c: char) { 'A' <= c <= 'Z' }

  predicate Digits(s: string) { forall i :: 0 <= i < |s| ==> IsDigit(s[i]) }

  /** Digits and upper-case letters only: what every accepted format is made of. */
  predicate Plain(s: string) { forall i :: 0 <= i < |s| ==> IsDigit(s[i]) || IsLetter(s[i]) }

  /** Normalisation leaves a plain string alone. */
  lemma NormalizePlain(s: string)
    requires Plain(s)
    ensures Normalize(s) == s
  {
    UnchangedByNormalize(s);
  }

  // ---------------------------------------------------------------------------
  // What an edit of the raw value does to its normal form
  // ---------------------------------------------------------------------------

  function Before(s: string, k: nat): string
    requires k < |s|
  {
    Upper(StripLeft(s[..k]))
  }

  function After(s: string, k: nat): string
    requires k < |s|
  {
    Upper(StripRight(s[k + 1..]))
  }

  /** Where the visible character at k of the raw value lands in the normal form. */
  function Place(s: string, k: nat): nat
    requires k < |s|
  {
    |Before(s, k)|
  }

  lemma UpperShape(c: char)
    ensures UpperChar(c) != ""
    ensures |UpperChar(c)| > 1 ==> IsLetter(UpperChar(c)[0]) && IsLetter(UpperChar(c)[1])
  {
  }

  lemma UpperDigit(c: char)
    ensures IsDigit(c) ==> UpperChar(c) == [c] && !IsSpace(c)
    ensures IsDigit(UpperChar(c)[0]) ==> UpperChar(c) == [c]
  {
  }

  lemma UpperCons(c: char, rest: string)
    ensures Upper([c] + rest) == UpperChar(c) + Upper(rest)
  {
    assert ([c] + rest)[1..] == rest;
  }

  lemma {:induction false} UpperConcat(s: string, t: string)
    ensures Upper(s + t) == Upper(s) + Upper(t)
  {
    hide Upper, UpperChar;
    if s == "" {
      assert s + t == t;
      assert Upper("") == "" by { UpperEmpty(); }
    } else {
      var c, rest := s[0], s[1..];
      UpperConcat(rest, t);
      UpperCons(c, rest);
      UpperCons(c, rest + t);
      assert s == [c] + rest && s + t == [c] + (rest + t);
      assert UpperChar(c) + (Upper(rest) + Upper(t)) == UpperChar(c) + Upper(rest) + Upper(t);
    }
  }

  lemma UpperEmpty()
    ensures Upper("") == ""
  {
  }

  lemma {:induction false} StripLeftStops(s: string, t: string)
    requires t != "" && !IsSpace(t[0])
    ensures StripLeft(s + t) == StripLeft(s) + t
  {
    if s == "" {
      assert s + t == t;
    } else {
      StripLeftStops(s[1..], t);
      assert (s + t)[1..] == s[1..] + t;
    }
  }

  lemma {:induction false} StripRightStops(s: string, t: string)
    requires s != "" && !IsSpace(s[|s| - 1])
    ensures StripRight(s + t) == s + StripRight(t)
  {
    if t == "" {
      assert s + t == s;
    } else {
      StripRightStops(s, t[..|t| - 1]);
      assert (s + t)[..|s + t| - 1] == s + t[..|t| - 1];
    }
  }

  lemma NormalizeAround(s: string, k: nat)
    requires k < |s| && !IsSpace(s[k])
    ensures Normalize(s) == Before(s, k) + UpperChar(s[k]) + After(s, k)
  {
    var x, y := s[..k], s[k + 1..];
    assert s == x + ([s[k]] + y);
    StripLeftStops(x, [s[k]] + y);
    assert StripLeft(x) + ([s[k]] + y) == StripLeft(x) + [s[k]] + y;
    StripRightStops(StripLeft(x) + [s[k]], y);
    UpperConcat(StripLeft(x) + [s[k]], StripRight(y));
    UpperConcat(StripLeft(x), [s[k]]);
    assert Upper([s[k]]) == UpperChar(s[k]);
  }

  /** Replacing one visible character by another replaces its image in the normal form. */
  lemma EditSeen(s: string, k: nat, c: char)
    requires k < |s| && !IsSpace(s[k]) && !IsSpace(c)
    ensures Normalize(s) == Before(s, k) + UpperChar(s[k]) + After(s, k)
    ensures Normalize(s[k := c]) == Before(s, k) + UpperChar(c) + After(s, k)
  {
    NormalizeAround(s, k);
    NormalizeAround(s[k := c], k);
    assert s[k := c][..k] == s[..k] && s[k := c][k + 1..] == s[k + 1..];
  }

  lemma DigitSeen(s: string, k: nat, d: char)
    requires k < |s| && IsDigit(s[k]) && IsDigit(d)
    ensures Place(s, k) < |Normalize(s)| && Normalize(s)[Place(s, k)] == s[k]
    ensures Normalize(s[k := d]) == Normalize(s)[Place(s, k) := d]
  {
    hide UpperChar, IsSpace, Normalize, Before, After;
    UpperDigit(s[k]);
    UpperDigit(d);
    EditSeen(s, k, d);
  }

  /** Between two visible characters the normal form holds the upper-cased raw text. */
  lemma PlaceApart(s: string, k: nat, l: nat)
    requires k < l < |s| && !IsSpace(s[k])
    ensures Before(s, l) == Before(s, k) + Upper(s[k..l])
  {
    assert s[..l] == s[..k] + s[k..l];
    StripLeftStops(s[..k], s[k..l]);
    UpperConcat(StripLeft(s[..k]), s[k..l]);
  }

  lemma {:induction false} UpperGrows(s: string)
    ensures |Upper(s)| >= |s|
  {
    if s != "" { UpperGrows(s[1..]); }
  }

  lemma {:induction false} UpperOntoDigits(s: string)
    requires Digits(Upper(s))
    ensures Upper(s) == s
  {
    hide UpperChar;
    if s != "" {
      var head, rest := UpperChar(s[0]), Upper(s[1..]);
      UpperShape(s[0]);
      UpperDigit(s[0]);
      assert IsDigit(head[0]) by { assert head[0] == Upper(s)[0]; }
      assert Digits(rest) by {
        assert forall i :: 0 <= i < |rest| ==> rest[i] == Upper(s)[i + |head|];
      }
      UpperOntoDigits(s[1..]);
    }
  }

  predicate Swapped(s: string, t: string, i: nat, j: nat)
    requires i < |s| && j < |s|
  {
    t == s[i := s[j]][j := s[i]]
  }

  /** Exchanging two digits of the raw value exchanges them in the normal form. */
  lemma SwapSeen(s: string, k: nat, l: nat, u: string)
    requires k < l < |s| && IsDigit(s[k]) && IsDigit(s[l]) && Swapped(s, u, k, l)
    ensures Place(s, k) < Place(s, l) < |Normalize(s)|
    ensures Normalize(s)[Place(s, k)] == s[k] && Normalize(s)[Place(s, l)] == s[l]
    ensures Swapped(Normalize(s), Normalize(u), Place(s, k), Place(s, l))
  {
    var mid := s[k := s[l]];
    DigitSeen(s, k, s[l]);
    DigitSeen(s, l, s[l]);
    DigitSeen(mid, l, s[k]);
    PlaceApart(s, k, l);
    PlaceApart(mid, k, l);
    assert mid[..k] == s[..k];
    UpperGrows(s[k..l]);
    SamePlace(s[k..l], mid[k..l]);
  }

  lemma SamePlace(s: string, t: string)
    requires s != "" && IsDigit(s[0]) && t != "" && IsDigit(t[0]) && s[1..] == t[1..]
    ensures |Upper(s)| == |Upper(t)|
  {
    hide UpperChar;
    UpperDigit(s[0]);
    UpperDigit(t[0]);
  }

  // ---------------------------------------------------------------------------
  // Digits and numbers
  // ---------------------------------------------------------------------------

  function Val(c: char): (v: int)
    requires IsDigit(c)
    ensures 0 <= v <= 9
  {
    c as int - '0' as int
  }

  function DigitChar(v: int): (c: char)
    requires 0 <= v <= 9
    ensures IsDigit(c) && Val(c) == v
  {
    (v + '0' as int) as char
  }

  /** int(s) for a string of digits. */
  function Number(s: string): nat
    requires Digits(s)
  {
    NumberTo(s, |s|)
  }

  function NumberTo(s: string, n: nat): nat
    requires Digits(s) && n <= |s|
  {
    if n == 0 then 0 else 10 * NumberTo(s, n - 1) + Val(s[n - 1])
  }

  // ---------------------------------------------------------------------------
  // The validators, on normalised strings
  // ---------------------------------------------------------------------------

  const NIF_LETTERS := "TRWAGMYFPDXBNJZSQVHLCKE"

  predicate NifAccepts(v: string) {
    && |v| == 9 && Digits(v[..8]) && IsLetter(v[8])
    && v[8] == NIF_LETTERS[Number(v[..8]) % 23]
  }

  function NiePrefix(c: char): char
    requires c in "XYZ"
  {
    if c == 'X' then '0' else if c == 'Y' then '1' else '2'
  }

  predicate NieFormat(v: string) {
    |v| == 9 && v[0] in "XYZ" && Digits(v[1..8]) && IsLetter(v[8])
  }

  predicate NieAccepts(v: string) {
    && NieFormat(v)
    && var numeric := [NiePrefix(v[0])] + v[1..8];
       v[8] == NIF_LETTERS[Number(numeric) % 23]
  }

  const CIF_LEADING := "ABCDEFGHJNPQRSUVW"
  const CIF_LETTER_CONTROL := "ABEH"
  const CIF_DIGIT_CONTROL := "CDGJUVW"
  const CIF_EITHER_CONTROL := "FNPQRS"
  const CIF_CONTROL_LETTERS := "JABCDEFGHI"

  /** doubled // 10 + doubled % 10, which casts out nines. */
  function DoubledDigitSum(d: int): (r: int)
    requires 0 <= d <= 9
    ensures r == if d < 5 then 2 * d else 2 * d - 9
  {
    (2 * d) / 10 + (2 * d) % 10
  }

  /** What one digit adds to the CIF total: itself at even indices, its doubled digit sum at odd ones. */
  function Contribution(i: nat, d: int): (r: int)
    requires 0 <= d <= 9
    ensures 0 <= r <= 9
  {
    if i % 2 == 0 then d else DoubledDigitSum(d)
  }

  function CifTotal(seven: string): int
    requires |seven| == 7 && Digits(seven)
  {
    Contribution(0, Val(seven[0])) + Contribution(1, Val(seven[1])) + Contribution(2, Val(seven[2]))
    + Contribution(3, Val(seven[3])) + Contribution(4, Val(seven[4])) + Contribution(5, Val(seven[5]))
    + Contribution(6, Val(seven[6]))
  }

  function CheckDigit(total: int): (check: int)
    ensures 0 <= check <= 9
  {
    (10 - total % 10) % 10
  }

  predicate CifFormat(v: string) {
    && |v| == 9 && v[0] in CIF_LEADING && Digits(v[1..8])
    && (IsDigit(v[8]) || 'A' <= v[8] <= 'J')
  }

  /** Does the control character match the computed check, for this leading letter? */
  predicate ControlAccepted(leading: char, control: char, check: int)
    requires 0 <= check <= 9
  {
    if leading in CIF_LETTER_CONTROL then control == CIF_CONTROL_LETTERS[check]
    else if leading in CIF_DIGIT_CONTROL then control == DigitChar(check)
    else control == CIF_CONTROL_LETTERS[check] || control == DigitChar(check)
  }

  predicate CifAccepts(v: string) {
    && CifFormat(v)
    && ControlAccepted(v[0], v[8], CheckDigit(CifTotal(v[1..8])))
  }

  predicate VatAccepts(v: string) {
    && 4 <= |v| <= 14 && IsLetter(v[0]) && IsLetter(v[1])
    && forall i :: 2 <= i < |v| ==> IsDigit(v[i]) || IsLetter(v[i])
  }

  datatype TaxIdType = NIF | CIF | NIE | VAT

  /** The _TAX_VALIDATORS dispatch on a raw value. */
  predicate Valid(t: TaxIdType, value: string) {
    var v := Normalize(value);
    match t
    case NIF => NifAccepts(v)
    case CIF => CifAccepts(v)
    case NIE => NieAccepts(v)
    case VAT => VatAccepts(v)
  }

  /** _cif_check_digit, with its accumulating loop. */
  method CifCheckDigit(seven: string) returns (check: int, letter: char)
    requires |seven| == 7 && Digits(seven)
    ensures check == CheckDigit(CifTotal(seven))
    ensures letter == CIF_CONTROL_LETTERS[check]
  {
    var oddSum := Val(seven[0]) + Val(seven[2]) + Val(seven[4]) + Val(seven[6]);
    var evenSum := 0;
    for k := 0 to 3
      invariant evenSum == (if k > 0 then Contribution(1, Val(seven[1])) else 0)
                           + (if k > 1 then Contribution(3, Val(seven[3])) else 0)
                           + (if k > 2 then Contribution(5, Val(seven[5])) else 0)
    {
      var doubled := Val(seven[2 * k + 1]) * 2;
      evenSum := evenSum + doubled / 10 + doubled % 10;
    }
    var total := oddSum + evenSum;
    check := (10 - total % 10) % 10;
    letter := CIF_CONTROL_LETTERS[check];
  }

  // ---------------------------------------------------------------------------
  // NIF: mod-23 error detection
  // ---------------------------------------------------------------------------

  /** 10^(7-i) mod 23: the weight of digit i of eight in the mod-23 check. */
  function Weight(i: nat): int
    requires i < 8
  {
    if i < 4 then (if i == 0 then 14 else if i == 1 then 6 else if i == 2 then 19 else 18)
    else if i == 4 then 11 else if i == 5 then 8 else if i == 6 then 10 else 1
  }

  function Weighted(s: string): int
    requires |s| == 8 && Digits(s)
  {
    14 * Val(s[0]) + 6 * Val(s[1]) + 19 * Val(s[2]) + 18 * Val(s[3])
    + 11 * Val(s[4]) + 8 * Val(s[5]) + 10 * Val(s[6]) + Val(s[7])
  }

  lemma NumberIsWeighted(s: string)
    requires |s| == 8 && Digits(s)
    ensures Number(s) % 23 == Weighted(s) % 23
  {
    var n2 := 10 * Val(s[0]) + Val(s[1]);
    assert NumberTo(s, 1) == Val(s[0]);
    assert NumberTo(s, 2) == n2;
    var n4 := 10 * (10 * n2 + Val(s[2])) + Val(s[3]);
    assert NumberTo(s, 4) == n4;
    var n6 := 10 * (10 * n4 + Val(s[4])) + Val(s[5]);
    assert NumberTo(s, 6) == n6;
    assert NumberTo(s, 8) == 10 * (10 * n6 + Val(s[6])) + Val(s[7]);
    PowersOfTenMod23(Val(s[0]), Val(s[1]), Val(s[2]), Val(s[3]), Val(s[4]), Val(s[5]), Val(s[6]), Val(s[7]), Number(s));
  }

  lemma PowersOfTenMod23(a: int, b: int, c: int, d: int, e: int, f: int, g: int, h: int, n: int)
    requires n == 10 * (10 * (10 * (10 * (10 * (10 * (10 * a + b) + c) + d) + e) + f) + g) + h
    ensures n % 23 == (14 * a + 6 * b + 19 * c + 18 * d + 11 * e + 8 * f + 10 * g + h) % 23
  {
    var k := 434782 * a + 43478 * b + 4347 * c + 434 * d + 43 * e + 4 * f;
    AddMultiple(14 * a + 6 * b + 19 * c + 18 * d + 11 * e + 8 * f + 10 * g + h, k);
  }

  lemma AddMultiple(x: int, k: int)
    ensures (x + 23 * k) % 23 == x % 23
  {
  }

  /** 23 is prime: a product of two non-multiples below it is no multiple of it. */
  lemma NoMultipleOf23(a: int, w: int)
    requires 1 <= a <= 9 && (1 <= w <= 22 || -22 <= w <= -1)
    ensures (a * w) % 23 != 0
  {
    assert a == 1 || a == 2 || a == 3 || a == 4 || a == 5 || a == 6 || a == 7 || a == 8 || a == 9;
  }

  lemma SameResidue(x: int, y: int)
    ensures x % 23 == y % 23 ==> (x - y) % 23 == 0
  {
    if x % 23 == y % 23 {
      AddMultiple(0, x / 23 - y / 23);
    }
  }

  lemma DifferentResidues(x: int, y: int, a: int, w: int)
    requires x - y == a * w && a != 0 && -9 <= a <= 9 && w != 0 && -22 <= w <= 22
    ensures x % 23 != y % 23
  {
    if a > 0 { NoMultipleOf23(a, w); } else { NoMultipleOf23(-a, -w); assert (-a) * (-w) == a * w; }
    SameResidue(x, y);
  }

  lemma LettersDistinct(i: nat, j: nat)
    requires i < 23 && j < 23 && NIF_LETTERS[i] == NIF_LETTERS[j]
    ensures i == j
  {
  }

  lemma SubstitutionWeighted(s: string, i: nat, d: char)
    requires |s| == 8 && Digits(s) && i < 8 && IsDigit(d)
    ensures Digits(s[i := d])
    ensures Weighted(s[i := d]) - Weighted(s) == (Val(d) - Val(s[i])) * Weight(i)
  {
  }

  lemma LetterMismatch(v: string, u: string)
    requires |v| == 9 && |u| == 9 && u[8] == v[8] && Digits(v[..8]) && Digits(u[..8]) && NifAccepts(v)
    requires Weighted(v[..8]) % 23 != Weighted(u[..8]) % 23
    ensures !NifAccepts(u)
  {
    NumberIsWeighted(v[..8]);
    NumberIsWeighted(u[..8]);
    if NifAccepts(u) {
      LettersDistinct(Number(v[..8]) % 23, Number(u[..8]) % 23);
      assert false;
    }
  }

  predicate NifFormat(v: string) {
    |v| == 9 && Digits(v[..8]) && IsLetter(v[8])
  }

  lemma NifSubstitutionRejected(v: string, i: nat, d: char)
    requires NifAccepts(v) && i < 8 && IsDigit(d) && d != v[i]
    ensures !NifAccepts(v[i := d])
  {
    var s := v[..8];
    assert v[i := d][..8] == s[i := d];
    SubstitutionWeighted(s, i, d);
    DifferentResidues(Weighted(s[i := d]), Weighted(s), Val(d) - Val(s[i]), Weight(i));
    LetterMismatch(v, v[i := d]);
  }

  lemma TransposedResidue(s: string, i: nat, j: nat, t: string)
    requires |s| == 8 && Digits(s) && i < j < 8 && s[i] != s[j] && Swapped(s, t, i, j)
    ensures Digits(t)
    ensures Weighted(t) % 23 != Weighted(s) % 23
  {
    hide Weighted, Weight;
    SubstitutionWeighted(s, i, s[j]);
    SubstitutionWeighted(s[i := s[j]], j, s[i]);
    WeightsDistinct(i, j);
    TwoSubstitutions(Weighted(s), Weighted(s[i := s[j]]), Weighted(t), Val(s[j]), Val(s[i]), Weight(i), Weight(j));
  }

  lemma NifTranspositionRejected(v: string, i: nat, j: nat, u: string)
    requires NifAccepts(v) && i < j < 8 && v[i] != v[j] && Swapped(v, u, i, j)
    ensures NifFormat(u) && !NifAccepts(u)
  {
    assert Swapped(v[..8], u[..8], i, j);
    TransposedResidue(v[..8], i, j, u[..8]);
    LetterMismatch(v, u);
  }

  /** The letter of an accepted NIF, from its digits: each weighs its power of ten mod 23, and the sum picks the letter. */
  lemma NifLetter(v: string)
    requires NifFormat(v)
    ensures NifAccepts(v)
            <==> v[8] == "TRWAGMYFPDXBNJZSQVHLCKE"[(14 * Val(v[..8][0]) + 6 * Val(v[..8][1]) + 19 * Val(v[..8][2]) + 18 * Val(v[..8][3])
                                                    + 11 * Val(v[..8][4]) + 8 * Val(v[..8][5]) + 10 * Val(v[..8][6]) + Val(v[..8][7])) % 23]
  {
    NumberIsWeighted(v[..8]);
    assert NIF_LETTERS == "TRWAGMYFPDXBNJZSQVHLCKE";
    hide NIF_LETTERS, Number;
  }

  /** Two accepted NIFs that differ at most in the image of one character are the same. */
  lemma NifTypo(b: string, p: string, a: string, q: string)
    requires NifAccepts(b + p + a) && NifAccepts(b + q + a) && p != "" && q != ""
    requires |p| > 1 ==> IsLetter(p[0])
    ensures p == q
  {
    var v, u, i := b + p + a, b + q + a, |b|;
    assert |p| == |q| && v[i] == p[0] && u[i] == q[0];
    if i < 8 {
      assert v[..8][i] == v[i] && u[..8][i] == u[i];
      assert p == [p[0]] && q == [q[0]] && u == v[i := q[0]];
      if p[0] != q[0] {
        NifSubstitutionRejected(v, i, q[0]);
      }
    } else {
      assert v[..8] == u[..8] && p == [v[8]] && q == [u[8]];
    }
  }

  /** Mistyping any one visible character of an accepted NIF, digit or letter, is always detected. */
  lemma NifDetectsSubstitution(s: string, k: nat, c: char)
    requires Valid(NIF, s) && k < |s| && !IsSpace(s[k]) && !IsSpace(c) && UpperChar(c) != UpperChar(s[k])
    ensures !Valid(NIF, s[k := c])
  {
    hide UpperChar, Normalize, Before, After, NifAccepts;
    EditSeen(s, k, c);
    UpperShape(s[k]);
    UpperShape(c);
    if Valid(NIF, s[k := c]) {
      NifTypo(Before(s, k), UpperChar(s[k]), After(s, k), UpperChar(c));
    }
  }

  lemma NifDigitPlaces(v: string, i: nat, j: nat)
    requires NifAccepts(v) && i < j < |v| && IsDigit(v[i]) && IsDigit(v[j])
    ensures i < j < 8
  {
  }

  /** Exchanging any two distinct digits of an accepted NIF, adjacent or not, is always detected. */
  lemma NifDetectsTransposition(s: string, k: nat, l: nat, u: string)
    requires Valid(NIF, s) && k < l < |s| && IsDigit(s[k]) && IsDigit(s[l]) && s[k] != s[l] && Swapped(s, u, k, l)
    ensures !Valid(NIF, u)
  {
    hide Normalize, Before, NifAccepts;
    SwapSeen(s, k, l, u);
    NifDigitPlaces(Normalize(s), Place(s, k), Place(s, l));
    NifTranspositionRejected(Normalize(s), Place(s, k), Place(s, l), Normalize(u));
  }

  lemma WeightsDistinct(i: nat, j: nat)
    requires i < j < 8
    ensures Weight(i) != Weight(j) && -22 <= Weight(i) - Weight(j) <= 22
  {
  }

  lemma TwoSubstitutions(before: int, mid: int, after: int, x: int, y: int, p: int, q: int)
    requires mid - before == (x - y) * p && after - mid == (y - x) * q
    requires 0 <= x <= 9 && 0 <= y <= 9 && x != y && p != q && -22 <= p - q <= 22
    ensures after % 23 != before % 23
  {
    Factor(x, y, p, q);
    DifferentResidues(after, before, x - y, p - q);
  }

  lemma Factor(x: int, y: int, p: int, q: int)
    ensures (x - y) * p + (y - x) * q == (x - y) * (p - q)
  {
  }

  /** Every accepted NIF in normal form has another spelling, with a small letter. */
  lemma SmallLetter(v: string)
    requires NifAccepts(v)
    ensures var t := v[8 := (v[8] as int + 32) as char]; t != v && Valid(NIF, v) && Normalize(t) == Normalize(v)
  {
    hide NifAccepts, Plain, Normalize, Before, After;
    NifIsPlain(v);
    NormalizePlain(v);
    EditSeen(v, 8, (v[8] as int + 32) as char);
  }

  lemma NifIsPlain(v: string)
    requires NifAccepts(v)
    ensures Plain(v) && |v| == 9 && IsLetter(v[8])
  {
    assert forall i :: 0 <= i < 8 ==> v[i] == v[..8][i];
  }

  lemma SampleNif()
    ensures NifAccepts("12345678Z")
  {
    assert "12345678Z"[..8] == "12345678";
    NumberIsWeighted("12345678");
    assert Weighted("12345678") == 336;
  }

  // ---------------------------------------------------------------------------
  // NIE
  // ---------------------------------------------------------------------------

  /** The NIF that an NIE stands for: X, Y, Z become 0, 1, 2. */
  function AsNif(v: string): string
    requires NieFormat(v)
  {
    v[0 := NiePrefix(v[0])]
  }

  lemma NieAsNif(v: string)
    requires NieFormat(v)
    ensures NifFormat(AsNif(v)) && Plain(AsNif(v))
    ensures NieAccepts(v) <==> NifAccepts(AsNif(v))
  {
    var u := AsNif(v);
    assert u[..8] == [NiePrefix(v[0])] + v[1..8];
    assert forall i :: 0 <= i < 8 ==> u[i] == u[..8][i];
  }

  /** An NIE is accepted exactly when its string with 0, 1 or 2 for the leading X, Y or Z is an accepted NIF. */
  lemma NieIffNif(s: string)
    ensures var v := Normalize(s);
            Valid(NIE, s) <==> NieFormat(v) && Valid(NIF, (if v[0] == 'X' then "0" else if v[0] == 'Y' then "1" else "2") + v[1..])
  {
    var v := Normalize(s);
    if NieFormat(v) {
      NieAsNif(v);
      NormalizePlain(AsNif(v));
      assert AsNif(v) == [NiePrefix(v[0])] + v[1..];
    }
  }

  /** Changing v before its control letter, keeping the format, changes the NIF it stands for likewise. */
  lemma AsNifUpdate(v: string, u: string, i: nat)
    requires NieFormat(v) && |u| == 9 && i < 8 && u == v[i := u[i]]
    requires if i == 0 then u[i] in "XYZ" else IsDigit(u[i])
    ensures NieFormat(u)
    ensures AsNif(u) == AsNif(v)[i := if i == 0 then NiePrefix(u[0]) else u[i]]
    ensures u[i] != v[i] ==> AsNif(u)[i] != AsNif(v)[i]
  {
    assert u[1..8] == if i == 0 then v[1..8] else v[1..8][i - 1 := u[i]];
  }

  lemma NieSubstitutionRejected(v: string, i: nat, c: char)
    requires NieAccepts(v) && i < 8 && c != v[i] && NieFormat(v[i := c])
    ensures !NieAccepts(v[i := c])
  {
    var u := v[i := c];
    assert i > 0 ==> IsDigit(u[1..8][i - 1]);
    AsNifUpdate(v, u, i);
    NieAsNif(v);
    NieAsNif(u);
    NifSubstitutionRejected(AsNif(v), i, AsNif(u)[i]);
  }

  /** The same for the places of an NIE: prefix, digits and control letter. */
  lemma NieTypo(b: string, p: string, a: string, q: string)
    requires NieAccepts(b + p + a) && NieAccepts(b + q + a) && p != "" && q != ""
    requires |p| > 1 ==> IsLetter(p[0]) && IsLetter(p[1])
    ensures p == q
  {
    var v, u, i := b + p + a, b + q + a, |b|;
    assert |p| == |q| && v[i] == p[0] && u[i] == q[0];
    assert |p| > 1 ==> v[i + 1] == p[1];
    assert forall m :: 1 <= m < 8 ==> v[m] == v[1..8][m - 1];
    assert p == [v[i]] && q == [u[i]] && u == v[i := u[i]];
    if i < 8 {
      if u[i] != v[i] {
        NieSubstitutionRejected(v, i, u[i]);
      }
    } else {
      assert v[0] == u[0] && v[1..8] == u[1..8];
    }
  }

  /** Mistyping any one visible character of an accepted NIE, prefix letter included, is always detected. */
  lemma NieDetectsSubstitution(s: string, k: nat, c: char)
    requires Valid(NIE, s) && k < |s| && !IsSpace(s[k]) && !IsSpace(c) && UpperChar(c) != UpperChar(s[k])
    ensures !Valid(NIE, s[k := c])
  {
    hide UpperChar, Normalize, Before, After, NieAccepts;
    EditSeen(s, k, c);
    UpperShape(s[k]);
    UpperShape(c);
    if Valid(NIE, s[k := c]) {
      NieTypo(Before(s, k), UpperChar(s[k]), After(s, k), UpperChar(c));
    }
  }

  lemma NieTranspositionRejected(v: string, i: nat, j: nat, u: string)
    requires NieAccepts(v) && 1 <= i < j < 8 && v[i] != v[j] && Swapped(v, u, i, j)
    ensures !NieAccepts(u)
  {
    NieDigit(v, i);
    NieDigit(v, j);
    AsNifUpdate(v, v[i := v[j]], i);
    AsNifUpdate(v[i := v[j]], u, j);
    NieAsNif(v);
    NieAsNif(u);
    NifTranspositionRejected(AsNif(v), i, j, AsNif(u));
  }

  lemma NieDigitPlaces(v: string, i: nat, j: nat)
    requires NieAccepts(v) && i < j < |v| && IsDigit(v[i]) && IsDigit(v[j])
    ensures 1 <= i < j < 8
  {
  }

  /** Exchanging any two distinct digits of an accepted NIE is always detected. */
  lemma NieDetectsTransposition(s: string, k: nat, l: nat, u: string)
    requires Valid(NIE, s) && k < l < |s| && IsDigit(s[k]) && IsDigit(s[l]) && s[k] != s[l] && Swapped(s, u, k, l)
    ensures !Valid(NIE, u)
  {
    hide Normalize, Before, NieAccepts;
    SwapSeen(s, k, l, u);
    NieDigitPlaces(Normalize(s), Place(s, k), Place(s, l));
    NieTranspositionRejected(Normalize(s), Place(s, k), Place(s, l), Normalize(u));
  }

  lemma NieDigit(v: string, k: nat)
    requires NieFormat(v) && 1 <= k < 8
    ensures IsDigit(v[k]) && AsNif(v)[k] == v[k]
  {
    assert v[k] == v[1..8][k - 1];
  }

  // ---------------------------------------------------------------------------
  // CIF
  // ---------------------------------------------------------------------------

  lemma ContributionInjective(i: nat, x: int, y: int)
    requires 0 <= x <= 9 && 0 <= y <= 9 && x != y
    ensures Contribution(i, x) != Contribution(i, y)
  {
  }

  /** The control character pins the check digit down: two totals it accepts agree mod 10. */
  lemma ControlPinsTotal(leading: char, control: char, x: int, y: int)
    requires leading in CIF_LEADING
    requires ControlAccepted(leading, control, CheckDigit(x))
    ensures ControlAccepted(leading, control, CheckDigit(y)) <==> x % 10 == y % 10
  {
    var p, q := CheckDigit(x), CheckDigit(y);
    assert p == q <==> x % 10 == y % 10;
    if p != q {
      assert CIF_CONTROL_LETTERS[p] != CIF_CONTROL_LETTERS[q];
      assert !IsDigit(CIF_CONTROL_LETTERS[p]) && !IsDigit(CIF_CONTROL_LETTERS[q]);
      assert Val(DigitChar(p)) != Val(DigitChar(q));
    }
  }

  lemma SubstitutionTotal(s: string, i: nat, d: char)
    requires |s| == 7 && Digits(s) && i < 7 && IsDigit(d)
    ensures Digits(s[i := d])
    ensures CifTotal(s[i := d]) - CifTotal(s) == Contribution(i, Val(d)) - Contribution(i, Val(s[i]))
  {
  }

  /** Under the same leading letter and control, acceptance turns on the total mod 10 alone. */
  lemma TotalsDecide(v: string, u: string, t: string)
    requires CifAccepts(v) && |u| == 9 && u[0] == v[0] && u[8] == v[8]
    requires u[1..8] == t && |t| == 7 && Digits(t)
    ensures CifFormat(u)
    ensures CifAccepts(u) <==> CifTotal(v[1..8]) % 10 == CifTotal(t) % 10
  {
    ControlPinsTotal(v[0], v[8], CifTotal(v[1..8]), CifTotal(t));
  }

  lemma SubstitutionChangesTotal(s: string, i: nat, d: char)
    requires |s| == 7 && Digits(s) && i < 7 && IsDigit(d) && d != s[i]
    ensures Digits(s[i := d])
    ensures CifTotal(s) % 10 != CifTotal(s[i := d]) % 10
  {
    SubstitutionTotal(s, i, d);
    ContributionInjective(i, Val(s[i]), Val(d));
    Congruent(CifTotal(s[i := d]), CifTotal(s));
    SmallMultiple(Contribution(i, Val(d)) - Contribution(i, Val(s[i])));
  }

  lemma CifSubstitutionRejected(v: string, i: nat, d: char)
    requires CifAccepts(v) && 1 <= i < 8 && IsDigit(d) && d != v[i]
    ensures CifFormat(v[i := d]) && !CifAccepts(v[i := d])
  {
    var s := v[1..8];
    SubstitutionChangesTotal(s, i - 1, d);
    assert v[i := d][1..8] == s[i - 1 := d];
    TotalsDecide(v, v[i := d], s[i - 1 := d]);
  }

  lemma CifControlDigitRejected(v: string, d: char)
    requires CifAccepts(v) && IsDigit(v[8]) && IsDigit(d) && d != v[8]
    ensures !CifAccepts(v[8 := d])
  {
    var u, check := v[8 := d], CheckDigit(CifTotal(v[1..8]));
    assert u[1..8] == v[1..8];
    assert !IsDigit(CIF_CONTROL_LETTERS[check]);
  }

  /** Changing any one digit of an accepted CIF, one of the seven or a control digit, is always detected. */
  lemma CifDetectsSubstitution(s: string, k: nat, d: char)
    requires Valid(CIF, s) && k < |s| && IsDigit(s[k]) && IsDigit(d) && d != s[k]
    ensures !Valid(CIF, s[k := d])
  {
    hide CifTotal, CheckDigit, ControlAccepted;
    var v, i := Normalize(s), Place(s, k);
    DigitSeen(s, k, d);
    assert i != 0;
    if i < 8 {
      CifSubstitutionRejected(v, i, d);
    } else {
      CifControlDigitRejected(v, d);
    }
  }

  /** What an even place of a CIF counts for: the digits of its double. */
  function DoubleDigits(d: int): int
    requires 0 <= d <= 9
  {
    2 * d / 10 + 2 * d % 10
  }

  /** The check digit of a CIF, from its seven digits: what the odd places and the doubled even ones lack to a multiple of ten. */
  function CifCheck(seven: string): (check: int)
    requires |seven| == 7 && Digits(seven)
    ensures 0 <= check <= 9
  {
    (100 - Val(seven[0]) - Val(seven[2]) - Val(seven[4]) - Val(seven[6])
     - DoubleDigits(Val(seven[1])) - DoubleDigits(Val(seven[3])) - DoubleDigits(Val(seven[5]))) % 10
  }

  /** The control character of an accepted CIF is that digit, or the letter the table gives it, or either, by the leading letter. */
  lemma CifControlMeans(v: string)
    requires CifFormat(v)
    ensures CifAccepts(v)
            <==> var check := CifCheck(v[1..8]);
                 (v[0] !in "CDGJUVW" && v[8] == "JABCDEFGHI"[check]) || (v[0] !in "ABEH" && v[8] == "0123456789"[check])
  {
    CheckOfTotal(v[1..8]);
    LeadingClasses(v[0]);
    DigitOf(CifCheck(v[1..8]));
    LettersOfTable();
    hide CifTotal, CheckDigit, CifCheck, CIF_CONTROL_LETTERS;
  }

  lemma CheckOfTotal(seven: string)
    requires |seven| == 7 && Digits(seven)
    ensures CifCheck(seven) == CheckDigit(CifTotal(seven))
  {
    DoubleIsCast(Val(seven[1]));
    DoubleIsCast(Val(seven[3]));
    DoubleIsCast(Val(seven[5]));
    hide DoubleDigits, DoubledDigitSum, Val;
    var total := CifTotal(seven);
    assert CifCheck(seven) == (100 - total) % 10;
    hide CifTotal, CifCheck;
    LackToTen(total);
  }

  lemma DoubleIsCast(d: int)
    requires 0 <= d <= 9
    ensures DoubleDigits(d) == DoubledDigitSum(d)
  {
  }

  lemma LackToTen(total: int)
    ensures (100 - total) % 10 == CheckDigit(total)
  {
  }

  lemma LettersOfTable()
    ensures CIF_CONTROL_LETTERS == "JABCDEFGHI"
  {
  }

  lemma DigitOf(check: int)
    requires 0 <= check <= 9
    ensures DigitChar(check) == "0123456789"[check]
  {
  }

  /** How far the doubled digit sum runs ahead of the digit itself, mod 10: only 0 and 9 tie. */
  lemma DoublingGap(x: int, y: int)
    requires 0 <= x <= 9 && 0 <= y <= 9 && x != y
    ensures (DoubledDigitSum(x) - x - (DoubledDigitSum(y) - y)) % 10 == 0 <==> (x == 0 && y == 9) || (x == 9 && y == 0)
  {
    var gx := if x < 5 then x else x - 9;
    var gy := if y < 5 then y else y - 9;
    assert DoubledDigitSum(x) - x == gx && DoubledDigitSum(y) - y == gy;
    SmallMultiple(gx - gy);
  }

  lemma SmallMultiple(g: int)
    requires -9 <= g <= 9
    ensures g % 10 == 0 <==> g == 0
  {
  }

  lemma SwapTotal(i: nat, j: nat, x: int, y: int, before: int, after: int)
    requires 0 <= x <= 9 && 0 <= y <= 9 && x != y
    requires after - before == Contribution(i, y) - Contribution(i, x) + Contribution(j, x) - Contribution(j, y)
    ensures before % 10 == after % 10 <==> i % 2 == j % 2 || (x == 0 && y == 9) || (x == 9 && y == 0)
  {
    DoublingGap(x, y);
    DoublingGap(y, x);
    Congruent(after, before);
    if i % 2 == j % 2 {
      assert after == before;
    } else if i % 2 == 0 {
      assert after - before == DoubledDigitSum(x) - x - (DoubledDigitSum(y) - y);
    } else {
      assert after - before == DoubledDigitSum(y) - y - (DoubledDigitSum(x) - x);
    }
  }

  lemma Congruent(x: int, y: int)
    ensures x % 10 == y % 10 <==> (x - y) % 10 == 0
  {
  }

  /** Which exchanges of digits at positions i and j the CIF check cannot see. */
  predicate InvisibleSwap(i: nat, j: nat, x: char, y: char) {
    i % 2 == j % 2 || (x == '0' && y == '9') || (x == '9' && y == '0')
  }

  lemma TransposedTotal(s: string, i: nat, j: nat, t: string)
    requires |s| == 7 && Digits(s) && i < j < 7 && s[i] != s[j] && Swapped(s, t, i, j)
    ensures Digits(t)
    ensures CifTotal(s) % 10 == CifTotal(t) % 10
            <==> i % 2 == j % 2 || (Val(s[i]) == 0 && Val(s[j]) == 9) || (Val(s[i]) == 9 && Val(s[j]) == 0)
  {
    SubstitutionTotal(s, i, s[j]);
    SubstitutionTotal(s[i := s[j]], j, s[i]);
    SwapTotal(i, j, Val(s[i]), Val(s[j]), CifTotal(s), CifTotal(t));
  }

  lemma CifSwapDecided(v: string, i: nat, j: nat, u: string)
    requires CifAccepts(v) && 1 <= i < j < 8 && v[i] != v[j] && Swapped(v, u, i, j)
    ensures CifFormat(u)
    ensures CifAccepts(u) <==> InvisibleSwap(i, j, v[i], v[j])
  {
    var s, t := v[1..8], u[1..8];
    assert Swapped(s, t, i - 1, j - 1);
    TransposedTotal(s, i - 1, j - 1, t);
    TotalsDecide(v, u, t);
    SwapParity(i, j, s[i - 1], s[j - 1]);
  }

  lemma SwapParity(i: nat, j: nat, x: char, y: char)
    requires 1 <= i && 1 <= j && IsDigit(x) && IsDigit(y)
    ensures InvisibleSwap(i, j, x, y)
            <==> (i - 1) % 2 == (j - 1) % 2 || (Val(x) == 0 && Val(y) == 9) || (Val(x) == 9 && Val(y) == 0)
  {
  }

  /** Inside the seven digits, raw positions and places differ by a constant. */
  lemma DigitsApart(s: string, k: nat, l: nat)
    requires CifFormat(Normalize(s)) && k < l < |s| && !IsSpace(s[k]) && !IsSpace(s[l])
    requires 1 <= Place(s, k) && Place(s, l) <= 8
    ensures Place(s, l) - Place(s, k) == l - k
  {
    hide CifFormat, Normalize, Before, After, Upper, UpperChar, IsSpace;
    var v := Normalize(s);
    var between := Upper(s[k..l]);
    PlaceApart(s, k, l);
    NormalizeAround(s, l);
    StretchDigits(v, Before(s, k), between, UpperChar(s[l]) + After(s, l));
    UpperOntoDigits(s[k..l]);
  }

  lemma StretchDigits(v: string, x: string, between: string, y: string)
    requires CifFormat(v) && v == x + between + y && 1 <= |x| && |x| + |between| <= 8
    ensures Digits(between)
  {
    forall m | 0 <= m < |between|
      ensures IsDigit(between[m])
    {
      assert between[m] == v[|x| + m] && v[|x| + m] == v[1..8][|x| + m - 1];
    }
  }

  /**
  Exchanging two distinct digits among the seven of an accepted CIF, adjacent or not, leaves it
  accepted exactly when an even number of places separates them or they are a 0 and a 9.
  For adjacent positions only the {0, 9} case remains.
  */
  lemma CifTransposition(s: string, k: nat, l: nat, u: string)
    requires Valid(CIF, s) && k < l < |s| && IsDigit(s[k]) && IsDigit(s[l]) && s[k] != s[l] && Swapped(s, u, k, l)
    requires Place(s, l) < 8
    ensures Valid(CIF, u) <==> InvisibleSwap(k, l, s[k], s[l])
  {
    hide CifFormat, ControlAccepted, CifTotal, Normalize, Before, InvisibleSwap;
    var v, i, j := Normalize(s), Place(s, k), Place(s, l);
    SwapSeen(s, k, l, u);
    LeadingIsNoDigit(v);
    CifSwapDecided(v, i, j, Normalize(u));
    DigitsApart(s, k, l);
    SameGap(i, j, k, l, s[k], s[l]);
  }

  lemma LeadingIsNoDigit(v: string)
    requires CifFormat(v)
    ensures !IsDigit(v[0])
  {
  }

  lemma SameGap(i: nat, j: nat, k: nat, l: nat, x: char, y: char)
    requires j - i == l - k
    ensures InvisibleSwap(i, j, x, y) == InvisibleSwap(k, l, x, y)
  {
  }

  /** Two accepted CIFs that differ by an exchange the check does not see: 1 and 2, two places apart. */
  lemma UnseenExchange()
    ensures Valid(CIF, "A1020000G") && Valid(CIF, "A2010000G")
  {
    SampleTotals();
    assert Completed('A', "1020000", 'G') == "A1020000G" && Completed('A', "2010000", 'G') == "A2010000G";
    hide Valid, Completed, Digits, CifTotal;
    SampleCif("1020000", 3, 'G');
    SampleCif("2010000", 3, 'G');
  }

  lemma SampleTotals()
    ensures Digits("1020000") && CifTotal("1020000") == 3 && Digits("2010000") && CifTotal("2010000") == 3
  {
  }

  /** And two that differ by a neighbouring 0 and 9. */
  lemma UnseenNeighbours()
    ensures Valid(CIF, "A0900000A") && Valid(CIF, "A9000000A")
  {
    SampleNines();
    assert Completed('A', "0900000", 'A') == "A0900000A" && Completed('A', "9000000", 'A') == "A9000000A";
    hide Valid, Completed, Digits, CifTotal;
    SampleCif("0900000", 9, 'A');
    SampleCif("9000000", 9, 'A');
  }

  lemma SampleNines()
    ensures Digits("0900000") && CifTotal("0900000") == 9 && Digits("9000000") && CifTotal("9000000") == 9
  {
  }

  lemma SampleCif(seven: string, total: int, control: char)
    requires |seven| == 7 && Digits(seven) && CifTotal(seven) == total
    requires 'A' <= control <= 'J' && control == CIF_CONTROL_LETTERS[CheckDigit(total)]
    ensures Valid(CIF, Completed('A', seven, control))
  {
    hide Valid, CifTotal, Digits, Completed, CheckDigit;
    assert ControlAccepted('A', control, CheckDigit(total));
    ControlCompletes('A', seven, control);
  }

  function Completed(leading: char, seven: string, c: char): string {
    [leading] + seven + [c]
  }

  /** The characters that complete a leading letter and seven digits to an accepted CIF. */
  ghost function Controls(leading: char, seven: string): set<char> {
    set c: char | '0' <= c <= 'Z' && Valid(CIF, Completed(leading, seven, c))
  }

  /** Two control characters complete a body with an either-form leading letter; one completes any other. */
  lemma CifControls(leading: char, seven: string)
    requires leading in CIF_LEADING && |seven| == 7 && Digits(seven)
    ensures |Controls(leading, seven)| == if leading in CIF_EITHER_CONTROL then 2 else 1
  {
    var check := CheckDigit(CifTotal(seven));
    var accepted := set c: char | '0' <= c <= 'Z' && ControlAccepted(leading, c, check);
    forall c: char
      ensures c in Controls(leading, seven) <==> c in accepted
    {
      if '0' <= c <= 'Z' { ControlCompletes(leading, seven, c); }
    }
    assert Controls(leading, seven) == accepted;
    AcceptedControls(leading, check, accepted);
  }

  lemma LeadingClasses(leading: char)
    requires leading in CIF_LEADING
    ensures leading in CIF_EITHER_CONTROL <==> leading !in CIF_LETTER_CONTROL && leading !in CIF_DIGIT_CONTROL
  {
  }

  lemma AcceptedControls(leading: char, check: int, accepted: set<char>)
    requires leading in CIF_LEADING && 0 <= check <= 9
    requires forall c :: c in accepted <==> '0' <= c <= 'Z' && ControlAccepted(leading, c, check)
    ensures |accepted| == if leading in CIF_EITHER_CONTROL then 2 else 1
  {
    LeadingClasses(leading);
    var letter, digit := CIF_CONTROL_LETTERS[check], DigitChar(check);
    assert 'A' <= letter <= 'J' && '0' <= digit <= '9';
    if leading in CIF_LETTER_CONTROL {
      assert accepted == {letter};
    } else if leading in CIF_DIGIT_CONTROL {
      assert accepted == {digit};
    } else {
      assert accepted == {letter, digit};
    }
  }

  lemma ControlIsDigitOrLetter(leading: char, c: char, check: int)
    requires 0 <= check <= 9 && ControlAccepted(leading, c, check)
    ensures IsDigit(c) || 'A' <= c <= 'J'
  {
    assert 'A' <= CIF_CONTROL_LETTERS[check] <= 'J';
  }

  lemma ControlCompletes(leading: char, seven: string, c: char)
    requires leading in CIF_LEADING && |seven| == 7 && Digits(seven) && '0' <= c <= 'Z'
    ensures Valid(CIF, Completed(leading, seven, c)) <==> ControlAccepted(leading, c, CheckDigit(CifTotal(seven)))
  {
    var v := Completed(leading, seven, c);
    var check := CheckDigit(CifTotal(seven));
    CompletedAccepted(leading, seven, c);
    LeadingIsLetter(leading);
    UnchangedByNormalize(v);
  }

  lemma LeadingIsLetter(leading: char)
    requires leading in CIF_LEADING
    ensures IsLetter(leading)
  {
  }

  lemma CompletedAccepted(leading: char, seven: string, c: char)
    requires leading in CIF_LEADING && |seven| == 7 && Digits(seven)
    ensures CifAccepts(Completed(leading, seven, c)) <==> ControlAccepted(leading, c, CheckDigit(CifTotal(seven)))
  {
    var v := Completed(leading, seven, c);
    assert v[1..8] == seven && v[8] == c;
    if ControlAccepted(leading, c, CheckDigit(CifTotal(seven))) {
      ControlIsDigitOrLetter(leading, c, CheckDigit(CifTotal(seven)));
    }
  }

  /** Characters from '0' to 'Z' are neither spaces nor changed by upper-casing. */
  lemma UnchangedByNormalize(s: string)
    requires forall k :: 0 <= k < |s| ==> '0' <= s[k] <= 'Z'
    ensures Normalize(s) == s
  {
    assert Strip(s) == s;
    UpperUnchanged(s);
  }

  lemma {:induction false} UpperUnchanged(s: string)
    requires forall k :: 0 <= k < |s| ==> '0' <= s[k] <= 'Z'
    ensures Upper(s) == s
  {
    if s != "" {
      UpperUnchanged(s[1..]);
    }
  }
}
