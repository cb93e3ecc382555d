/** The helpers of lib/utils.ts that carry decisions: initials, the course
    enrollment code, grade colour bands and grade percentages. */
module Utils {
  import opened Common

  // ---------------------------------------------------------------------------
  // getInitials

  /** `name?.[0] || ""`: the first character of a present, non-empty name. */
  function FirstChar(name: Option<string>): string {
    if name.Some? && name.value != "" then [name.value[0]] else ""
  }

  /** `getInitials(firstName, lastName)`: the upper-cased first character of
      each name that is present and non-empty, first name first. */
  function GetInitials(firstName: Option<string>, lastName: Option<string>): (r: string)
    ensures |r| == (if Truthy(firstName) then 1 else 0) + (if Truthy(lastName) then 1 else 0)
    ensures |r| <= 2
    ensures Truthy(firstName) ==> r[0] == UpperChar(firstName.value[0])
    ensures Truthy(lastName) ==> r[|r| - 1] == UpperChar(lastName.value[0])
    ensures r == "" <==> !Truthy(firstName) && !Truthy(lastName)
    ensures forall i :: 0 <= i < |r| ==> !IsLowerAscii(r[i])
  {
    ToUpper(FirstChar(firstName) + FirstChar(lastName))
  }

  // ---------------------------------------------------------------------------
  // generateEnrollmentCode

  /** The code alphabet: upper-case letters and digits without the
      look-alikes I, O, 0 and 1. */
  const EnrollmentAlphabet := "ABCDEFGHJKLMNPQRSTUVWXYZ23456789"
  const CodeLength := 6

  /** A `Math.random()` value: a number in [0, 1). */
  predicate IsRandomDraw(x: real) {
    0.0 <= x < 1.0
  }

  /** `Math.floor(Math.random() * chars.length)` for the 32-character alphabet. */
  function PickIndex(draw: real): (k: int)
    requires IsRandomDraw(draw)
    ensures 0 <= k < |EnrollmentAlphabet|
  {
    (draw * 32.0).Floor
  }

  /** `s.charAt(i)`: the one-character string at `i`, or "" out of range. */
  function CharAt(s: string, i: int): (r: string)
    ensures 0 <= i < |s| ==> r == [s[i]]
    ensures !(0 <= i < |s|) ==> r == ""
  {
    if 0 <= i < |s| then [s[i]] else ""
  }

  /** `generateEnrollmentCode()`, with the six `Math.random()` values it
      draws given as `draws`. The code has exactly six characters, each
      from the alphabet, the i-th chosen by the i-th draw. */
  method GenerateEnrollmentCode(draws: seq<real>) returns (code: string)
    requires |draws| == CodeLength
    requires forall i :: 0 <= i < |draws| ==> IsRandomDraw(draws[i])
    ensures |code| == CodeLength
    ensures forall i :: 0 <= i < |code| ==> code[i] in EnrollmentAlphabet
    ensures forall i :: 0 <= i < |code| ==> code[i] == EnrollmentAlphabet[PickIndex(draws[i])]
  {
    var chars := EnrollmentAlphabet;
    code := "";
    for i := 0 to CodeLength
      invariant |code| == i
      invariant forall j :: 0 <= j < i ==> code[j] == chars[PickIndex(draws[j])]
    {
      code := code + CharAt(chars, PickIndex(draws[i]));
    }
  }

  /** A code character: an upper-case letter other than I and O, or a
      digit from 2 to 9. */
  predicate IsCodeChar(c: char) {
    ('A' <= c <= 'Z' && c != 'I' && c != 'O') || ('2' <= c <= '9')
  }

  /** The alphabet has 32 code characters: 24 letters in increasing order,
      then 8 digits in increasing order; none of I, O, 0, 1 occurs. */
  lemma AlphabetShape()
    ensures |EnrollmentAlphabet| == 32
    ensures forall i :: 0 <= i < |EnrollmentAlphabet| ==> IsCodeChar(EnrollmentAlphabet[i])
    ensures forall i :: 0 <= i < 24 ==> 'A' <= EnrollmentAlphabet[i] <= 'Z'
    ensures forall i :: 24 <= i < 32 ==> '2' <= EnrollmentAlphabet[i] <= '9'
    ensures forall i :: 0 <= i < 31 && i != 23 ==> EnrollmentAlphabet[i] < EnrollmentAlphabet[i + 1]
    ensures 'I' !in EnrollmentAlphabet && 'O' !in EnrollmentAlphabet
    ensures '0' !in EnrollmentAlphabet && '1' !in EnrollmentAlphabet
  {
    var letters, digits := "ABCDEFGHJKLMNPQRSTUVWXYZ", "23456789";
    assert EnrollmentAlphabet == letters + digits;
    LettersShape();
    DigitsShape();
    forall i | 0 <= i < 32
      ensures IsCodeChar(EnrollmentAlphabet[i])
      ensures i < 24 ==> 'A' <= EnrollmentAlphabet[i] <= 'Z'
      ensures 24 <= i ==> '2' <= EnrollmentAlphabet[i] <= '9'
    {
      if i < 24 {
        assert EnrollmentAlphabet[i] == letters[i];
      } else {
        assert EnrollmentAlphabet[i] == digits[i - 24];
      }
    }
    forall i | 0 <= i < 31 && i != 23
      ensures EnrollmentAlphabet[i] < EnrollmentAlphabet[i + 1]
    {
      if i < 23 {
        assert EnrollmentAlphabet[i] == letters[i] && EnrollmentAlphabet[i + 1] == letters[i + 1];
      } else {
        assert EnrollmentAlphabet[i] == digits[i - 24] && EnrollmentAlphabet[i + 1] == digits[i - 23];
      }
    }
  }

  lemma LettersShape()
    ensures var letters := "ABCDEFGHJKLMNPQRSTUVWXYZ";
      && |letters| == 24
      && (forall i :: 0 <= i < 24 ==> IsCodeChar(letters[i]) && 'A' <= letters[i] <= 'Z')
      && (forall i :: 0 <= i < 23 ==> letters[i] < letters[i + 1])
  {
  }

  lemma DigitsShape()
    ensures var digits := "23456789";
      && |digits| == 8
      && (forall i :: 0 <= i < 8 ==> IsCodeChar(digits[i]) && '2' <= digits[i] <= '9')
      && (forall i :: 0 <= i < 7 ==> digits[i] < digits[i + 1])
  {
  }

  /** Any two positions of the alphabet hold different characters. */
  lemma {:induction false} AlphabetDistinct(i: nat, j: nat)
    requires i < j < |EnrollmentAlphabet|
    ensures EnrollmentAlphabet[i] != EnrollmentAlphabet[j]
    ensures (j < 24 || 24 <= i) ==> EnrollmentAlphabet[i] < EnrollmentAlphabet[j]
    decreases j - i
  {
    AlphabetShape();
    if i + 1 < j && (j < 24 || 24 <= i) {
      AlphabetDistinct(i + 1, j);
    }
  }

  /** Position of `c` in `s`. */
  function IndexOf(s: string, c: char): (k: nat)
    requires c in s
    ensures k < |s| && s[k] == c
  {
    if s[0] == c then 0 else 1 + IndexOf(s[1..], c)
  }

  /** The draw that picks character `c`: position k of the alphabet is
      picked by the draw k / 32. */
  function DrawFor(c: char): real
    requires c in EnrollmentAlphabet
  {
    IndexOf(EnrollmentAlphabet, c) as real / 32.0
  }

  lemma DrawForPicks(c: char)
    requires c in EnrollmentAlphabet
    ensures IsRandomDraw(DrawFor(c)) && EnrollmentAlphabet[PickIndex(DrawFor(c))] == c
  {
    var k := IndexOf(EnrollmentAlphabet, c);
    assert DrawFor(c) == k as real / 32.0;
    PickOfPosition(k);
  }

  /** The draw k / 32 picks position k. */
  lemma PickOfPosition(k: nat)
    requires k < 32
    ensures IsRandomDraw(k as real / 32.0) && PickIndex(k as real / 32.0) == k
  {
    var d := k as real / 32.0;
    assert d * 32.0 == k as real;
    assert (k as real).Floor == k;
  }

  /** Draws that produce a given code. */
  function DrawsFor(code: string): (draws: seq<real>)
    requires forall i :: 0 <= i < |code| ==> code[i] in EnrollmentAlphabet
    ensures |draws| == |code|
    ensures forall i :: 0 <= i < |code| ==> draws[i] == DrawFor(code[i])
  {
    seq(|code|, i requires 0 <= i < |code| => DrawFor(code[i]))
  }

  /** Every six-character word over the alphabet is a possible code. */
  lemma EveryCodeReachable(code: string)
    requires |code| == CodeLength
    requires forall i :: 0 <= i < |code| ==> code[i] in EnrollmentAlphabet
    ensures forall i :: 0 <= i < CodeLength ==> IsRandomDraw(DrawsFor(code)[i])
    ensures forall i :: 0 <= i < CodeLength ==> EnrollmentAlphabet[PickIndex(DrawsFor(code)[i])] == code[i]
  {
    var draws := DrawsFor(code);
    forall i | 0 <= i < CodeLength
      ensures IsRandomDraw(draws[i]) && EnrollmentAlphabet[PickIndex(draws[i])] == code[i]
    {
      DrawForPicks(code[i]);
    }
  }

  // ---------------------------------------------------------------------------
  // getGradeColor

  /** `getGradeColor(percentage)`: five bands with inclusive lower bounds
      90, 80, 70 and 60, red below 60. */
  function GetGradeColor(percentage: real): (c: string)
    ensures c == "text-green-600" <==> percentage >= 90.0
    ensures c == "text-blue-600" <==> 80.0 <= percentage < 90.0
    ensures c == "text-yellow-600" <==> 70.0 <= percentage < 80.0
    ensures c == "text-orange-600" <==> 60.0 <= percentage < 70.0
    ensures c == "text-red-600" <==> percentage < 60.0
  {
    if percentage >= 90.0 then "text-green-600"
    else if percentage >= 80.0 then "text-blue-600"
    else if percentage >= 70.0 then "text-yellow-600"
    else if percentage >= 60.0 then "text-orange-600"
    else "text-red-600"
  }

  /** The bands from red (0) up to green (4). */
  function BandRank(colorClass: string): nat {
    if colorClass == "text-green-600" then 4
    else if colorClass == "text-blue-600" then 3
    else if colorClass == "text-yellow-600" then 2
    else if colorClass == "text-orange-600" then 1
    else 0
  }

  /** A higher percentage never lands in a lower band. */
  lemma GradeColorMonotone(p: real, q: real)
    requires p <= q
    ensures BandRank(GetGradeColor(p)) <= BandRank(GetGradeColor(q))
  {
  }

  // ---------------------------------------------------------------------------
  // calculateGradePercentage

  /** Floor of a / b for b != 0 (Dafny's `/` is Euclidean). */
  function FloorDiv(a: int, b: int): (q: int)
    requires b != 0
    ensures b > 0 ==> b * q <= a < b * q + b
    ensures b < 0 ==> b * q >= a > b * q + b
  {
    if b > 0 then a / b else (-a) / (-b)
  }

  /** `Math.round((score / total) * 100)`: `Math.round(x)` is floor(x + 1/2),
      so the result is floor((200 * score + total) / (2 * total)). A zero
      total gives NaN or Infinity in the source, modelled as None. The
      result is the integer nearest to 100 * score / total, halves rounded up. */
  function CalculateGradePercentage(score: int, total: int): (r: Option<int>)
    ensures r.None? <==> total == 0
    ensures total > 0 ==> 2 * total * r.value - total <= 200 * score < 2 * total * r.value + total
    ensures total < 0 ==> 2 * total * r.value - total >= 200 * score > 2 * total * r.value + total
  {
    if total == 0 then None else Some(FloorDiv(200 * score + total, 2 * total))
  }

  lemma MulAtLeast(t: int, d: int)
    requires t > 0 && d >= 1
    ensures t * d >= t
  {
  }

  /** For a positive total the percentage is monotone in the score. */
  lemma GradePercentageMonotone(s1: int, s2: int, total: int)
    requires total > 0 && s1 <= s2
    ensures CalculateGradePercentage(s1, total).value <= CalculateGradePercentage(s2, total).value
  {
    var r1 := CalculateGradePercentage(s1, total).value;
    var r2 := CalculateGradePercentage(s2, total).value;
    if r1 > r2 {
      MulAtLeast(total, r1 - r2);
    }
  }

  /** Full marks give 100, no marks give 0, and a score between them stays
      within [0, 100]. */
  lemma GradePercentageRange(score: int, total: int)
    requires total > 0 && 0 <= score <= total
    ensures CalculateGradePercentage(total, total) == Some(100)
    ensures CalculateGradePercentage(0, total) == Some(0)
    ensures 0 <= CalculateGradePercentage(score, total).value <= 100
  {
    var full := CalculateGradePercentage(total, total).value;
    var none := CalculateGradePercentage(0, total).value;
    if full >= 101 { MulAtLeast(total, full - 100); }
    if full <= 99 { MulAtLeast(total, 100 - full); }
    if none >= 1 { MulAtLeast(total, none); }
    if none <= -1 { MulAtLeast(total, -none); }
    assert full == 100;
    assert none == 0;
    GradePercentageMonotone(0, score, total);
    GradePercentageMonotone(score, total, total);
  }
}
