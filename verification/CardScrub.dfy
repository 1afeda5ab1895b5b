// Card-number scrubbing: a leftmost, non-overlapping substitution of one fixed pattern,
//   word boundary, four groups of four digits with an optional space or dash between them, word boundary.
// The character classes are parameters, so the results hold for the full Unicode tables.
module CardScrub {
  import opened Models

  datatype Classes = Classes(digit: char -> bool, word: char -> bool, space: char -> bool) {
    predicate Separator(c: char) { space(c) || c == '-' }
  }

  const MARK := "[REDACTED]"

  // What the proofs need of the tables: digits are word characters, separators and brackets are
  // not, letters are not digits, brackets are not white space.
  ghost predicate Lawful(k: Classes) {
    && (forall c :: k.digit(c) ==> k.word(c))
    && (forall c :: k.space(c) ==> !k.word(c))
    && !k.word('-') && !k.word('[') && !k.word(']') && !k.space('[')
    && (forall c :: c in MARK ==> !k.digit(c))
  }

  // ---- What a card number is ----

  predicate FourDigits(k: Classes, s: string) {
    |s| == 4 && k.digit(s[0]) && k.digit(s[1]) && k.digit(s[2]) && k.digit(s[3])
  }

  // Nothing, a dash or one white-space character.
  predicate NoneOrOne(k: Classes, s: string) {
    s == "" || s == "-" || (|s| == 1 && k.space(s[0]))
  }

  predicate Spells(k: Classes, t: string, a: string, x: string, b: string, y: string, c: string, z: string, d: string) {
    && FourDigits(k, a) && NoneOrOne(k, x) && FourDigits(k, b) && NoneOrOne(k, y)
    && FourDigits(k, c) && NoneOrOne(k, z) && FourDigits(k, d)
    && t == a + x + b + y + c + z + d
  }

  ghost predicate CardNumber(k: Classes, t: string) {
    exists a, x, b, y, c, z, d :: Spells(k, t, a, x, b, y, c, z, d)
  }

  // t[i..e] is a card number, and no word character touches it.
  ghost predicate CardAt(k: Classes, t: string, i: nat, e: nat) {
    && i <= e <= |t| && CardNumber(k, t[i..e])
    && (i > 0 ==> !k.word(t[i - 1]))
    && (e < |t| ==> !k.word(t[e]))
  }

  // ---- The pattern, as the expression reads ----

  predicate Four(k: Classes, t: string, i: nat) {
    i + 4 <= |t| && k.digit(t[i]) && k.digit(t[i + 1]) && k.digit(t[i + 2]) && k.digit(t[i + 3])
  }

  // An optional separator of width n at i.
  predicate Gap(k: Classes, t: string, i: nat, n: nat) {
    n == 0 || (n == 1 && i < |t| && k.Separator(t[i]))
  }

  predicate WordAt(k: Classes, t: string, p: int) {
    0 <= p < |t| && k.word(t[p])
  }

  // \b
  predicate Boundary(k: Classes, t: string, p: int) {
    WordAt(k, t, p - 1) != WordAt(k, t, p)
  }

  predicate Shape(k: Classes, t: string, i: nat, a: nat, b: nat, c: nat) {
    && Four(k, t, i) && Gap(k, t, i + 4, a)
    && Four(k, t, i + 4 + a) && Gap(k, t, i + 8 + a, b)
    && Four(k, t, i + 8 + a + b) && Gap(k, t, i + 12 + a + b, c)
    && Four(k, t, i + 12 + a + b + c)
  }

  // t[i..e] matches the expression.
  ghost predicate Matches(k: Classes, t: string, i: nat, e: nat) {
    && Boundary(k, t, i) && Boundary(k, t, e)
    && exists a: nat, b: nat, c: nat :: Shape(k, t, i, a, b, c) && e == i + 16 + a + b + c
  }

  // ---- The matcher and the substitution ----

  // The width of the separator at i, if there is one.
  function Skip(k: Classes, t: string, i: nat): nat {
    if i < |t| && k.Separator(t[i]) then 1 else 0
  }

  function CardEnd(k: Classes, t: string, i: nat): Option<nat> {
    var a := Skip(k, t, i + 4);
    var b := Skip(k, t, i + 8 + a);
    var c := Skip(k, t, i + 12 + a + b);
    var e := i + 16 + a + b + c;
    if Boundary(k, t, i) && Shape(k, t, i, a, b, c) && Boundary(k, t, e) then Some(e) else None
  }

  lemma SeparatorIsNoDigit(k: Classes, c: char)
    requires Lawful(k) && k.Separator(c)
    ensures !k.digit(c)
  {
  }

  // A gap before four digits is as wide as the separator there.
  lemma GapIsSkip(k: Classes, t: string, p: nat, n: nat)
    requires Lawful(k) && Gap(k, t, p, n) && Four(k, t, p + n)
    ensures n == Skip(k, t, p)
  {
    if n == 0 && k.Separator(t[p]) {
      SeparatorIsNoDigit(k, t[p]);
      assert false;
    }
  }

  lemma CardEndMatches(k: Classes, t: string, i: nat, e: nat)
    requires Lawful(k)
    ensures CardEnd(k, t, i) == Some(e) <==> Matches(k, t, i, e)
  {
    hide Four, Gap, Skip, Boundary, Lawful;
    if Matches(k, t, i, e) {
      var a: nat, b: nat, c: nat :| Shape(k, t, i, a, b, c) && e == i + 16 + a + b + c;
      GapIsSkip(k, t, i + 4, a);
      GapIsSkip(k, t, i + 8 + a, b);
      GapIsSkip(k, t, i + 12 + a + b, c);
    }
  }

  // A text that spells a card number has the shape throughout, and conversely.
  lemma SpellingHasShape(k: Classes, t: string, a: string, x: string, b: string, y: string, c: string, z: string,
                         d: string)
    requires Spells(k, t, a, x, b, y, c, z, d)
    ensures Shape(k, t, 0, |x|, |y|, |z|) && |t| == 16 + |x| + |y| + |z|
  {
    hide Four, Gap, FourDigits, NoneOrOne;
    PartsAreShort(k, t, a, x, b, y, c, z, d);
    FourPart(k, "", a, x + b + y + c + z + d, t);
    GapPart(k, a, x, b + y + c + z + d, t);
    FourPart(k, a + x, b, y + c + z + d, t);
    GapPart(k, a + x + b, y, c + z + d, t);
    FourPart(k, a + x + b + y, c, z + d, t);
    GapPart(k, a + x + b + y + c, z, d, t);
    FourPart(k, a + x + b + y + c + z, d, "", t);
  }

  lemma PartsAreShort(k: Classes, t: string, a: string, x: string, b: string, y: string, c: string, z: string,
                      d: string)
    requires Spells(k, t, a, x, b, y, c, z, d)
    ensures |a| == |b| == |c| == |d| == 4
  {
  }

  lemma FourPart(k: Classes, before: string, part: string, after: string, t: string)
    requires t == before + part + after && FourDigits(k, part)
    ensures Four(k, t, |before|)
  {
    PartAt(before, part, after, t);
    assert t[|before| + 0] == part[0];
  }

  lemma GapPart(k: Classes, before: string, part: string, after: string, t: string)
    requires t == before + part + after && NoneOrOne(k, part)
    ensures Gap(k, t, |before|, |part|)
  {
    PartAt(before, part, after, t);
    assert part != "" ==> t[|before| + 0] == part[0];
  }

  lemma PartAt(before: string, part: string, after: string, t: string)
    requires t == before + part + after
    ensures |t| == |before| + |part| + |after|
    ensures forall m: nat :: m < |part| ==> t[|before| + m] == part[m]
  {
  }

  lemma ShapeSpells(k: Classes, t: string, a: nat, b: nat, c: nat)
    requires Shape(k, t, 0, a, b, c) && |t| == 16 + a + b + c
    ensures CardNumber(k, t)
  {
    hide Four, Gap, FourDigits, NoneOrOne;
    var p, q, r := 4 + a, 8 + a + b, 12 + a + b + c;
    FourSlice(k, t, 0);
    FourSlice(k, t, p);
    FourSlice(k, t, q);
    FourSlice(k, t, r);
    GapSlice(k, t, 4, a);
    GapSlice(k, t, p + 4, b);
    GapSlice(k, t, q + 4, c);
    SevenParts(t, p, q, r);
    assert Spells(k, t, t[0..4], t[4..p], t[p..p + 4], t[p + 4..q], t[q..q + 4], t[q + 4..r], t[r..r + 4]);
  }

  lemma SevenParts(t: string, p: nat, q: nat, r: nat)
    requires 4 <= p && p + 4 <= q && q + 4 <= r && r + 4 == |t|
    ensures t == t[0..4] + t[4..p] + t[p..p + 4] + t[p + 4..q] + t[q..q + 4] + t[q + 4..r] + t[r..r + 4]
  {
    Join(t, 4, p);
    Join(t, p, p + 4);
    Join(t, p + 4, q);
    Join(t, q, q + 4);
    Join(t, q + 4, r);
    Join(t, r, r + 4);
    assert t[..4] == t[0..4] && t[..r + 4] == t;
  }

  lemma Join(t: string, i: nat, j: nat)
    requires i <= j <= |t|
    ensures t[..i] + t[i..j] == t[..j]
  {
  }

  lemma FourSlice(k: Classes, t: string, i: nat)
    requires Four(k, t, i)
    ensures i + 4 <= |t| && FourDigits(k, t[i..i + 4])
  {
  }

  lemma GapSlice(k: Classes, t: string, i: nat, n: nat)
    requires Gap(k, t, i, n) && i <= |t|
    ensures i + n <= |t| && NoneOrOne(k, t[i..i + n])
  {
  }

  // The matches of the expression are the card numbers that no word character touches.
  lemma MatchesIsCard(k: Classes, t: string, i: nat, e: nat)
    requires Lawful(k)
    ensures Matches(k, t, i, e) <==> CardAt(k, t, i, e)
  {
    hide Spells, Shape;
    if Matches(k, t, i, e) {
      var a: nat, b: nat, c: nat :| Shape(k, t, i, a, b, c) && e == i + 16 + a + b + c;
      LastIsDigit(k, t, i, a, b, c);
      ShapeOfSlice(k, t, i, a, b, c);
      ShapeSpells(k, t[i..e], a, b, c);
    }
    if CardAt(k, t, i, e) {
      var a, x, b, y, c, z, d :| Spells(k, t[i..e], a, x, b, y, c, z, d);
      SpellingHasShape(k, t[i..e], a, x, b, y, c, z, d);
      ShapeOfSlice(k, t, i, |x|, |y|, |z|);
      LastIsDigit(k, t, i, |x|, |y|, |z|);
    }
  }

  // Greedy matching without backtracking finds exactly the card numbers.
  lemma CardEndExact(k: Classes, t: string, i: nat, e: nat)
    requires Lawful(k)
    ensures CardEnd(k, t, i) == Some(e) <==> CardAt(k, t, i, e)
  {
    hide CardEnd, Matches, CardAt;
    CardEndMatches(k, t, i, e);
    MatchesIsCard(k, t, i, e);
  }

  lemma EndIsFurther(k: Classes, t: string, i: nat)
    ensures CardEnd(k, t, i).Some? ==> i + 16 <= CardEnd(k, t, i).value <= |t|
  {
  }

  // _CARD_RE.sub, from position i on.
  function ScrubFrom(k: Classes, t: string, i: nat): string
    requires i <= |t|
    decreases |t| - i
  {
    EndIsFurther(k, t, i);
    if i == |t| then ""
    else
      var end := CardEnd(k, t, i);
      if end.Some? then MARK + ScrubFrom(k, t, end.value)
      else [t[i]] + ScrubFrom(k, t, i + 1)
  }

  function Scrub(k: Classes, t: string): string {
    ScrubFrom(k, t, 0)
  }

  // ---- Text outside the cards is kept, in order ----

  datatype Piece = Kept(c: char) | Card(text: string)

  function Pieces(k: Classes, t: string, i: nat): seq<Piece>
    requires i <= |t|
    decreases |t| - i
  {
    EndIsFurther(k, t, i);
    if i == |t| then []
    else
      var end := CardEnd(k, t, i);
      if end.Some? then [Card(t[i..end.value])] + Pieces(k, t, end.value)
      else [Kept(t[i])] + Pieces(k, t, i + 1)
  }

  function Original(pieces: seq<Piece>): string {
    if pieces == [] then ""
    else (match pieces[0] case Kept(c) => [c] case Card(text) => text) + Original(pieces[1..])
  }

  function Redacted(pieces: seq<Piece>): string {
    if pieces == [] then ""
    else (match pieces[0] case Kept(c) => [c] case Card(_) => MARK) + Redacted(pieces[1..])
  }

  // The text falls into kept characters and cards; scrubbing replaces the cards and nothing else.
  lemma {:induction false} ScrubKeepsTheRest(k: Classes, t: string, i: nat)
    requires i <= |t|
    ensures Original(Pieces(k, t, i)) == t[i..]
    ensures Redacted(Pieces(k, t, i)) == ScrubFrom(k, t, i)
    ensures forall p :: p in Pieces(k, t, i) && p.Card? ==> CardNumber(k, p.text)
    decreases |t| - i
  {
    hide Shape, Boundary, Skip, CardNumber;
    EndIsFurther(k, t, i);
    if i < |t| {
      var end := CardEnd(k, t, i);
      if end.Some? {
        ScrubKeepsTheRest(k, t, end.value);
        assert Pieces(k, t, i)[1..] == Pieces(k, t, end.value);
        assert t[i..] == t[i..end.value] + t[end.value..];
        FoundIsCard(k, t, i);
      } else {
        ScrubKeepsTheRest(k, t, i + 1);
        assert Pieces(k, t, i)[1..] == Pieces(k, t, i + 1);
        assert t[i..] == [t[i]] + t[i + 1..];
      }
    }
  }

  lemma FoundIsCard(k: Classes, t: string, i: nat)
    requires CardEnd(k, t, i).Some?
    ensures i <= CardEnd(k, t, i).value <= |t| && CardNumber(k, t[i..CardEnd(k, t, i).value])
  {
    hide CardNumber, Boundary, Shape, Skip;
    var a := Skip(k, t, i + 4);
    var b := Skip(k, t, i + 8 + a);
    var c := Skip(k, t, i + 12 + a + b);
    EndIsFurther(k, t, i);
    ShapeOfSlice(k, t, i, a, b, c);
    ShapeSpells(k, t[i..CardEnd(k, t, i).value], a, b, c);
  }

  function DigitsIn(k: Classes, t: string): nat {
    if t == "" then 0 else DigitsIn(k, t[..|t| - 1]) + (if k.digit(t[|t| - 1]) then 1 else 0)
  }

  lemma DigitsInStep(k: Classes, t: string, m: nat)
    requires m < |t|
    ensures DigitsIn(k, t[..m + 1]) == DigitsIn(k, t[..m]) + (if k.digit(t[m]) then 1 else 0)
  {
    assert t[..m + 1][..m] == t[..m];
  }

  lemma FourCount(k: Classes, t: string, i: nat)
    requires Four(k, t, i)
    ensures DigitsIn(k, t[..i + 4]) == DigitsIn(k, t[..i]) + 4
  {
    hide DigitsIn;
    DigitsInStep(k, t, i);
    DigitsInStep(k, t, i + 1);
    DigitsInStep(k, t, i + 2);
    DigitsInStep(k, t, i + 3);
  }

  lemma GapCount(k: Classes, t: string, i: nat, n: nat)
    requires Lawful(k) && Gap(k, t, i, n) && i + n <= |t|
    ensures DigitsIn(k, t[..i + n]) == DigitsIn(k, t[..i])
  {
    hide DigitsIn;
    if n == 1 {
      DigitsInStep(k, t, i);
      SeparatorIsNoDigit(k, t[i]);
    }
  }

  lemma ShapeCount(k: Classes, t: string, a: nat, b: nat, c: nat)
    requires Lawful(k) && Shape(k, t, 0, a, b, c) && |t| == 16 + a + b + c
    ensures DigitsIn(k, t) == 16 && DigitsIn(k, t[..4]) == 4
    ensures DigitsIn(k, t[..8 + a]) == 8 && DigitsIn(k, t[..12 + a + b]) == 12
  {
    hide Four, Gap, Lawful;
    assert t[..0] == "" && t[..|t|] == t;
    FourCount(k, t, 0);
    GapCount(k, t, 4, a);
    FourCount(k, t, 4 + a);
    GapCount(k, t, 8 + a, b);
    FourCount(k, t, 8 + a + b);
    GapCount(k, t, 12 + a + b, c);
    FourCount(k, t, 12 + a + b + c);
  }

  // A card number has sixteen digits, and whatever else it has is a dash or white space, one at most after
  // the fourth, the eighth and the twelfth.
  lemma CardNumberReads(k: Classes, t: string)
    requires Lawful(k) && CardNumber(k, t)
    ensures DigitsIn(k, t) == 16
    ensures forall m: nat :: m < |t| && !k.digit(t[m]) ==>
      && (t[m] == '-' || k.space(t[m])) && DigitsIn(k, t[..m]) in {4, 8, 12}
      && m + 1 < |t| && k.digit(t[m + 1])
  {
    hide DigitsIn, Spells;
    var a, x, b, y, c, z, d :| Spells(k, t, a, x, b, y, c, z, d);
    SpellingHasShape(k, t, a, x, b, y, c, z, d);
    ShapeCount(k, t, |x|, |y|, |z|);
    forall m: nat | m < |t| && !k.digit(t[m])
      ensures (t[m] == '-' || k.space(t[m])) && m in {4, 8 + |x|, 12 + |x| + |y|}
      ensures m + 1 < |t| && k.digit(t[m + 1])
    {
    }
  }

  // ---- No card is left ----

  lemma LastIsDigit(k: Classes, t: string, i: nat, a: nat, b: nat, c: nat)
    requires Lawful(k) && Shape(k, t, i, a, b, c)
    ensures i + 16 + a + b + c <= |t| && WordAt(k, t, i + 15 + a + b + c) && WordAt(k, t, i)
  {
  }

  // The shape depends on the characters of the match only.
  lemma ShapeOfSlice(k: Classes, t: string, i: nat, a: nat, b: nat, c: nat)
    requires i + 16 + a + b + c <= |t|
    ensures Shape(k, t, i, a, b, c) <==> Shape(k, t[i..i + 16 + a + b + c], 0, a, b, c)
  {
  }

  // Matches away from the left edge do not depend on what precedes.
  lemma MatchesShift(k: Classes, p: string, t: string, i: nat, e: nat)
    requires Matches(k, p + t, |p| + i, |p| + e)
    requires i >= 1 || p == "" || !k.word(p[|p| - 1])
    requires Lawful(k)
    ensures Matches(k, t, i, e)
  {
    hide Shape, Lawful, WordAt;
    var u := p + t;
    var a: nat, b: nat, c: nat :| Shape(k, u, |p| + i, a, b, c) && |p| + e == |p| + i + 16 + a + b + c;
    LastIsDigit(k, u, |p| + i, a, b, c);
    assert u[|p| + i..|p| + e] == t[i..e];
    ShapeOfSlice(k, u, |p| + i, a, b, c);
    ShapeOfSlice(k, t, i, a, b, c);
    WordShifts(k, p, t, i);
    WordShifts(k, p, t, e);
    WordShifts(k, p, t, e - 1);
    LeftEdge(k, p, t, i);
  }

  lemma WordShifts(k: Classes, p: string, t: string, i: nat)
    ensures WordAt(k, p + t, |p| + i) == WordAt(k, t, i)
  {
  }

  lemma LeftEdge(k: Classes, p: string, t: string, i: nat)
    requires i >= 1 || p == "" || !k.word(p[|p| - 1])
    ensures WordAt(k, p + t, |p| + i - 1) == WordAt(k, t, i - 1)
  {
  }

  // As long as the output shows no bracket it is a copy of the input.
  lemma MarkShows(k: Classes, t: string, i: nat)
    requires i <= |t| && CardEnd(k, t, i).Some?
    ensures ScrubFrom(k, t, i) != "" && ScrubFrom(k, t, i)[0] == '['
  {
    hide Shape, Boundary, Skip;
    EndIsFurther(k, t, i);
  }

  lemma CopiesNext(k: Classes, t: string, i: nat)
    requires i <= |t| && ScrubFrom(k, t, i) != "" && ScrubFrom(k, t, i)[0] != '['
    ensures i < |t| && ScrubFrom(k, t, i) == [t[i]] + ScrubFrom(k, t, i + 1)
  {
    hide CardEnd;
    if CardEnd(k, t, i).Some? {
      MarkShows(k, t, i);
    }
  }

  lemma {:induction false} OutputCopies(k: Classes, t: string, i: nat, n: nat)
    requires i <= |t| && n <= |ScrubFrom(k, t, i)| && '[' !in ScrubFrom(k, t, i)[..n]
    ensures i + n <= |t| && ScrubFrom(k, t, i)[..n] == t[i..i + n]
    ensures ScrubFrom(k, t, i)[n..] == ScrubFrom(k, t, i + n)
    decreases n
  {
    hide CardEnd, ScrubFrom;
    var out := ScrubFrom(k, t, i);
    if n > 0 {
      assert out[..n][0] == out[0];
      CopiesNext(k, t, i);
      var rest := ScrubFrom(k, t, i + 1);
      assert out[..n] == [t[i]] + rest[..n - 1];
      OutputCopies(k, t, i + 1, n - 1);
      assert t[i..i + n] == [t[i]] + t[i + 1..i + n];
      assert out[n..] == rest[n - 1..];
    }
  }

  // A card showing at the very start of the rest of the output hangs on a word character before it.
  lemma NoCardAtStart(k: Classes, t: string, i: nat, e: nat)
    requires Lawful(k) && i < |t| && CardEnd(k, t, i).None?
    requires Matches(k, ScrubFrom(k, t, i), 0, e)
    ensures WordAt(k, t, i - 1)
  {
    hide ScrubFrom, CardEnd, Shape;
    var out := ScrubFrom(k, t, i);
    var a: nat, b: nat, c: nat :| Shape(k, out, 0, a, b, c) && e == 16 + a + b + c;
    forall n | 0 <= n < e
      ensures n < |out| && out[n] != '['
    {
      ShapeHasNoBracket(k, out, a, b, c, n);
    }
    assert out[e - 1] != '[';
    OutputCopies(k, t, i, e);
    assert out[0..0 + e] == out[..e];
    ShapeOfSlice(k, out, 0, a, b, c);
    ShapeOfSlice(k, t, i, a, b, c);
    if !WordAt(k, t, i - 1) {
      LastIsDigit(k, t, i, a, b, c);
      NextAgrees(k, t, i, e);
      assert Matches(k, t, i, i + e);
      CardEndMatches(k, t, i, i + e);
    }
  }

  lemma ShapeHasNoBracket(k: Classes, t: string, a: nat, b: nat, c: nat, n: nat)
    requires Lawful(k) && Shape(k, t, 0, a, b, c) && n < 16 + a + b + c
    ensures n < |t| && t[n] != '['
  {
    assert '[' in MARK;
  }

  // The characters after a copied stretch that ends in a word character agree on being word characters.
  lemma NextAgrees(k: Classes, t: string, i: nat, n: nat)
    requires Lawful(k) && n >= 1 && i + n <= |t| && WordAt(k, t, i + n - 1)
    requires |ScrubFrom(k, t, i)| >= n && ScrubFrom(k, t, i)[n..] == ScrubFrom(k, t, i + n)
    ensures WordAt(k, ScrubFrom(k, t, i), n) == WordAt(k, t, i + n)
  {
    hide Shape;
    var out, rest := ScrubFrom(k, t, i), ScrubFrom(k, t, i + n);
    if i + n < |t| {
      assert rest != "" && out[n] == out[n..][0] == rest[0];
      if CardEnd(k, t, i + n).Some? {
        StartsWithDigit(k, t, i + n);
      }
    } else {
      assert |out[n..]| == 0;
    }
  }

  lemma StartsWithDigit(k: Classes, t: string, i: nat)
    requires CardEnd(k, t, i).Some?
    ensures i < |t| && k.digit(t[i])
  {
  }

  lemma {:induction false} NoCardBeyond(k: Classes, t: string, i: nat, j: nat, e: nat)
    requires Lawful(k) && i <= |t|
    requires Matches(k, ScrubFrom(k, t, i), j, e)
    ensures j == 0 && WordAt(k, t, i - 1)
    decreases |t| - i
  {
    hide Shape, CardEnd;
    var out := ScrubFrom(k, t, i);
    MatchStartsWithDigit(k, out, j, e);
    EndIsFurther(k, t, i);
    if CardEnd(k, t, i).Some? {
      var end := CardEnd(k, t, i).value;
      var rest := ScrubFrom(k, t, end);
      assert out == MARK + rest;
      if j < |MARK| {
        MarkHasNoDigit(k, rest, j);
        assert false;
      } else {
        MatchesShift(k, MARK, rest, j - |MARK|, e - |MARK|);
        NoCardBeyond(k, t, end, j - |MARK|, e - |MARK|);
        NothingAfterCard(k, t, i);
      }
    } else if j == 0 {
      NoCardAtStart(k, t, i, e);
    } else {
      var rest := ScrubFrom(k, t, i + 1);
      assert out == [t[i]] + rest;
      if j == 1 {
        assert WordAt(k, out, 1) && !WordAt(k, out, 0);
      }
      MatchesShift(k, [t[i]], rest, j - 1, e - 1);
      NoCardBeyond(k, t, i + 1, j - 1, e - 1);
    }
  }

  lemma MarkHasNoDigit(k: Classes, rest: string, j: nat)
    requires Lawful(k) && j < |MARK|
    ensures !k.digit((MARK + rest)[j])
  {
    assert (MARK + rest)[j] == MARK[j];
  }

  lemma MatchStartsWithDigit(k: Classes, t: string, i: nat, e: nat)
    requires Lawful(k) && Matches(k, t, i, e)
    ensures i < |t| && k.digit(t[i]) && i + 16 <= e && Boundary(k, t, i)
  {
  }

  // What follows a card does not start with a digit.
  lemma NothingAfterCard(k: Classes, t: string, i: nat)
    requires Lawful(k) && CardEnd(k, t, i).Some?
    ensures var end := CardEnd(k, t, i).value;
      && end <= |t|
      && forall e: nat :: !Matches(k, ScrubFrom(k, t, end), 0, e)
  {
    EndIsFurther(k, t, i);
    var end := CardEnd(k, t, i).value;
    assert k.digit(t[end - 1]);
    if end < |t| {
      assert !k.word(t[end]);
      if CardEnd(k, t, end).Some? {
        StartsWithDigit(k, t, end);
      }
      assert ScrubFrom(k, t, end)[0] == t[end];
    }
  }

  lemma NoMatchLeft(k: Classes, t: string, j: nat, e: nat)
    requires Lawful(k)
    ensures !Matches(k, Scrub(k, t), j, e)
  {
    if Matches(k, Scrub(k, t), j, e) {
      NoCardBeyond(k, t, 0, j, e);
    }
  }

  // For every text, the scrubbed text contains no card number.
  lemma NoCardLeft(k: Classes, t: string, j: nat, e: nat)
    requires Lawful(k)
    ensures !CardAt(k, Scrub(k, t), j, e)
  {
    hide Scrub, Matches, CardAt;
    NoMatchLeft(k, t, j, e);
    MatchesIsCard(k, Scrub(k, t), j, e);
  }

  // ---- Idempotence ----

  lemma {:induction false} NothingToScrub(k: Classes, t: string, i: nat)
    requires i <= |t| && forall j: nat :: CardEnd(k, t, j).None?
    ensures ScrubFrom(k, t, i) == t[i..]
    decreases |t| - i
  {
    hide CardEnd;
    if i < |t| {
      NothingToScrub(k, t, i + 1);
      assert t[i..] == [t[i]] + t[i + 1..];
    }
  }

  lemma ScrubIsIdempotent(k: Classes, t: string)
    requires Lawful(k)
    ensures Scrub(k, Scrub(k, t)) == Scrub(k, t)
  {
    var out := Scrub(k, t);
    forall j: nat
      ensures CardEnd(k, out, j).None?
    {
      if CardEnd(k, out, j).Some? {
        CardEndExact(k, out, j, CardEnd(k, out, j).value);
        NoCardLeft(k, t, j, CardEnd(k, out, j).value);
      }
    }
    NothingToScrub(k, out, 0);
  }

  // ---- Text without a card, and only such text, is returned unchanged ----

  lemma {:induction false} ScrubShortens(k: Classes, t: string, i: nat)
    requires i <= |t|
    ensures |ScrubFrom(k, t, i)| <= |t| - i
    ensures (exists j: nat :: i <= j && CardEnd(k, t, j).Some?) ==> |ScrubFrom(k, t, i)| < |t| - i
    decreases |t| - i
  {
    hide CardEnd;
    EndIsFurther(k, t, i);
    if i < |t| {
      if CardEnd(k, t, i).Some? {
        ScrubShortens(k, t, CardEnd(k, t, i).value);
      } else {
        ScrubShortens(k, t, i + 1);
      }
    } else {
      forall j: nat | i <= j
        ensures CardEnd(k, t, j).None?
      {
        EndIsFurther(k, t, j);
      }
    }
  }

  lemma ChangedIffCardPresent(k: Classes, t: string)
    requires Lawful(k)
    ensures Scrub(k, t) != t <==> exists i: nat, e: nat :: CardAt(k, t, i, e)
  {
    hide CardEnd, CardAt, ScrubFrom;
    if i: nat, e: nat :| CardAt(k, t, i, e) {
      CardEndExact(k, t, i, e);
      ScrubShortens(k, t, 0);
    } else {
      forall j: nat
        ensures CardEnd(k, t, j).None?
      {
        if CardEnd(k, t, j).Some? {
          CardEndExact(k, t, j, CardEnd(k, t, j).value);
        }
      }
      NothingToScrub(k, t, 0);
    }
  }

  // ---- What scrubbing makes of a text, card by card ----

  lemma CardEndShifts(k: Classes, t: string, n: nat, i: nat)
    requires n <= |t| && (i > 0 || n == 0 || !k.word(t[n - 1]))
    ensures CardEnd(k, t[n..], i) ==
      if CardEnd(k, t, n + i).Some? then Some(CardEnd(k, t, n + i).value - n) else None
  {
  }

  lemma {:induction false} ScrubShifts(k: Classes, t: string, n: nat, i: nat)
    requires n + i <= |t| && (i > 0 || n == 0 || !k.word(t[n - 1]))
    requires Lawful(k)
    ensures ScrubFrom(k, t, n + i) == ScrubFrom(k, t[n..], i)
    decreases |t| - i
  {
    hide CardEnd, Lawful;
    CardEndShifts(k, t, n, i);
    EndIsFurther(k, t, n + i);
    if n + i < |t| {
      if CardEnd(k, t, n + i).Some? {
        ScrubShifts(k, t, n, CardEnd(k, t, n + i).value - n);
      } else {
        ScrubShifts(k, t, n, i + 1);
      }
    }
  }

  lemma {:induction false} ScrubCopies(k: Classes, t: string, j: nat, i: nat)
    requires j <= i <= |t| && forall m: nat :: j <= m < i ==> CardEnd(k, t, m).None?
    ensures ScrubFrom(k, t, j) == t[j..i] + ScrubFrom(k, t, i)
    decreases i - j
  {
    hide CardEnd;
    if j < i {
      ScrubCopies(k, t, j + 1, i);
      assert t[j..i] == [t[j]] + t[j + 1..i];
    }
  }

  // Behind a card scrubbing starts afresh.
  lemma AfreshAfterCard(k: Classes, t: string, i: nat, e: nat)
    requires Lawful(k) && CardAt(k, t, i, e)
    ensures ScrubFrom(k, t, e) == Scrub(k, t[e..])
  {
    hide CardEnd, CardNumber;
    if e < |t| {
      assert CardEnd(k, t, e).None? && CardEnd(k, t[e..], 0).None? by {
        NoDigitNoCard(k, t, e);
        NoDigitNoCard(k, t[e..], 0);
      }
      ScrubShifts(k, t, e, 1);
    }
  }

  lemma NoDigitNoCard(k: Classes, t: string, i: nat)
    requires Lawful(k) && i < |t| && !k.word(t[i])
    ensures CardEnd(k, t, i).None?
  {
    if CardEnd(k, t, i).Some? {
      StartsWithDigit(k, t, i);
    }
  }

  // For every text: up to its first card number it is copied, the card number becomes the mark, and what
  // follows is scrubbed by itself. A text without one is returned unchanged (ChangedIffCardPresent).
  lemma ScrubExact(k: Classes, t: string, i: nat, e: nat)
    requires Lawful(k) && CardAt(k, t, i, e)
    requires forall j: nat, f: nat :: CardAt(k, t, j, f) ==> i <= j
    ensures Scrub(k, t) == t[..i] + "[REDACTED]" + Scrub(k, t[e..])
  {
    hide CardEnd, CardNumber, Lawful;
    forall m: nat | m < i
      ensures CardEnd(k, t, m).None?
    {
      if CardEnd(k, t, m).Some? {
        CardEndExact(k, t, m, CardEnd(k, t, m).value);
      }
    }
    ScrubCopies(k, t, 0, i);
    CardEndExact(k, t, i, e);
    EndIsFurther(k, t, i);
    AfreshAfterCard(k, t, i, e);
  }

  // A card number, however it is separated, becomes the mark: alone, and between two characters of no word.
  lemma CardIsRedacted(k: Classes, a: string, x: string, b: string, y: string, c: string, z: string, d: string,
                       before: string, after: string)
    requires Lawful(k)
    requires |a| == |b| == |c| == |d| == 4 && forall m :: m in a + b + c + d ==> k.digit(m)
    requires forall s :: s in [x, y, z] ==> s == "" || s == "-" || (|s| == 1 && k.space(s[0]))
    requires |before| <= 1 && |after| <= 1 && forall m :: m in before + after ==> !k.word(m)
    ensures Scrub(k, before + (a + x + b + y + c + z + d) + after) == before + "[REDACTED]" + after
  {
    PartsSpell(k, a, x, b, y, c, z, d);
    CardBecomesMark(k, before, a + x + b + y + c + z + d, after);
  }

  lemma CardBecomesMark(k: Classes, before: string, card: string, after: string)
    requires Lawful(k) && CardNumber(k, card)
    requires |before| <= 1 && |after| <= 1 && forall m :: m in before + after ==> !k.word(m)
    ensures Scrub(k, before + card + after) == before + "[REDACTED]" + after
  {
    hide CardEnd, Scrub, CardNumber;
    var t := before + card + after;
    var i, e := |before|, |before| + |card|;
    PartAt(before, card, after, t);
    assert t[i..e] == card && t[..i] == before && t[e..] == after;
    assert i > 0 ==> t[i - 1] in before + after;
    assert e < |t| ==> t[e] == after[0];
    assert CardAt(k, t, i, e);
    forall j: nat, f: nat | CardAt(k, t, j, f)
      ensures i <= j
    {
      CardEndExact(k, t, j, f);
      StartsWithDigit(k, t, j);
    }
    ScrubExact(k, t, i, e);
    TooShort(k, after);
  }

  lemma PartsSpell(k: Classes, a: string, x: string, b: string, y: string, c: string, z: string, d: string)
    requires |a| == |b| == |c| == |d| == 4 && forall m :: m in a + b + c + d ==> k.digit(m)
    requires forall s :: s in [x, y, z] ==> s == "" || s == "-" || (|s| == 1 && k.space(s[0]))
    ensures Spells(k, a + x + b + y + c + z + d, a, x, b, y, c, z, d)
  {
    assert forall m :: m in a || m in b || m in c || m in d ==> m in a + b + c + d;
    assert [x, y, z][0] == x && [x, y, z][1] == y && [x, y, z][2] == z;
  }

  lemma TooShort(k: Classes, t: string)
    requires |t| < 16
    ensures Scrub(k, t) == t
  {
    hide CardEnd;
    forall j: nat
      ensures CardEnd(k, t, j).None?
    {
      EndIsFurther(k, t, j);
    }
    NothingToScrub(k, t, 0);
  }
}
