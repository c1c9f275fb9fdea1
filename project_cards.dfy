/**
 * The formatting done while the projects page renders its cards: the caption
 * shown under each metric value, the two-digit project number drawn over the
 * card's image, and the column order that alternates from card to card.
 */
module ProjectCards {
  import opened JsStrings

  // ---------------------------------------------------------------------------
  // Metric labels: key.replace(/([A-Z])/g, ' $1').trim()
  // ---------------------------------------------------------------------------

  predicate IsAsciiUpper(c: char) {
    'A' <= c <= 'Z'
  }

  /** `s` with every `' '` deleted. */
  function DeleteSpaces(s: string): string {
    if s == [] then []
    else (if s[0] == ' ' then [] else [s[0]]) + DeleteSpaces(s[1..])
  }

  /** What the `replace` step makes of one character. */
  function Spaced(c: char): string {
    if IsAsciiUpper(c) then [' ', c] else [c]
  }

  /** The `replace` step: a space put in front of every ASCII capital letter. */
  function SpaceBeforeCapitals(key: string): (r: string)
    ensures |r| >= |key|
    ensures r == [] <==> key == []
  {
    if key == [] then [] else Spaced(key[0]) + SpaceBeforeCapitals(key[1..])
  }

  /** Every capital letter in `r` has a space right before it. */
  predicate CapitalsSpaced(r: string) {
    forall k :: 0 <= k < |r| && IsAsciiUpper(r[k]) ==> k > 0 && r[k - 1] == ' '
  }

  /** After the `replace` step every capital letter has a space right before it. */
  lemma {:induction false} CapitalsFollowSpaces(key: string)
    ensures CapitalsSpaced(SpaceBeforeCapitals(key))
  {
    if key != [] {
      var h, t := Spaced(key[0]), SpaceBeforeCapitals(key[1..]);
      var r := h + t;
      CapitalsFollowSpaces(key[1..]);
      assert CapitalsSpaced(t);
      forall k | 0 <= k < |r| && IsAsciiUpper(r[k]) ensures k > 0 && r[k - 1] == ' ' {
        if k < |h| {
          assert r[k] == h[k];
          assert r[0] == h[0];
          assert k == 1;
          assert r[0] == ' ';
        } else {
          assert r[k] == t[k - |h|];
          assert k > |h|;
          assert r[k - 1] == t[k - |h| - 1];
          assert t[k - |h| - 1] == ' ';
        }
      }
    }
  }

  /** Every space in `r` has a capital letter right after it. */
  predicate SpacesPrecedeCapitals(r: string) {
    forall k :: 0 <= k < |r| && r[k] == ' ' ==> k + 1 < |r| && IsAsciiUpper(r[k + 1])
  }

  /** In a key without whitespace, the `replace` step puts spaces only in front of capitals. */
  lemma {:induction false} SpacesOnlyBeforeCapitals(key: string)
    requires NoWhitespace(key)
    ensures SpacesPrecedeCapitals(SpaceBeforeCapitals(key))
  {
    if key != [] {
      var h, t := Spaced(key[0]), SpaceBeforeCapitals(key[1..]);
      var r := h + t;
      SpacesOnlyBeforeCapitals(key[1..]);
      assert SpacesPrecedeCapitals(t);
      assert IsWhitespace(' ');
      forall k | 0 <= k < |r| && r[k] == ' ' ensures k + 1 < |r| && IsAsciiUpper(r[k + 1]) {
        if k < |h| {
          assert r[k] == h[k];
          assert key[0] != ' ';
          assert |h| == 2 && k == 0;
          assert r[1] == h[1] == key[0];
        } else {
          assert r[k] == t[k - |h|];
          assert r[k + 1] == t[k - |h| + 1];
        }
      }
    }
  }

  /** The `replace` step adds spaces and nothing else. */
  lemma {:induction false} SpacedDeleteSpaces(key: string)
    ensures DeleteSpaces(SpaceBeforeCapitals(key)) == DeleteSpaces(key)
  {
    if key != [] {
      var h, t := Spaced(key[0]), SpaceBeforeCapitals(key[1..]);
      SpacedDeleteSpaces(key[1..]);
      DeleteSpacesAppend(h, t);
      assert DeleteSpaces(h) == DeleteSpaces([key[0]]);
    }
  }

  /** The only whitespace in `r` is `' '`. */
  predicate OnlySpaces(r: string) {
    forall k :: 0 <= k < |r| && IsWhitespace(r[k]) ==> r[k] == ' '
  }

  /** In a key without whitespace, the only whitespace the `replace` step leaves is its own spaces. */
  lemma {:induction false} SpacedWhitespace(key: string)
    requires NoWhitespace(key)
    ensures OnlySpaces(SpaceBeforeCapitals(key))
  {
    if key != [] {
      var h, t := Spaced(key[0]), SpaceBeforeCapitals(key[1..]);
      var r := h + t;
      SpacedWhitespace(key[1..]);
      assert OnlySpaces(t);
      forall k | 0 <= k < |r| && IsWhitespace(r[k]) ensures r[k] == ' ' {
        if k < |h| {
          assert r[k] == h[k];
          assert !IsWhitespace(key[0]);
        } else {
          assert r[k] == t[k - |h|];
        }
      }
    }
  }

  lemma {:induction false} DeleteSpacesAppend(u: string, v: string)
    ensures DeleteSpaces(u + v) == DeleteSpaces(u) + DeleteSpaces(v)
  {
    if u != [] {
      var x := if u[0] == ' ' then [] else [u[0]];
      assert (u + v)[0] == u[0];
      assert (u + v)[1..] == u[1..] + v;
      DeleteSpacesAppend(u[1..], v);
      calc {
        DeleteSpaces(u + v);
        x + DeleteSpaces(u[1..] + v);
        x + (DeleteSpaces(u[1..]) + DeleteSpaces(v));
        (x + DeleteSpaces(u[1..])) + DeleteSpaces(v);
      }
    } else {
      assert u + v == v;
    }
  }

  /** A string made of spaces only loses all of it to `DeleteSpaces`. */
  lemma {:induction false} DeleteSpacesOfSpaces(s: string)
    requires forall k :: 0 <= k < |s| ==> s[k] == ' '
    ensures DeleteSpaces(s) == []
  {
    if s != [] {
      DeleteSpacesOfSpaces(s[1..]);
    }
  }

  /** A string without spaces is unchanged by `DeleteSpaces`. */
  lemma {:induction false} DeleteSpacesOfSpaceless(s: string)
    requires forall k :: 0 <= k < |s| ==> s[k] != ' '
    ensures DeleteSpaces(s) == s
  {
    if s != [] {
      DeleteSpacesOfSpaceless(s[1..]);
      assert s == [s[0]] + s[1..];
    }
  }

  /**
   * The caption under a metric value. It never begins or ends with whitespace,
   * every capital in it (but a leading one) follows a space, and, for a key
   * without whitespace, deleting the spaces gives the key back.
   */
  function MetricLabel(key: string): (caption: string)
    ensures caption != [] ==> !IsWhitespace(caption[0]) && !IsWhitespace(caption[|caption| - 1])
    ensures CapitalsSpacedAfterFirst(caption)
    ensures NoWhitespace(key) ==> SpacesPrecedeCapitals(caption)
    ensures NoWhitespace(key) ==> DeleteSpaces(caption) == key
  {
    LabelFacts(key);
    Trim(SpaceBeforeCapitals(key))
  }

  lemma LabelFacts(key: string)
    ensures CapitalsSpacedAfterFirst(Trim(SpaceBeforeCapitals(key)))
    ensures NoWhitespace(key) ==> SpacesPrecedeCapitals(Trim(SpaceBeforeCapitals(key)))
    ensures NoWhitespace(key) ==> DeleteSpaces(Trim(SpaceBeforeCapitals(key))) == key
  {
    var spaced := SpaceBeforeCapitals(key);
    var caption := Trim(spaced);
    var a := TextStart(spaced, 0);
    CapitalsFollowSpaces(key);
    CapitalsStaySpaced(spaced, a, caption);
    if NoWhitespace(key) {
      LabelRoundTrip(key, spaced, a, caption);
      SpacesOnlyBeforeCapitals(key);
      SpacesStayBeforeCapitals(spaced, a, caption);
    }
  }

  /** Every capital letter in `r`, except one in front, has a space right before it. */
  predicate CapitalsSpacedAfterFirst(r: string) {
    forall k :: 0 < k < |r| && IsAsciiUpper(r[k]) ==> r[k - 1] == ' '
  }

  lemma CapitalsStaySpaced(spaced: string, a: nat, caption: string)
    requires CapitalsSpaced(spaced)
    requires a + |caption| <= |spaced| && caption == spaced[a..a + |caption|]
    ensures CapitalsSpacedAfterFirst(caption)
  {
    forall k | 0 < k < |caption| && IsAsciiUpper(caption[k]) ensures caption[k - 1] == ' ' {
      assert caption[k] == spaced[a + k];
      assert caption[k - 1] == spaced[a + k - 1];
    }
  }

  /** A slice whose last character is not whitespace keeps every space followed by its capital. */
  lemma SpacesStayBeforeCapitals(spaced: string, a: nat, caption: string)
    requires SpacesPrecedeCapitals(spaced)
    requires a + |caption| <= |spaced| && caption == spaced[a..a + |caption|]
    requires caption != [] ==> !IsWhitespace(caption[|caption| - 1])
    ensures SpacesPrecedeCapitals(caption)
  {
    assert IsWhitespace(' ');
    forall k | 0 <= k < |caption| && caption[k] == ' ' ensures k + 1 < |caption| && IsAsciiUpper(caption[k + 1]) {
      assert caption[k] == spaced[a + k];
      assert k != |caption| - 1;
      assert caption[k + 1] == spaced[a + k + 1];
    }
  }

  /** The spaces `trim` cut off count for nothing once spaces are deleted. */
  lemma SliceOfSpaces(s: string, i: nat, j: nat)
    requires i <= j <= |s|
    requires forall k :: i <= k < j ==> s[k] == ' '
    ensures DeleteSpaces(s[i..j]) == []
  {
    forall k | 0 <= k < j - i ensures s[i..j][k] == ' ' {
      assert s[i..j][k] == s[i + k];
    }
    DeleteSpacesOfSpaces(s[i..j]);
  }

  /** Cutting whitespace that is all spaces off both ends does not change `DeleteSpaces`. */
  lemma SpacesAround(s: string, a: nat, b: nat)
    requires a <= b <= |s|
    requires forall k :: 0 <= k < a ==> s[k] == ' '
    requires forall k :: b <= k < |s| ==> s[k] == ' '
    ensures DeleteSpaces(s[a..b]) == DeleteSpaces(s)
  {
    SliceOfSpaces(s, 0, a);
    SliceOfSpaces(s, b, |s|);
    SliceInThree(s, a, b);
    DeleteSpacesAround(s[0..a], s[a..b], s[b..|s|]);
  }

  lemma SliceInThree(s: string, a: nat, b: nat)
    requires a <= b <= |s|
    ensures s == s[0..a] + s[a..b] + s[b..|s|]
  {
    assert s[0..a] + s[a..b] == s[0..b];
  }

  lemma DeleteSpacesAround(pre: string, mid: string, post: string)
    requires DeleteSpaces(pre) == [] && DeleteSpaces(post) == []
    ensures DeleteSpaces(pre + mid + post) == DeleteSpaces(mid)
  {
    DeleteSpacesAppend(pre + mid, post);
    DeleteSpacesAppend(pre, mid);
    assert DeleteSpaces(pre) + DeleteSpaces(mid) + DeleteSpaces(post) == DeleteSpaces(mid);
  }

  lemma WhitespaceIsSpaces(s: string, a: nat, b: nat)
    requires a <= b <= |s|
    requires OnlySpaces(s)
    requires forall k :: 0 <= k < a ==> IsWhitespace(s[k])
    requires forall k :: b <= k < |s| ==> IsWhitespace(s[k])
    ensures forall k :: 0 <= k < a ==> s[k] == ' '
    ensures forall k :: b <= k < |s| ==> s[k] == ' '
  {
  }

  lemma KeyHasNoSpaces(key: string)
    requires NoWhitespace(key)
    ensures forall k :: 0 <= k < |key| ==> key[k] != ' '
  {
    assert IsWhitespace(' ');
  }

  lemma LabelRoundTrip(key: string, spaced: string, a: nat, caption: string)
    requires NoWhitespace(key)
    requires spaced == SpaceBeforeCapitals(key)
    requires a + |caption| <= |spaced| && caption == spaced[a..a + |caption|]
    requires forall k :: 0 <= k < a ==> IsWhitespace(spaced[k])
    requires forall k :: a + |caption| <= k < |spaced| ==> IsWhitespace(spaced[k])
    ensures DeleteSpaces(caption) == key
  {
    var b := a + |caption|;
    SpacedWhitespace(key);
    WhitespaceIsSpaces(spaced, a, b);
    SpacesAround(spaced, a, b);
    SpacedDeleteSpaces(key);
    KeyHasNoSpaces(key);
    DeleteSpacesOfSpaceless(key);
  }

  /** A key with no capital letter is only trimmed. */
  lemma {:induction false} LabelOfUncapitalisedKey(key: string)
    requires forall k :: 0 <= k < |key| ==> !IsAsciiUpper(key[k])
    ensures MetricLabel(key) == Trim(key)
    ensures key != [] && !IsWhitespace(key[0]) && !IsWhitespace(key[|key| - 1]) ==> MetricLabel(key) == key
  {
    UncapitalisedUnchanged(key);
    if key != [] && !IsWhitespace(key[0]) && !IsWhitespace(key[|key| - 1]) {
      TrimOfUntrimmable(key);
    }
  }

  lemma {:induction false} UncapitalisedUnchanged(key: string)
    requires forall k :: 0 <= k < |key| ==> !IsAsciiUpper(key[k])
    ensures SpaceBeforeCapitals(key) == key
  {
    if key != [] {
      UncapitalisedUnchanged(key[1..]);
      assert key == [key[0]] + key[1..];
    }
  }

  // ---------------------------------------------------------------------------
  // Project numbers: String(idx + 1).padStart(2, '0')
  // ---------------------------------------------------------------------------

  predicate IsDigit(c: char) {
    '0' <= c <= '9'
  }

  predicate AllDigits(s: string) {
    forall k :: 0 <= k < |s| ==> IsDigit(s[k])
  }

  function DigitChar(d: nat): (c: char)
    requires d < 10
    ensures IsDigit(c)
  {
    ('0' as int + d) as char
  }

  /** The number a string of decimal digits denotes; leading zeros count for nothing. */
  function DigitsValue(s: string): nat
    requires AllDigits(s)
  {
    if s == [] then 0
    else 10 * DigitsValue(s[..|s| - 1]) + (s[|s| - 1] as int - '0' as int)
  }

  /** `String(n)` for a natural number: its shortest decimal numeral, which denotes `n`. */
  function Decimal(n: nat): (s: string)
    ensures |s| >= 1 && AllDigits(s)
    ensures s[0] == '0' <==> n == 0
    ensures |s| >= 2 <==> n >= 10
    ensures DigitsValue(s) == n
  {
    if n < 10 then
      [DigitChar(n)]
    else
      var s := Decimal(n / 10) + [DigitChar(n % 10)];
      assert s[..|s| - 1] == Decimal(n / 10);
      s
  }

  /** `s.padStart(width, fill)` for a one-character `fill`. */
  function PadStart(s: string, width: nat, fill: char): (r: string)
    ensures |r| == if |s| >= width then |s| else width
    ensures r[|r| - |s|..] == s
    ensures forall k :: 0 <= k < |r| - |s| ==> r[k] == fill
  {
    if |s| >= width then s else Repeat(fill, width - |s|) + s
  }

  /** Zeros written in front of a numeral do not change its value. */
  lemma {:induction false} LeadingZeros(zeros: string, s: string)
    requires forall k :: 0 <= k < |zeros| ==> zeros[k] == '0'
    requires AllDigits(s)
    ensures AllDigits(zeros + s) && DigitsValue(zeros + s) == DigitsValue(s)
    decreases |s|
  {
    var t := zeros + s;
    if s == [] {
      assert t == zeros;
      ZerosValue(zeros);
    } else {
      assert t[..|t| - 1] == zeros + s[..|s| - 1];
      LeadingZeros(zeros, s[..|s| - 1]);
    }
  }

  lemma {:induction false} ZerosValue(zeros: string)
    requires forall k :: 0 <= k < |zeros| ==> zeros[k] == '0'
    ensures AllDigits(zeros) && DigitsValue(zeros) == 0
  {
    if zeros != [] {
      ZerosValue(zeros[..|zeros| - 1]);
    }
  }

  /**
   * The number over the image of the card at position `idx`: at least two
   * digits, denoting `idx + 1`; one leading zero below ten and none from ten on.
   */
  function ProjectNumber(idx: nat): (caption: string)
    ensures |caption| >= 2 && AllDigits(caption)
    ensures DigitsValue(caption) == idx + 1
    ensures idx + 1 < 10 ==> caption == ['0', DigitChar(idx + 1)]
    ensures idx + 1 >= 10 ==> caption == Decimal(idx + 1)
  {
    var digits := Decimal(idx + 1);
    var caption := PadStart(digits, 2, '0');
    assert caption == caption[..|caption| - |digits|] + digits;
    LeadingZeros(caption[..|caption| - |digits|], digits);
    caption
  }

  // ---------------------------------------------------------------------------
  // Column order: idx % 2 === 1 ? 'lg:order-2' : '' (image), 'lg:order-1' (content)
  // ---------------------------------------------------------------------------

  datatype Column = Image | Content

  function ImageOrderClass(idx: nat): string {
    if idx % 2 == 1 then "lg:order-2" else ""
  }

  function ContentOrderClass(idx: nat): string {
    if idx % 2 == 1 then "lg:order-1" else ""
  }

  /** The CSS `order` an order class gives an item at the large breakpoint (0 when none). */
  function LargeOrder(classes: string): int {
    if classes == "lg:order-1" then 1
    else if classes == "lg:order-2" then 2
    else 0
  }

  /**
   * The columns of a card at the large breakpoint, left to right: grid items
   * go by ascending `order`, and equal orders keep the markup order (image first).
   */
  function LargeLayout(idx: nat): seq<Column> {
    if LargeOrder(ContentOrderClass(idx)) < LargeOrder(ImageOrderClass(idx))
    then [Content, Image]
    else [Image, Content]
  }

  /** Even cards show the image on the left, odd cards the content; neighbours differ. */
  lemma ColumnsAlternate(idx: nat)
    ensures LargeLayout(idx) == if idx % 2 == 0 then [Image, Content] else [Content, Image]
    ensures LargeLayout(idx + 1) == [LargeLayout(idx)[1], LargeLayout(idx)[0]]
  {
  }
}
