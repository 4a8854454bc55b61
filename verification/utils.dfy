/**
 * The identity generators: guest display names of the form
 * `<Adjective><Noun>#<4 digits>` and 6-character room codes over `A-Z0-9`.
 * Every `Math.random()` draw is taken as an index parameter; the range of
 * each index is the range `Math.floor(Math.random() * n)` can produce.
 */
module Utils {
  import opened Wrappers
  import opened Text

  const Adjectives: seq<string> := ["Swift", "Bright", "Clever", "Witty", "Charming", "Bold", "Calm", "Eager"]
  const Nouns: seq<string> := ["Panda", "Eagle", "Dolphin", "Phoenix", "Tiger", "Wolf", "Lion", "Bear"]

  /** The number of values the numeric draw can take: `Math.floor(Math.random() * 9999)` is below it. */
  const NumberRange: nat := 9999

  predicate NoHash(s: string) {
    forall k :: 0 <= k < |s| ==> s[k] != '#'
  }

  /** No word of either list contains `#`, and no two adjectives share their first two letters. */
  lemma WordListsFacts()
    ensures forall i :: 0 <= i < |Adjectives| ==> NoHash(Adjectives[i])
    ensures forall i :: 0 <= i < |Nouns| ==> NoHash(Nouns[i])
    ensures forall i :: 0 <= i < |Adjectives| ==> |Adjectives[i]| >= 2
    ensures forall i, j :: 0 <= i < j < |Adjectives| ==>
              Adjectives[i][0] != Adjectives[j][0] || Adjectives[i][1] != Adjectives[j][1]
  {
  }

  /** The suffix: `num.toString().padStart(4, '0')`. For 1..9999 it is four digits that read back as `num`. */
  function Suffix(num: nat): (r: string)
    requires 1 <= num <= NumberRange
    ensures |r| == 4 && AllDigits(r) && ParseDecimal(r) == num
    ensures r != "0000"
  {
    var d := DecimalString(num);
    DecimalStringShort(num);
    ParseDecimalString(num);
    ParseLeadingZeros(4 - |d|, d);
    assert PadStart(d, 4, '0') == Repeat('0', 4 - |d|) + d;
    PadStart(d, 4, '0')
  }

  /**
   * `generateGuestName()` with its three draws as indices: an adjective,
   * then a noun, then `#`, then the draw plus one as four zero-padded
   * digits. The `#` is the only one in the name and sits five from the
   * end; the digits read back as a number in 1..9999.
   */
  function GuestName(adjDraw: nat, nounDraw: nat, numDraw: nat): (name: string)
    requires adjDraw < |Adjectives| && nounDraw < |Nouns| && numDraw < NumberRange
    ensures |name| >= 5 && name[|name| - 5] == '#'
    ensures forall i :: 0 <= i < |name| ==> (name[i] == '#' <==> i == |name| - 5)
    ensures name[..|name| - 5] == Adjectives[adjDraw] + Nouns[nounDraw]
    ensures AllDigits(name[|name| - 4..])
    ensures 1 <= ParseDecimal(name[|name| - 4..]) == numDraw + 1 <= NumberRange
  {
    var word := Adjectives[adjDraw] + Nouns[nounDraw];
    var suffix := Suffix(numDraw + 1);
    var name := word + "#" + suffix;
    WordListsFacts();
    assert name[..|name| - 5] == word;
    assert name[|name| - 4..] == suffix;
    assert forall i :: 0 <= i < |word| ==> word[i] != '#' by {
      forall i | 0 <= i < |word| ensures word[i] != '#' {
        if i >= |Adjectives[adjDraw]| {
          assert word[i] == Nouns[nounDraw][i - |Adjectives[adjDraw]|];
        }
      }
    }
    assert forall i :: |name| - 4 <= i < |name| ==> name[i] == suffix[i - (|name| - 4)];
    name
  }

  /** The first index at which `words` holds `w`. */
  function IndexOf(words: seq<string>, w: string): (r: Option<nat>)
    ensures r.Some? ==> r.value < |words| && words[r.value] == w
    ensures r.None? ==> w !in words
  {
    if words == [] then None
    else if words[0] == w then Some(0)
    else match IndexOf(words[1..], w)
      case Some(i) => Some(i + 1)
      case None => None
  }

  /** Splits a word part into an adjective index and a noun index, trying adjectives from index `from` on. */
  function SplitWords(word: string, from: nat): (r: Option<(nat, nat)>)
    requires from <= |Adjectives|
    ensures r.Some? ==> r.value.0 < |Adjectives| && r.value.1 < |Nouns|
                        && word == Adjectives[r.value.0] + Nouns[r.value.1]
    decreases |Adjectives| - from
  {
    if from == |Adjectives| then None
    else
      var adj := Adjectives[from];
      if adj <= word then
        match IndexOf(Nouns, word[|adj|..])
        case Some(n) =>
          assert word == adj + word[|adj|..];
          Some((from, n))
        case None => SplitWords(word, from + 1)
      else SplitWords(word, from + 1)
  }

  /**
   * Reads a guest name back into the adjective index, the noun index and
   * the number; `None` when the text does not have the guest-name shape.
   */
  function ParseGuestName(name: string): (r: Option<(nat, nat, nat)>)
    ensures r.Some? ==> r.value.0 < |Adjectives| && r.value.1 < |Nouns|
  {
    if |name| < 5 || name[|name| - 5] != '#' || !AllDigits(name[|name| - 4..]) then None
    else match SplitWords(name[..|name| - 5], 0)
      case Some((a, n)) => Some((a, n, ParseDecimal(name[|name| - 4..])))
      case None => None
  }

  /** With `a` the right adjective, `SplitWords` finds it before any other. */
  lemma {:induction false} SplitWordsFinds(a: nat, n: nat, from: nat)
    requires a < |Adjectives| && n < |Nouns| && from <= a
    ensures SplitWords(Adjectives[a] + Nouns[n], from) == Some((a, n))
    decreases a - from
  {
    var word := Adjectives[a] + Nouns[n];
    WordListsFacts();
    var adj := Adjectives[from];
    if from == a {
      assert word[|adj|..] == Nouns[n];
      assert forall j :: 0 <= j < |Nouns| && Nouns[j] == Nouns[n] ==> j == n;
      assert IndexOf(Nouns, Nouns[n]) == Some(n);
    } else {
      assert word[0] == Adjectives[a][0] && word[1] == Adjectives[a][1];
      assert !(adj <= word);
      SplitWordsFinds(a, n, from + 1);
    }
  }

  /** A generated guest name reads back as the draws that made it (with the number one above its draw). */
  lemma GuestNameRoundTrip(adjDraw: nat, nounDraw: nat, numDraw: nat)
    requires adjDraw < |Adjectives| && nounDraw < |Nouns| && numDraw < NumberRange
    ensures ParseGuestName(GuestName(adjDraw, nounDraw, numDraw)) == Some((adjDraw, nounDraw, numDraw + 1))
  {
    var name := GuestName(adjDraw, nounDraw, numDraw);
    SplitWordsFinds(adjDraw, nounDraw, 0);
  }

  /** Two guest names are equal exactly when they come from the same three draws. */
  lemma GuestNameInjective(a1: nat, n1: nat, d1: nat, a2: nat, n2: nat, d2: nat)
    requires a1 < |Adjectives| && n1 < |Nouns| && d1 < NumberRange
    requires a2 < |Adjectives| && n2 < |Nouns| && d2 < NumberRange
    ensures GuestName(a1, n1, d1) == GuestName(a2, n2, d2) <==> a1 == a2 && n1 == n2 && d1 == d2
  {
    if GuestName(a1, n1, d1) == GuestName(a2, n2, d2) {
      GuestNameRoundTrip(a1, n1, d1);
      GuestNameRoundTrip(a2, n2, d2);
    }
  }

  const RoomIdChars: string := "ABCDEFGHIJKLMNOPQRSTUVWXYZ0123456789"
  const RoomIdLength: nat := 6

  predicate IsRoomIdChar(c: char) {
    'A' <= c <= 'Z' || '0' <= c <= '9'
  }

  /** A room code: six characters, each an upper-case ASCII letter or a decimal digit. */
  predicate IsRoomId(s: string) {
    |s| == RoomIdLength && forall i :: 0 <= i < |s| ==> IsRoomIdChar(s[i])
  }

  /** The alphabet is the 26 letters followed by the 10 digits, with no repeats. */
  lemma RoomIdCharsLayout()
    ensures |RoomIdChars| == 36
    ensures forall i :: 0 <= i < 26 ==> RoomIdChars[i] as int == 'A' as int + i
    ensures forall i :: 26 <= i < 36 ==> RoomIdChars[i] as int == '0' as int + (i - 26)
  {
  }

  /** The alphabet position of a code character: the inverse of indexing `RoomIdChars`. */
  function RoomIdCharIndex(c: char): (i: nat)
    requires IsRoomIdChar(c)
    ensures i < |RoomIdChars| && RoomIdChars[i] == c
  {
    RoomIdCharsLayout();
    if 'A' <= c <= 'Z' then c as int - 'A' as int else 26 + (c as int - '0' as int)
  }

  predicate ValidDraws(draws: seq<nat>) {
    forall i :: 0 <= i < |draws| ==> draws[i] < |RoomIdChars|
  }

  /** The code spelt by a sequence of alphabet draws, one character per draw. */
  function RoomIdFrom(draws: seq<nat>): (id: string)
    requires ValidDraws(draws)
    ensures |id| == |draws|
    ensures forall i :: 0 <= i < |id| ==> id[i] == RoomIdChars[draws[i]] && IsRoomIdChar(id[i])
  {
    RoomIdCharsLayout();
    if draws == [] then [] else RoomIdFrom(draws[..|draws| - 1]) + [RoomIdChars[draws[|draws| - 1]]]
  }

  /**
   * `generateRoomId()` with its six draws as indices into the alphabet:
   * the `for` loop appends one character per draw.
   */
  method GenerateRoomId(draws: seq<nat>) returns (id: string)
    requires |draws| == RoomIdLength && ValidDraws(draws)
    ensures id == RoomIdFrom(draws) && IsRoomId(id)
  {
    id := "";
    for i := 0 to RoomIdLength
      invariant id == RoomIdFrom(draws[..i])
    {
      assert draws[..i + 1][..i] == draws[..i];
      id := id + [RoomIdChars[draws[i]]];
    }
    assert draws[..RoomIdLength] == draws;
  }

  /** Different draws give different codes. */
  lemma RoomIdFromInjective(d1: seq<nat>, d2: seq<nat>)
    requires ValidDraws(d1) && ValidDraws(d2)
    ensures RoomIdFrom(d1) == RoomIdFrom(d2) <==> d1 == d2
  {
    if RoomIdFrom(d1) == RoomIdFrom(d2) {
      RoomIdCharsLayout();
      forall i | 0 <= i < |d1| ensures d1[i] == d2[i] {
        assert RoomIdChars[d1[i]] == RoomIdChars[d2[i]];
      }
    }
  }

  /** Every six-character code over the alphabet is what some six draws generate. */
  lemma EveryRoomIdIsGenerated(s: string)
    requires IsRoomId(s)
    ensures exists draws :: |draws| == RoomIdLength && ValidDraws(draws) && RoomIdFrom(draws) == s
  {
    var draws := seq(|s|, i requires 0 <= i < |s| => RoomIdCharIndex(s[i]));
    assert RoomIdFrom(draws) == s;
  }
}
