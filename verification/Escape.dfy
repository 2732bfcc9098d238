/** Value escaping (src/atsq/escape.py): eleven ordered replacements one way, one index loop back. */
module Escape {
  import opened Sequences

  const BACKSLASH: char := '\\'

  /** The escape table, in its order: a raw character and the letter that follows the backslash. */
  const ESCAPE_MAP: seq<(char, char)> := [
    ('\\', '\\'), ('/', '/'), (' ', 's'), ('|', 'p'),
    ('\U{7}', 'a'), ('\U{8}', 'b'), ('\U{C}', 'f'), ('\n', 'n'),
    ('\r', 'r'), ('\t', 't'), ('\U{B}', 'v')]

  /** The letter that the first `k` table entries give to `c`. */
  function LetterBelow(k: nat, c: char): Option<char>
    requires k <= |ESCAPE_MAP|
  {
    if k == 0 then None
    else if ESCAPE_MAP[k - 1].0 == c then Some(ESCAPE_MAP[k - 1].1)
    else LetterBelow(k - 1, c)
  }

  function Letter(c: char): Option<char> {
    LetterBelow(|ESCAPE_MAP|, c)
  }

  /** The reversed table: what the letter after a backslash stands for. */
  function RawBelow(k: nat, letter: char): Option<char>
    requires k <= |ESCAPE_MAP|
  {
    if k == 0 then None
    else if ESCAPE_MAP[k - 1].1 == letter then Some(ESCAPE_MAP[k - 1].0)
    else RawBelow(k - 1, letter)
  }

  function Raw(letter: char): Option<char> {
    RawBelow(|ESCAPE_MAP|, letter)
  }

  /** What one character becomes once the first `k` replacements have run. */
  function EscapedCharBelow(k: nat, c: char): string
    requires k <= |ESCAPE_MAP|
  {
    match LetterBelow(k, c)
    case Some(letter) => [BACKSLASH, letter]
    case None => [c]
  }

  function EscapedBelow(k: nat, s: string): string
    requires k <= |ESCAPE_MAP|
  {
    if |s| == 0 then "" else EscapedCharBelow(k, s[0]) + EscapedBelow(k, s[1..])
  }

  /** The one-pass character map. */
  function Escaped(s: string): string {
    EscapedBelow(|ESCAPE_MAP|, s)
  }

  /** The left-to-right reading of escaped text. */
  function Unescaped(v: string): string {
    if |v| == 0 then ""
    else if v[0] == BACKSLASH && |v| >= 2 && Raw(v[1]).Some? then [Raw(v[1]).value] + Unescaped(v[2..])
    else [v[0]] + Unescaped(v[1..])
  }

  /** `str.replace` of a single character. */
  function Replace(s: string, c: char, with: string): string {
    if |s| == 0 then "" else (if s[0] == c then with else [s[0]]) + Replace(s[1..], c, with)
  }

  /** No raw special character, and every backslash starts a table escape. */
  predicate Canonical(v: string) {
    |v| == 0
    || (v[0] == BACKSLASH && |v| >= 2 && Raw(v[1]).Some? && Canonical(v[2..]))
    || (Letter(v[0]).None? && Canonical(v[1..]))
  }

  lemma {:induction false} ReplaceConcat(a: string, b: string, c: char, with: string)
    ensures Replace(a + b, c, with) == Replace(a, c, with) + Replace(b, c, with)
  {
    if |a| == 0 {
      assert a + b == b;
    } else {
      ReplaceConcat(a[1..], b, c, with);
      TailOfConcat(a, b);
      Regroup(if a[0] == c then with else [a[0]], Replace(a[1..], c, with), Replace(b, c, with));
    }
  }

  /** Entry `k` never matches inside a replacement made by an earlier entry: backslash is entry 0. */
  lemma {:induction false} LaterRawNotInEarlierEscape(k: nat, c: char)
    requires k < |ESCAPE_MAP|
    ensures LetterBelow(k, c).Some? ==> ESCAPE_MAP[k].0 !in [BACKSLASH, LetterBelow(k, c).value]
    ensures LetterBelow(k, ESCAPE_MAP[k].0).None?
  {
    EarlierEntries(k, c);
    EarlierEntries(k, ESCAPE_MAP[k].0);
  }

  lemma {:induction false} EarlierEntries(k: nat, c: char)
    requires k <= |ESCAPE_MAP|
    ensures LetterBelow(k, c).Some? ==>
              exists j :: 0 <= j < k && ESCAPE_MAP[j].0 == c && LetterBelow(k, c).value == ESCAPE_MAP[j].1
  {
    if k > 0 && ESCAPE_MAP[k - 1].0 != c {
      EarlierEntries(k - 1, c);
    }
  }

  /** One replacement pass over text on which the first `k` passes have run. */
  lemma {:induction false} PassExtends(k: nat, s: string)
    requires k < |ESCAPE_MAP|
    ensures Replace(EscapedBelow(k, s), ESCAPE_MAP[k].0, [BACKSLASH, ESCAPE_MAP[k].1]) == EscapedBelow(k + 1, s)
  {
    if |s| == 0 {
    } else {
      var (raw, letter) := ESCAPE_MAP[k];
      var head := EscapedCharBelow(k, s[0]);
      ReplaceConcat(head, EscapedBelow(k, s[1..]), raw, [BACKSLASH, letter]);
      PassExtends(k, s[1..]);
      LaterRawNotInEarlierEscape(k, s[0]);
      ReplaceShort(head, raw, [BACKSLASH, letter]);
    }
  }

  lemma {:induction false} ReplaceShort(s: string, c: char, with: string)
    requires |s| <= 2
    ensures c !in s ==> Replace(s, c, with) == s
    ensures s == [c] ==> Replace(s, c, with) == with
  {
    if |s| == 2 {
      assert s[1..][1..] == "";
      assert s == [s[0]] + [s[1]];
      assert c !in s ==> Replace(s[1..], c, with) == [s[1]] + Replace(s[1..][1..], c, with);
    }
  }

  lemma {:induction false} NoPassIsIdentity(s: string)
    ensures EscapedBelow(0, s) == s
  {
    if |s| == 0 {
    } else {
      NoPassIsIdentity(s[1..]);
    }
  }

  /** The source's loop over the table. */
  method EscapeValue(value: string) returns (r: string)
    ensures r == Escaped(value)
  {
    r := value;
    NoPassIsIdentity(value);
    for k := 0 to |ESCAPE_MAP|
      invariant r == EscapedBelow(k, value)
    {
      var (raw, letter) := ESCAPE_MAP[k];
      PassExtends(k, value);
      r := Replace(r, raw, [BACKSLASH, letter]);
    }
  }

  /** The source's index loop, with its shortcut for text that has no backslash. */
  method UnescapeValue(value: string) returns (r: string)
    ensures r == Unescaped(value)
  {
    if BACKSLASH !in value {
      UnescapedWithoutBackslash(value);
      return value;
    }
    r := "";
    var i := 0;
    while i < |value|
      invariant 0 <= i <= |value|
      invariant Unescaped(value) == r + Unescaped(value[i..])
    {
      var c := value[i];
      if c == BACKSLASH && i + 1 < |value| {
        var mapped := Raw(value[i + 1]);
        if mapped.Some? {
          assert value[i..][2..] == value[i + 2..];
          Regroup(r, [mapped.value], Unescaped(value[i + 2..]));
          r := r + [mapped.value];
          i := i + 2;
          continue;
        }
      }
      assert value[i..][1..] == value[i + 1..];
      Regroup(r, [c], Unescaped(value[i + 1..]));
      r := r + [c];
      i := i + 1;
    }
  }

  lemma {:induction false} UnescapedWithoutBackslash(v: string)
    requires BACKSLASH !in v
    ensures Unescaped(v) == v
  {
    if |v| == 0 {
    } else {
      UnescapedWithoutBackslash(v[1..]);
    }
  }

  /** No raw character and no letter stands twice in the table. */
  lemma {:induction false} TableIsOneToOne()
    ensures forall k :: 0 <= k < |ESCAPE_MAP| ==>
              Letter(ESCAPE_MAP[k].0) == Some(ESCAPE_MAP[k].1) && Raw(ESCAPE_MAP[k].1) == Some(ESCAPE_MAP[k].0)
  {
    forall k | 0 <= k < |ESCAPE_MAP|
      ensures Letter(ESCAPE_MAP[k].0) == Some(ESCAPE_MAP[k].1) && Raw(ESCAPE_MAP[k].1) == Some(ESCAPE_MAP[k].0)
    {
      FoundAbove(k, |ESCAPE_MAP|);
    }
  }

  lemma {:induction false} FoundAbove(k: nat, n: nat)
    requires k < n <= |ESCAPE_MAP|
    ensures LetterBelow(n, ESCAPE_MAP[k].0) == Some(ESCAPE_MAP[k].1)
    ensures RawBelow(n, ESCAPE_MAP[k].1) == Some(ESCAPE_MAP[k].0)
  {
    if k < n - 1 {
      FoundAbove(k, n - 1);
    }
  }

  lemma {:induction false} LetterOfRaw(letter: char)
    ensures Raw(letter).Some? ==> Letter(Raw(letter).value) == Some(letter)
  {
    RawEntries(|ESCAPE_MAP|, letter);
    TableIsOneToOne();
  }

  lemma {:induction false} RawEntries(k: nat, letter: char)
    requires k <= |ESCAPE_MAP|
    ensures RawBelow(k, letter).Some? ==>
              exists j :: 0 <= j < k && ESCAPE_MAP[j].1 == letter && RawBelow(k, letter).value == ESCAPE_MAP[j].0
  {
    if k > 0 && ESCAPE_MAP[k - 1].1 != letter {
      RawEntries(k - 1, letter);
    }
  }

  lemma {:induction false} RawOfLetter(c: char)
    ensures Letter(c).Some? ==> Raw(Letter(c).value) == Some(c)
    ensures c == BACKSLASH ==> Letter(c).Some?
  {
    EarlierEntries(|ESCAPE_MAP|, c);
    TableIsOneToOne();
    assert ESCAPE_MAP[0].0 == BACKSLASH;
  }

  /** Escaping then unescaping gives every text back. */
  lemma {:induction false} UnescapeInvertsEscape(s: string)
    ensures Unescaped(Escaped(s)) == s
  {
    if |s| == 0 {
    } else {
      RawOfLetter(s[0]);
      UnescapeInvertsEscape(s[1..]);
      var head := EscapedCharBelow(|ESCAPE_MAP|, s[0]);
      assert (head + Escaped(s[1..]))[|head|..] == Escaped(s[1..]);
    }
  }

  lemma {:induction false} EscapedIsCanonical(s: string)
    ensures Canonical(Escaped(s))
  {
    if |s| == 0 {
    } else {
      RawOfLetter(s[0]);
      EscapedIsCanonical(s[1..]);
      var head := EscapedCharBelow(|ESCAPE_MAP|, s[0]);
      assert (head + Escaped(s[1..]))[|head|..] == Escaped(s[1..]);
    }
  }

  lemma {:induction false} EscapeInvertsUnescapeOnCanonical(v: string)
    requires Canonical(v)
    ensures Escaped(Unescaped(v)) == v
  {
    if |v| == 0 {
    } else if v[0] == BACKSLASH && |v| >= 2 && Raw(v[1]).Some? && Canonical(v[2..]) {
      LetterOfRaw(v[1]);
      EscapeInvertsUnescapeOnCanonical(v[2..]);
      assert [v[0], v[1]] + v[2..] == v;
    } else {
      RawOfLetter(v[0]);
      EscapeInvertsUnescapeOnCanonical(v[1..]);
      assert [v[0]] + v[1..] == v;
    }
  }

  /** Escaping undoes unescaping exactly on the canonical texts. */
  lemma {:induction false} EscapeInvertsUnescape(v: string)
    ensures Escaped(Unescaped(v)) == v <==> Canonical(v)
  {
    if Canonical(v) {
      EscapeInvertsUnescapeOnCanonical(v);
    } else {
      EscapedIsCanonical(Unescaped(v));
    }
  }

  /** Escaped text holds none of the characters that structure a line. */
  lemma {:induction false} EscapedHasNoStructure(s: string, c: char)
    requires c in [' ', '|', '\n', '\r']
    ensures c !in Escaped(s)
  {
    if |s| == 0 {
    } else {
      EscapedHasNoStructure(s[1..], c);
      EarlierEntries(|ESCAPE_MAP|, s[0]);
      TableIsOneToOne();
      assert ESCAPE_MAP[2].0 == ' ' && ESCAPE_MAP[3].0 == '|' && ESCAPE_MAP[7].0 == '\n' && ESCAPE_MAP[8].0 == '\r';
      assert c !in EscapedCharBelow(|ESCAPE_MAP|, s[0]);
    }
  }

  // ----- The table, letter by letter -----

  lemma {:induction false} EscapedBelowConcat(k: nat, a: string, b: string)
    requires k <= |ESCAPE_MAP|
    ensures EscapedBelow(k, a + b) == EscapedBelow(k, a) + EscapedBelow(k, b)
  {
    if |a| == 0 {
      assert a + b == b;
    } else {
      EscapedBelowConcat(k, a[1..], b);
      TailOfConcat(a, b);
      Regroup(EscapedCharBelow(k, a[0]), EscapedBelow(k, a[1..]), EscapedBelow(k, b));
    }
  }

  /** Escaping goes character by character. */
  lemma {:induction false} EscapedConcat(a: string, b: string)
    ensures Escaped(a + b) == Escaped(a) + Escaped(b)
  {
    EscapedBelowConcat(|ESCAPE_MAP|, a, b);
  }

  lemma {:induction false} EscapedOne(c: char)
    ensures Escaped([c]) == match Letter(c) case Some(letter) => [BACKSLASH, letter] case None => [c]
  {
    assert [c][1..] == "";
    assert EscapedBelow(|ESCAPE_MAP|, "") == "";
  }

  lemma {:induction false} EntriesAre()
    ensures Letter('\\') == Some('\\') && Letter('/') == Some('/')
    ensures Letter(' ') == Some('s') && Letter('|') == Some('p')
    ensures Letter('\U{7}') == Some('a') && Letter('\U{8}') == Some('b') && Letter('\U{C}') == Some('f')
    ensures Letter('\n') == Some('n') && Letter('\r') == Some('r')
    ensures Letter('\t') == Some('t') && Letter('\U{B}') == Some('v')
  {
    TableIsOneToOne();
    assert ESCAPE_MAP[0] == ('\\', '\\') && ESCAPE_MAP[1] == ('/', '/');
    assert ESCAPE_MAP[2] == (' ', 's') && ESCAPE_MAP[3] == ('|', 'p');
    assert ESCAPE_MAP[4] == ('\U{7}', 'a') && ESCAPE_MAP[5] == ('\U{8}', 'b') && ESCAPE_MAP[6] == ('\U{C}', 'f');
    assert ESCAPE_MAP[7] == ('\n', 'n') && ESCAPE_MAP[8] == ('\r', 'r');
    assert ESCAPE_MAP[9] == ('\t', 't') && ESCAPE_MAP[10] == ('\U{B}', 'v');
  }

  /** The eleven characters that the ServerQuery manual escapes, as it escapes them. */
  lemma {:induction false} SpecialsEscaped()
    ensures Escaped("\\") == "\\\\" && Escaped("/") == "\\/"
    ensures Escaped(" ") == "\\s" && Escaped("|") == "\\p"
    ensures Escaped("\U{7}") == "\\a" && Escaped("\U{8}") == "\\b" && Escaped("\U{C}") == "\\f"
    ensures Escaped("\n") == "\\n" && Escaped("\r") == "\\r"
    ensures Escaped("\t") == "\\t" && Escaped("\U{B}") == "\\v"
  {
    EntriesAre();
    EscapedOne('\\');
    EscapedOne('/');
    EscapedOne(' ');
    EscapedOne('|');
    EscapedOne('\U{7}');
    EscapedOne('\U{8}');
    EscapedOne('\U{C}');
    EscapedOne('\n');
    EscapedOne('\r');
    EscapedOne('\t');
    EscapedOne('\U{B}');
  }

  predicate IsSpecial(c: char) {
    c in "\\/ |\U{7}\U{8}\U{C}\n\r\t\U{B}"
  }

  lemma {:induction false} SpecialsAreEntries(c: char)
    ensures Letter(c).Some? ==> IsSpecial(c)
  {
    EarlierEntries(|ESCAPE_MAP|, c);
  }

  /** Every other character stands for itself. */
  lemma {:induction false} OthersNotEscaped(c: char)
    requires !IsSpecial(c)
    ensures Escaped([c]) == [c]
  {
    SpecialsAreEntries(c);
    EscapedOne(c);
  }

  lemma {:induction false} PlainNotEscaped(s: string)
    requires forall i :: 0 <= i < |s| ==> !IsSpecial(s[i])
    ensures Escaped(s) == s
  {
    if |s| == 0 {
    } else {
      OthersNotEscaped(s[0]);
      PlainNotEscaped(s[1..]);
      EscapedConcat([s[0]], s[1..]);
      assert [s[0]] + s[1..] == s;
    }
  }

  lemma {:induction false} UnescapedEntry(letter: char, raw: char, rest: string)
    requires Letter(raw) == Some(letter)
    ensures Unescaped([BACKSLASH, letter] + rest) == [raw] + Unescaped(rest)
  {
    RawOfLetter(raw);
    assert ([BACKSLASH, letter] + rest)[2..] == rest;
  }

  /** The eleven escapes, each wherever it stands, give their characters back. */
  lemma {:induction false} EscapesRead(rest: string)
    ensures Unescaped("\\\\" + rest) == "\\" + Unescaped(rest) && Unescaped("\\/" + rest) == "/" + Unescaped(rest)
    ensures Unescaped("\\s" + rest) == " " + Unescaped(rest) && Unescaped("\\p" + rest) == "|" + Unescaped(rest)
    ensures Unescaped("\\a" + rest) == "\U{7}" + Unescaped(rest) && Unescaped("\\b" + rest) == "\U{8}" + Unescaped(rest)
    ensures Unescaped("\\f" + rest) == "\U{C}" + Unescaped(rest) && Unescaped("\\n" + rest) == "\n" + Unescaped(rest)
    ensures Unescaped("\\r" + rest) == "\r" + Unescaped(rest) && Unescaped("\\t" + rest) == "\t" + Unescaped(rest)
    ensures Unescaped("\\v" + rest) == "\U{B}" + Unescaped(rest)
  {
    EntriesAre();
    UnescapedEntry('\\', '\\', rest);
    UnescapedEntry('/', '/', rest);
    UnescapedEntry('s', ' ', rest);
    UnescapedEntry('p', '|', rest);
    UnescapedEntry('a', '\U{7}', rest);
    UnescapedEntry('b', '\U{8}', rest);
    UnescapedEntry('f', '\U{C}', rest);
    UnescapedEntry('n', '\n', rest);
    UnescapedEntry('r', '\r', rest);
    UnescapedEntry('t', '\t', rest);
    UnescapedEntry('v', '\U{B}', rest);
  }

  /**
   All else is kept: any character but a backslash, a backslash before any other character, and a
   backslash at the end.
   */
  lemma {:induction false} OthersRead(c: char, rest: string)
    ensures c != BACKSLASH ==> Unescaped([c] + rest) == [c] + Unescaped(rest)
    ensures c !in "\\/spabfnrtv" ==> Unescaped("\\" + [c] + rest) == "\\" + [c] + Unescaped(rest)
    ensures Unescaped("\\") == "\\" && Unescaped("") == ""
  {
    assert ([c] + rest)[1..] == rest;
    assert "\\"[1..] == "";
    if c !in "\\/spabfnrtv" {
      RawEntries(|ESCAPE_MAP|, c);
      LettersAre(c);
      var v := "\\" + [c] + rest;
      assert v[1..] == [c] + rest;
      Regroup("\\", [c], Unescaped(rest));
    }
  }

  lemma {:induction false} LettersAre(letter: char)
    ensures Raw(letter).Some? ==> letter in "\\/spabfnrtv"
  {
    RawEntries(|ESCAPE_MAP|, letter);
  }
}
