/** The server's flood hint (src/atsq/errors.py): `wait <digits> second` anywhere in the extra message. */
module Flood {
  import opened Sequences
  import opened Protocol

  const FLOOD_ERROR_ID := 524

  function DigitRun(s: string): (n: nat)
    ensures n <= |s|
    ensures forall i :: 0 <= i < n ==> '0' <= s[i] <= '9'
    ensures n < |s| ==> !('0' <= s[n] <= '9')
  {
    if |s| > 0 && '0' <= s[0] <= '9' then 1 + DigitRun(s[1..]) else 0
  }

  /** The pattern matched at the start of `s`. */
  function HintAt(s: string): Option<nat> {
    if "wait " <= s then
      var rest := s[5..];
      var n := DigitRun(rest);
      if n > 0 && " second" <= rest[n..] then Some(DigitsValue(rest[..n])) else None
    else None
  }

  /** The leftmost match. */
  function FindHint(s: string): Option<nat> {
    if HintAt(s).Some? then HintAt(s) else if |s| == 0 then None else FindHint(s[1..])
  }

  /** Seconds to wait before trying again: the server's number, or one. */
  function RetryAfter(error: ErrorLine): real {
    var text := if "extra_msg" in error.extra then error.extra["extra_msg"] else "";
    match FindHint(text)
    case Some(n) => n as real
    case None => 1.0
  }

  /** Decimal digits of a number. */
  function Decimal(n: nat): (s: string)
    ensures AllDigits(s) && DigitsValue(s) == n
  {
    var digit := ('0' as int + n % 10) as char;
    if n < 10 then [digit] else
      var front := Decimal(n / 10);
      assert (front + [digit])[..|front|] == front;
      front + [digit]
  }

  lemma {:induction false} DigitRunStops(digits: string, rest: string)
    requires forall i :: 0 <= i < |digits| ==> '0' <= digits[i] <= '9'
    requires |rest| > 0 && !('0' <= rest[0] <= '9')
    ensures DigitRun(digits + rest) == |digits|
  {
    var s := digits + rest;
    if |digits| == 0 {
    } else {
      DigitRunStops(digits[1..], rest);
      assert s[1..] == digits[1..] + rest;
    }
  }

  lemma {:induction false} HintSkips(prefix: string, s: string)
    requires 'w' !in prefix && HintAt(s).Some?
    ensures FindHint(prefix + s) == HintAt(s)
  {
    if |prefix| == 0 {
      assert prefix + s == s;
    } else {
      HintSkips(prefix[1..], s);
      assert (prefix + s)[1..] == prefix[1..] + s;
      assert (prefix + s)[0] == prefix[0] != 'w';
      assert !("wait " <= prefix + s);
    }
  }

  /** The phrase both server generations send is understood, for every number of seconds. */
  lemma {:induction false} ServerPhraseIsUnderstood(n: nat)
    ensures FindHint("please " + ("wait " + (Decimal(n) + " seconds"))) == Some(n)
  {
    var s := "wait " + (Decimal(n) + " seconds");
    var rest := s[5..];
    assert rest == Decimal(n) + " seconds";
    DigitRunStops(Decimal(n), " seconds");
    assert rest[|Decimal(n)|..] == " seconds";
    assert " second" <= " seconds";
    assert rest[..|Decimal(n)|] == Decimal(n);
    HintSkips("please ", s);
  }

  // ----- The pattern, and what becomes of its number -----

  /** The pattern at the beginning of a text: a number of seconds to wait. */
  function Hint(digits: string, tail: string): string {
    "wait " + (digits + (" second" + tail))
  }

  /** The pattern stands behind `before`. */
  predicate HintStands(s: string, before: string, digits: string, tail: string) {
    AllDigits(digits) && s == before + Hint(digits, tail)
  }

  lemma {:induction false} HintAtStart(digits: string, tail: string)
    requires AllDigits(digits)
    ensures HintAt(Hint(digits, tail)) == Some(DigitsValue(digits))
  {
    var s, end := Hint(digits, tail), " second" + tail;
    assert s[5..] == digits + end;
    DigitRunStops(digits, end);
    assert (digits + end)[|digits|..] == end && (digits + end)[..|digits|] == digits;
    assert " second" <= end;
  }

  lemma {:induction false} StartIsHint(s: string) returns (digits: string, tail: string)
    requires HintAt(s).Some?
    ensures HintStands(s, "", digits, tail)
  {
    var rest := s[5..];
    var n := DigitRun(rest);
    digits, tail := rest[..n], rest[n + 7..];
    assert rest == digits + rest[n..];
    assert rest[n..] == " second" + tail;
    assert s == "wait " + rest;
    assert "" + Hint(digits, tail) == Hint(digits, tail);
  }

  /** The pattern stands nowhere before the `n`-th character. */
  ghost predicate NoneBefore(s: string, n: nat) {
    forall before: string, digits: string, tail: string ::
      |before| < n ==> !HintStands(s, before, digits, tail)
  }

  lemma {:induction false} NoneBeforeInRest(s: string, n: nat)
    requires |s| > 0 && n > 0 && NoneBefore(s, n)
    ensures HintAt(s) == None && NoneBefore(s[1..], n - 1)
  {
    if HintAt(s).Some? {
      var digits, tail := StartIsHint(s);
      assert false;
    }
    forall before: string, digits: string, tail: string | |before| < n - 1
      ensures !HintStands(s[1..], before, digits, tail)
    {
      var longer := [s[0]] + before;
      assert !HintStands(s, longer, digits, tail);
      assert longer + Hint(digits, tail) == [s[0]] + (before + Hint(digits, tail));
      assert s == [s[0]] + s[1..];
    }
  }

  /** The search finds the leftmost place where the pattern stands, and its number. */
  lemma {:induction false} HintFound(s: string, before: string, digits: string, tail: string)
    requires HintStands(s, before, digits, tail) && NoneBefore(s, |before|)
    ensures FindHint(s) == Some(DigitsValue(digits))
  {
    if |before| == 0 {
      assert s == Hint(digits, tail);
      HintAtStart(digits, tail);
    } else {
      NoneBeforeInRest(s, |before|);
      TailOfConcat(before, Hint(digits, tail));
      HintFound(s[1..], before[1..], digits, tail);
    }
  }

  /** Where the pattern stands nowhere, nothing is found. */
  lemma {:induction false} NoHintFound(s: string)
    requires NoneBefore(s, |s| + 1)
    ensures FindHint(s) == None
  {
    if |s| == 0 {
    } else {
      NoneBeforeInRest(s, |s| + 1);
      NoHintFound(s[1..]);
    }
  }

  /** The server's phrase makes the client wait the number of seconds it says. */
  lemma {:induction false} PhraseIsWaitedFor(error: ErrorLine, n: nat)
    requires "extra_msg" in error.extra && error.extra["extra_msg"] == "please " + ("wait " + (Decimal(n) + " seconds"))
    ensures RetryAfter(error) == n as real
  {
    ServerPhraseIsUnderstood(n);
  }

  /** Without a message, or without the pattern in it, the client waits one second. */
  lemma {:induction false} NoPhraseWaitsASecond(error: ErrorLine)
    requires "extra_msg" in error.extra ==> NoneBefore(error.extra["extra_msg"], |error.extra["extra_msg"]| + 1)
    ensures RetryAfter(error) == 1.0
  {
    if "extra_msg" in error.extra {
      NoHintFound(error.extra["extra_msg"]);
    }
  }

  // ----- Decimal numbers -----

  /** Decimal digits, most significant first: one digit as it is, a longer number by its last digit. */
  lemma {:induction false} DecimalDigits(n: nat, d: nat)
    requires d < 10
    ensures Decimal(d) == ["0123456789"[d]]
    ensures n > 0 ==> Decimal(10 * n + d) == Decimal(n) + ["0123456789"[d]]
  {
    assert ("0123456789"[d]) as int == '0' as int + d;
    assert (10 * n + d) / 10 == n && (10 * n + d) % 10 == d;
  }
}
