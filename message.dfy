/** A single entry of the message log and how it is rendered. */
module GameMessage {

  predicate IsDigit(c: char) {
    '0' <= c <= '9'
  }

  /** Decimal digits of a natural number, as Python's `str` writes them. */
  function Decimal(n: nat): (s: string)
    ensures |s| >= 1 && forall i :: 0 <= i < |s| ==> IsDigit(s[i])
    ensures |s| > 1 ==> s[0] != '0'
    decreases n
  {
    if n < 10 then [('0' as int + n) as char]
    else Decimal(n / 10) + [('0' as int + n % 10) as char]
  }

  /** The value of a string of decimal digits. */
  function DigitsValue(s: string): nat
    requires forall i :: 0 <= i < |s| ==> IsDigit(s[i])
  {
    if |s| == 0 then 0
    else
      assert IsDigit(s[|s| - 1]);
      DigitsValue(s[..|s| - 1]) * 10 + (s[|s| - 1] as int - '0' as int)
  }

  /** Reading back the rendered count gives the count. */
  lemma {:induction false} DecimalRoundTrip(n: nat)
    ensures DigitsValue(Decimal(n)) == n
    decreases n
  {
    if n >= 10 {
      var s := Decimal(n);
      assert s[..|s| - 1] == Decimal(n / 10);
      DecimalRoundTrip(n / 10);
    }
  }

  /** Different counts render differently. */
  lemma DecimalInjective(m: nat, n: nat)
    requires Decimal(m) == Decimal(n)
    ensures m == n
  {
    DecimalRoundTrip(m);
    DecimalRoundTrip(n);
  }

  datatype Message = Message(rawText: string, count: int) {
    /** The text shown for this entry: the repeat count is appended when above one. */
    function Text(): (r: string)
      ensures |r| >= |rawText| && r[..|rawText|] == rawText
      ensures |r| > |rawText| <==> count > 1
      ensures count > 1 ==> r[|rawText|..] == " (x" + Decimal(count) + ")"
    {
      if count > 1 then rawText + " (x" + Decimal(count) + ")" else rawText
    }
  }

  /** An entry with a count above one never renders as its raw text. */
  lemma RepeatedTextDiffers(m: Message)
    requires m.count > 1
    ensures m.Text() != m.rawText
  {
  }

  /** Two entries render alike only if they have the same raw text and the same count, counts above one. */
  lemma {:induction false} TextDeterminesCount(a: Message, b: Message)
    requires a.count > 1 && b.count > 1 && a.rawText == b.rawText
    requires a.Text() == b.Text()
    ensures a.count == b.count
  {
    var n := |a.rawText|;
    assert a.Text()[n..] == b.Text()[n..];
    var da, db := Decimal(a.count), Decimal(b.count);
    assert a.Text()[n..] == " (x" + da + ")";
    assert b.Text()[n..] == " (x" + db + ")";
    assert |da| == |db|;
    assert da == (" (x" + da + ")")[3..3 + |da|];
    assert db == (" (x" + db + ")")[3..3 + |db|];
    DecimalInjective(a.count, b.count);
  }
}
