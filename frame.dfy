/** The wire frame every front end writes to the serial link: the three motor
    powers as decimal text, separated by commas and ended by a newline. */
module Frame {
  import opened Motors

  predicate IsDigit(c: char)
  {
    '0' <= c <= '9'
  }

  function DigitChar(d: nat): (c: char)
    requires d < 10
    ensures IsDigit(c) && c as int - '0' as int == d
  {
    ('0' as int + d) as char
  }

  function DigitValue(c: char): (d: nat)
    requires IsDigit(c)
    ensures d < 10 && DigitChar(d) == c
  {
    c as int - '0' as int
  }

  /** Decimal text of a natural number, as Python's str() and JavaScript's
      template strings write it. */
  function NatText(n: nat): (s: string)
    ensures |s| > 0 && forall i :: 0 <= i < |s| ==> IsDigit(s[i])
  {
    if n < 10 then [DigitChar(n)] else NatText(n / 10) + [DigitChar(n % 10)]
  }

  /** Decimal text has no leading zero: it starts with '0' only for zero. */
  lemma {:induction false} NatTextNoLeadingZero(n: nat)
    ensures NatText(n)[0] == '0' <==> n == 0
  {
    if n >= 10 {
      NatTextNoLeadingZero(n / 10);
    }
  }

  /** Decimal text of an integer: a minus sign before negative values. */
  function IntText(n: int): (s: string)
    ensures |s| > 0 && ',' !in s && '\n' !in s
  {
    if n < 0 then "-" + NatText(-n) else NatText(n)
  }

  /** The frame for one command. */
  function Encode(m: Motors): (f: string)
    ensures |f| >= 6 && f[|f| - 1] == '\n' && '\n' !in f[..|f| - 1]
  {
    IntText(m.m1) + "," + IntText(m.m2) + "," + IntText(m.m3) + "\n"
  }

  /** Value of a nonempty run of decimal digits. */
  function ParseNat(s: string): nat
    requires |s| > 0 && forall i :: 0 <= i < |s| ==> IsDigit(s[i])
  {
    if |s| == 1 then DigitValue(s[0])
    else 10 * ParseNat(s[..|s| - 1]) + DigitValue(s[|s| - 1])
  }

  /** Reads one field: an optional minus sign and at least one digit. */
  function ParseInt(s: string): (r: Option<int>)
    ensures r.Some? ==> |s| > 0
  {
    if |s| > 0 && s[0] == '-' then
      if |s| > 1 && forall i :: 1 <= i < |s| ==> IsDigit(s[i]) then Some(0 - ParseNat(s[1..])) else None
    else if |s| > 0 && forall i :: 0 <= i < |s| ==> IsDigit(s[i]) then Some(ParseNat(s))
    else None
  }

  /** The pieces of s between occurrences of sep (str.split with a separator). */
  function Split(s: string, sep: char): (parts: seq<string>)
    ensures |parts| > 0
    ensures forall i :: 0 <= i < |parts| ==> sep !in parts[i]
  {
    if sep !in s then [s]
    else
      var k := IndexOf(s, sep);
      [s[..k]] + Split(s[k + 1..], sep)
  }

  function IndexOf(s: string, c: char): (k: nat)
    requires c in s
    ensures k < |s| && s[k] == c && c !in s[..k]
  {
    if s[0] == c then 0 else 1 + IndexOf(s[1..], c)
  }

  /** Reads a frame back: the newline is dropped, the rest split on commas,
      and exactly three decimal fields are accepted. */
  function Decode(frame: string): Option<Motors>
  {
    if |frame| == 0 || frame[|frame| - 1] != '\n' then None
    else DecodeFields(Split(frame[..|frame| - 1], ','))
  }

  function DecodeFields(fields: seq<string>): Option<Motors>
  {
    if |fields| != 3 then None
    else
      var a, b, c := ParseInt(fields[0]), ParseInt(fields[1]), ParseInt(fields[2]);
      if a.Some? && b.Some? && c.Some? then Some(Motors(a.value, b.value, c.value)) else None
  }

  lemma {:induction false} ParseNatText(n: nat)
    ensures ParseNat(NatText(n)) == n
  {
    if n >= 10 {
      var s := NatText(n);
      assert s[..|s| - 1] == NatText(n / 10);
      ParseNatText(n / 10);
    }
  }

  lemma ParseIntText(n: int)
    ensures ParseInt(IntText(n)) == Some(n)
  {
    if n < 0 {
      var s := IntText(n);
      assert s[1..] == NatText(-n);
      ParseNatText(-n);
    } else {
      assert IntText(n)[0] != '-';
      ParseNatText(n);
    }
  }

  /** Splitting a prefix free of the separator peels it off as one piece. */
  lemma SplitFirst(a: string, b: string, sep: char)
    requires sep !in a
    ensures Split(a + [sep] + b, sep) == [a] + Split(b, sep)
  {
    var s := a + [sep] + b;
    var k := IndexOf(s, sep);
    assert s[..|a|] == a && s[|a|] == sep;
    assert k == |a| by {
      assert k <= |a| ==> s[k] in a + [sep];
    }
    assert s[..k] == a;
    assert s[k + 1..] == b;
  }

  /** Dropping the newline leaves the three fields to be split. */
  lemma DecodeBody(body: string)
    ensures Decode(body + "\n") == DecodeFields(Split(body, ','))
  {
    assert (body + "\n")[..|body|] == body;
  }

  /** Three comma-free fields joined by commas split back into themselves. */
  lemma SplitThree(a: string, b: string, c: string)
    requires ',' !in a && ',' !in b && ',' !in c
    ensures Split(a + "," + b + "," + c, ',') == [a, b, c]
  {
    assert a + "," + b + "," + c == a + [','] + (b + [','] + c);
    SplitFirst(a, b + [','] + c, ',');
    SplitFirst(b, c, ',');
  }

  /** Decoding a frame gives back the command that was encoded. */
  lemma DecodeEncode(m: Motors)
    ensures Decode(Encode(m)) == Some(m)
  {
    var a, b, c := IntText(m.m1), IntText(m.m2), IntText(m.m3);
    DecodeBody(a + "," + b + "," + c);
    SplitThree(a, b, c);
    ParseIntText(m.m1);
    ParseIntText(m.m2);
    ParseIntText(m.m3);
  }

  /** Distinct commands never share a frame. */
  lemma EncodeInjective(m: Motors, n: Motors)
    requires Encode(m) == Encode(n)
    ensures m == n
  {
    DecodeEncode(m);
    DecodeEncode(n);
  }
}
