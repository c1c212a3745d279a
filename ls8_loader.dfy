/** The text side of `load`: each line of a program file loses everything
    from its first '#' on and its surrounding whitespace; a line left empty
    is skipped, and any other line must be a base-2 number, which becomes the
    next byte of the program. */
module Ls8Loader {
  import opened Ls8Machine

  /** The characters Python's str.strip() removes (those for which
      str.isspace() holds): tab through carriage return, the four
      separators U+001C..U+001F, space, U+0085, U+00A0 and the Unicode
      space and line/paragraph separators. */
  predicate IsSpace(c: char) {
    var k := c as int;  // code point
    (9 <= k <= 13) || (28 <= k <= 32) || k == 0x85 || k == 0xA0 || k == 0x1680
    || (0x2000 <= k <= 0x200A) || k == 0x2028 || k == 0x2029
    || k == 0x202F || k == 0x205F || k == 0x3000
  }

  /** Nothing but whitespace. */
  predicate AllSpace(s: string) {
    forall i :: 0 <= i < |s| ==> IsSpace(s[i])
  }

  /** `line.split("#")[0]`: the text before the first '#'. */
  function BeforeHash(line: string): string {
    if line == [] || line[0] == '#' then [] else [line[0]] + BeforeHash(line[1..])
  }

  /** `BeforeHash` keeps the whole first field: a prefix of the line with
      no '#' in it, and what it cuts off starts at a '#'. */
  lemma {:induction false} BeforeHashIsFirstField(line: string)
    ensures BeforeHash(line) <= line
    ensures '#' !in BeforeHash(line)
    ensures |BeforeHash(line)| < |line| ==> line[|BeforeHash(line)|] == '#'
  {
    if line != [] && line[0] != '#' {
      BeforeHashIsFirstField(line[1..]);
    }
  }

  /** `s.lstrip()`: drops the leading whitespace. */
  function TrimStart(s: string): string {
    if s != [] && IsSpace(s[0]) then TrimStart(s[1..]) else s
  }

  /** `s.rstrip()`: drops the trailing whitespace. */
  function TrimEnd(s: string): string {
    if s != [] && IsSpace(s[|s| - 1]) then TrimEnd(s[..|s| - 1]) else s
  }

  /** `s.strip()`. */
  function Strip(s: string): string {
    TrimEnd(TrimStart(s))
  }

  /** What `strip()` leaves is a piece of its input that neither starts nor
      ends with whitespace. */
  lemma StripTrimsBothEnds(s: string)
    ensures |Strip(s)| <= |s|
    ensures Strip(s) == [] || (!IsSpace(Strip(s)[0]) && !IsSpace(Strip(s)[|Strip(s)| - 1]))
  {
    TrimStartEnds(s);
    TrimEndEnds(TrimStart(s));
  }

  lemma {:induction false} TrimStartEnds(s: string)
    ensures |TrimStart(s)| <= |s|
    ensures TrimStart(s) == [] || !IsSpace(TrimStart(s)[0])
  {
    if s != [] && IsSpace(s[0]) {
      TrimStartEnds(s[1..]);
    }
  }

  lemma {:induction false} TrimEndEnds(s: string)
    ensures TrimEnd(s) <= s
    ensures TrimEnd(s) == [] || !IsSpace(TrimEnd(s)[|TrimEnd(s)| - 1])
  {
    if s != [] && IsSpace(s[|s| - 1]) {
      TrimEndEnds(s[..|s| - 1]);
    }
  }

  predicate IsBit(c: char) {
    c == '0' || c == '1'
  }

  predicate AllBits(s: string) {
    forall i :: 0 <= i < |s| ==> IsBit(s[i])
  }

  /** The number a string of binary digits denotes, most significant first. */
  function BitsValue(s: string): nat
    requires AllBits(s)
  {
    if s == [] then 0
    else 2 * BitsValue(s[..|s| - 1]) + (if s[|s| - 1] == '1' then 1 else 0)
  }

  /** `int(num, 2)` restricted to plain binary digits: None stands for the
      ValueError raised on anything else, the empty string included. */
  function ParseBinary(s: string): (r: Option<int>)
    ensures r.Some? <==> s != [] && AllBits(s)
    ensures r.Some? ==> 0 <= r.value
  {
    if s != [] && AllBits(s) then Some(BitsValue(s)) else None
  }

  /** How one line of a program file reads. */
  datatype Line = Blank | Value(v: int) | Malformed

  function ParseLine(line: string): (r: Line)
    ensures r.Value? ==> 0 <= r.v
    ensures line == [] || line[0] == '#' ==> r == Blank
  {
    var num := Strip(BeforeHash(line));
    if num == [] then Blank
    else match ParseBinary(num)
      case Some(v) => Value(v)
      case None => Malformed
  }

  /** The bytes read from `lines`, in order, up to the first malformed line;
      `ok` is false when there is such a line. */
  datatype Parsed = Parsed(values: seq<int>, ok: bool)

  function ParseLines(lines: seq<string>): Parsed {
    if lines == [] then Parsed([], true)
    else
      var p := ParseLines(lines[..|lines| - 1]);
      if !p.ok then p
      else match ParseLine(lines[|lines| - 1])
        case Blank => p
        case Value(v) => Parsed(p.values + [v], true)
        case Malformed => Parsed(p.values, false)
  }

  /** Every line yields at most one byte, and the load succeeds exactly when
      no line is malformed. */
  lemma {:induction false} ParseLinesReadsEachLine(lines: seq<string>)
    ensures |ParseLines(lines).values| <= |lines|
    ensures ParseLines(lines).ok <==> forall i :: 0 <= i < |lines| ==> !ParseLine(lines[i]).Malformed?
  {
    if lines != [] {
      var n := |lines| - 1;
      var init := lines[..n];
      ParseLinesReadsEachLine(init);
      assert forall i :: 0 <= i < n ==> init[i] == lines[i];
    }
  }

  /** Once a prefix of the file has a malformed line, the rest of the file
      changes nothing: loading stops there. */
  lemma {:induction false} ParseStopsAtError(lines: seq<string>, i: nat)
    requires i <= |lines|
    requires !ParseLines(lines[..i]).ok
    ensures ParseLines(lines) == ParseLines(lines[..i])
    decreases |lines|
  {
    if i < |lines| {
      var init := lines[..|lines| - 1];
      assert init[..i] == lines[..i];
      ParseStopsAtError(init, i);
    } else {
      assert lines[..i] == lines;
    }
  }

  /** Reading more lines never takes back a byte already read. */
  lemma {:induction false} ParsePrefix(lines: seq<string>, i: nat)
    requires i <= |lines|
    ensures ParseLines(lines[..i]).values <= ParseLines(lines).values
    ensures ParseLines(lines).ok ==> ParseLines(lines[..i]).ok
    decreases |lines|
  {
    if i < |lines| {
      var init := lines[..|lines| - 1];
      assert init[..i] == lines[..i];
      ParsePrefix(init, i);
    } else {
      assert lines[..i] == lines;
    }
  }

  /** One more line, read after the ones before it. */
  lemma ParseLinesSnoc(lines: seq<string>, n: nat)
    requires n == |lines| - 1
    ensures ParseLines(lines) ==
      var p := ParseLines(lines[..n]);
      if !p.ok then p
      else match ParseLine(lines[n])
        case Blank => p
        case Value(v) => Parsed(p.values + [v], true)
        case Malformed => Parsed(p.values, false)
  {
  }

  /** Reading line `i` after the lines before it parsed cleanly into
      `values`. */
  lemma ParseNextLine(lines: seq<string>, i: nat, values: seq<int>)
    requires i < |lines| && ParseLines(lines[..i]) == Parsed(values, true)
    ensures ParseLines(lines[..i + 1]) ==
      match ParseLine(lines[i])
      case Blank => Parsed(values, true)
      case Value(v) => Parsed(values + [v], true)
      case Malformed => Parsed(values, false)
  {
    assert lines[..i + 1][..i] == lines[..i];
    ParseLinesSnoc(lines[..i + 1], i);
  }

  /** A line that is only whitespace and a comment reads as blank. */
  lemma CommentOnlyLineIsBlank(pad: string, comment: string)
    requires forall i :: 0 <= i < |pad| ==> IsSpace(pad[i])
    ensures ParseLine(pad + "#" + comment) == Blank
  {
    assert '#' !in pad by {
      forall i | 0 <= i < |pad| ensures pad[i] != '#' {
        assert IsSpace(pad[i]);
      }
    }
    BeforeHashStopsAtHash(pad, comment);
    assert pad + [] == pad;
    TrimStartPadding(pad, []);
  }

  /** A line without a '#' is its own first field. */
  lemma BeforeHashWithoutHash(line: string)
    requires '#' !in line
    ensures BeforeHash(line) == line
  {
    BeforeHashIsFirstField(line);
  }

  /** lstrip leaves nothing exactly when the text is all whitespace. */
  lemma {:induction false} TrimStartEmpty(s: string)
    ensures TrimStart(s) == [] <==> AllSpace(s)
  {
    if s != [] && IsSpace(s[0]) {
      TrimStartEmpty(s[1..]);
      assert forall i :: 1 <= i < |s| ==> s[i] == s[1..][i - 1];
    }
  }

  /** rstrip never empties a text that starts with a non-space. */
  lemma {:induction false} TrimEndKeepsFirst(s: string)
    requires s != [] && !IsSpace(s[0])
    ensures TrimEnd(s) != []
  {
    if IsSpace(s[|s| - 1]) {
      TrimEndKeepsFirst(s[..|s| - 1]);
    }
  }

  /** strip leaves nothing exactly when the text is all whitespace. */
  lemma StripEmpty(s: string)
    ensures Strip(s) == [] <==> AllSpace(s)
  {
    TrimStartEmpty(s);
    TrimStartEnds(s);
    if TrimStart(s) != [] {
      TrimEndKeepsFirst(TrimStart(s));
    }
  }

  /** A line is skipped exactly when all it holds before its first '#' is
      whitespace: an empty line, a line of spaces or a line break alone, or
      a comment. */
  lemma BlankIffNoDigits(line: string)
    ensures ParseLine(line) == Blank <==> AllSpace(BeforeHash(line))
  {
    var num := Strip(BeforeHash(line));
    StripEmpty(BeforeHash(line));
    assert ParseLine(line) == Blank <==> num == [] by {
      if num != [] {
        assert ParseBinary(num).Some? ==> ParseLine(line) == Value(ParseBinary(num).value);
      }
    }
  }

  /** A line of whitespace only, such as the "\n" of an empty line in a
      file, is skipped. */
  lemma WhitespaceLineIsBlank(pad: string)
    requires AllSpace(pad)
    ensures ParseLine(pad) == Blank
  {
    assert '#' !in pad by {
      forall i | 0 <= i < |pad| ensures pad[i] != '#' {
        assert IsSpace(pad[i]);
      }
    }
    BeforeHashWithoutHash(pad);
    StripEmpty(pad);
  }

  /** A blank line is skipped: it adds no byte, so the next number still
      goes to the next free address. */
  lemma BlankLineSkipped(lines: seq<string>, line: string)
    requires ParseLine(line) == Blank
    ensures ParseLines(lines + [line]) == ParseLines(lines)
  {
    assert (lines + [line])[..|lines|] == lines;
  }

  // ---------------------------------------------------------------------
  // Writing programs back out: the inverse of the parse

  /** The binary digits of `n`, most significant first, without leading
      zeros (zero is "0"). */
  function Bits(n: nat): (s: string)
    ensures s != [] && AllBits(s)
    ensures s[0] == '1' || s == "0"
  {
    if n < 2 then (if n == 1 then "1" else "0")
    else Bits(n / 2) + (if n % 2 == 1 then "1" else "0")
  }

  lemma {:induction false} BitsValueOfBits(n: nat)
    ensures BitsValue(Bits(n)) == n
  {
    if n >= 2 {
      var s := Bits(n);
      assert s[..|s| - 1] == Bits(n / 2);
      BitsValueOfBits(n / 2);
    }
  }

  /** A string of `z` zeros. */
  function Zeros(z: nat): (s: string)
    ensures |s| == z && AllBits(s)
  {
    seq(z, _ => '0')
  }

  /** Leading zeros do not change the number: "00001000" is 8. */
  lemma {:induction false} LeadingZeros(z: nat, s: string)
    requires AllBits(s)
    ensures BitsValue(Zeros(z) + s) == BitsValue(s)
  {
    if s == [] {
      assert Zeros(z) + s == Zeros(z);
      ZerosValue(z);
    } else {
      var n := |s| - 1;
      assert (Zeros(z) + s)[..|Zeros(z) + s| - 1] == Zeros(z) + s[..n];
      LeadingZeros(z, s[..n]);
    }
  }

  lemma {:induction false} ZerosValue(z: nat)
    ensures BitsValue(Zeros(z)) == 0
  {
    if z > 0 {
      assert Zeros(z)[..z - 1] == Zeros(z - 1);
      ZerosValue(z - 1);
    }
  }

  /** A line of a program file as the listings write it: a byte as binary
      digits padded with leading zeros, then the line break. */
  lemma FileLineParses(z: nat, n: nat)
    ensures ParseLine(Zeros(z) + Bits(n) + "\n") == Value(n)
  {
    var digits := Zeros(z) + Bits(n);
    assert AllBits(digits) by {
      forall i | 0 <= i < |digits| ensures IsBit(digits[i]) {
        if i >= z { assert digits[i] == Bits(n)[i - z]; }
      }
    }
    DigitsLineParses(digits);
    LeadingZeros(z, Bits(n));
    BitsValueOfBits(n);
  }

  /** A line of binary digits and its line break reads as their value. */
  lemma DigitsLineParses(digits: string)
    requires digits != [] && AllBits(digits)
    ensures ParseLine(digits + "\n") == Value(BitsValue(digits))
  {
    var line := digits + "\n";
    assert '#' !in line by {
      forall i | 0 <= i < |line| ensures line[i] != '#' {
        if i < |digits| { assert IsBit(digits[i]); }
      }
    }
    BeforeHashWithoutHash(line);
    assert IsBit(digits[0]) && IsBit(digits[|digits| - 1]);
    assert [] + line == line;
    TrimStartPadding([], line);
    TrimEndPadding(digits, "\n");
    assert Strip(BeforeHash(line)) == digits;
  }

  /** A program byte written as one line of a program file: its binary
      digits, padding and a comment. */
  function ListingLine(b: nat, comment: string): string {
    "  " + Bits(b) + " # " + comment
  }

  lemma ListingLineParses(b: nat, comment: string)
    ensures ParseLine(ListingLine(b, comment)) == Value(b)
  {
    var digits := Bits(b);
    var before := "  " + digits + " ";
    assert ListingLine(b, comment) == before + "#" + (" " + comment);
    assert '#' !in before by {
      forall i | 0 <= i < |before| ensures before[i] != '#' {
        if 2 <= i < |before| - 1 { assert before[i] == digits[i - 2]; }
      }
    }
    BeforeHashStopsAtHash(before, " " + comment);
    StripPadded(digits);
    BitsValueOfBits(b);
  }

  /** A line whose text before its first '#' is `s` splits there. */
  lemma {:induction false} BeforeHashStopsAtHash(s: string, rest: string)
    requires '#' !in s
    ensures BeforeHash(s + "#" + rest) == s
  {
    if s != [] {
      assert (s + "#" + rest)[1..] == s[1..] + "#" + rest;
      BeforeHashStopsAtHash(s[1..], rest);
    }
  }

  /** lstrip removes exactly the leading whitespace: a run of whitespace in
      front of a text that is empty or does not start with whitespace. */
  lemma {:induction false} TrimStartPadding(pad: string, t: string)
    requires forall i :: 0 <= i < |pad| ==> IsSpace(pad[i])
    requires t == [] || !IsSpace(t[0])
    ensures TrimStart(pad + t) == t
  {
    if pad == [] {
      assert pad + t == t;
    } else {
      assert (pad + t)[1..] == pad[1..] + t;
      TrimStartPadding(pad[1..], t);
    }
  }

  /** rstrip removes exactly the trailing whitespace: a run of whitespace
      after a text that is empty or does not end with whitespace. */
  lemma {:induction false} TrimEndPadding(t: string, pad: string)
    requires forall i :: 0 <= i < |pad| ==> IsSpace(pad[i])
    requires t == [] || !IsSpace(t[|t| - 1])
    ensures TrimEnd(t + pad) == t
  {
    if pad == [] {
      assert t + pad == t;
    } else {
      var n := |pad| - 1;
      assert (t + pad)[..|t + pad| - 1] == t + pad[..n];
      TrimEndPadding(t, pad[..n]);
    }
  }

  lemma StripPadded(digits: string)
    requires digits != [] && AllBits(digits)
    ensures Strip("  " + digits + " ") == digits
  {
    assert IsBit(digits[0]) && IsBit(digits[|digits| - 1]);
    assert "  " + digits + " " == "  " + (digits + " ");
    TrimStartPadding("  ", digits + " ");
    TrimEndPadding(digits, " ");
  }

  /** Lines that each hold one byte are read as exactly those bytes. */
  lemma {:induction false} ParseValues(lines: seq<string>, bytes: seq<int>)
    requires |lines| == |bytes|
    requires forall i :: 0 <= i < |lines| ==> ParseLine(lines[i]) == Value(bytes[i])
    ensures ParseLines(lines) == Parsed(bytes, true)
  {
    if lines != [] {
      var n := |lines| - 1;
      forall i | 0 <= i < n
        ensures ParseLine(lines[..n][i]) == Value(bytes[..n][i])
      {
        assert lines[..n][i] == lines[i] && bytes[..n][i] == bytes[i];
      }
      ParseValues(lines[..n], bytes[..n]);
      ParseLinesSnoc(lines, n);
      assert bytes[..n] + [bytes[n]] == bytes;
    }
  }

  /** A program listing: one line per byte, each with its comment. */
  function Listing(bytes: seq<nat>, comments: seq<string>): (lines: seq<string>)
    requires |comments| == |bytes|
    ensures |lines| == |bytes|
    ensures forall i :: 0 <= i < |bytes| ==> lines[i] == ListingLine(bytes[i], comments[i])
  {
    seq(|bytes|, i requires 0 <= i < |bytes| => ListingLine(bytes[i], comments[i]))
  }

  /** Loading a listing gives back exactly the bytes it was written from. */
  lemma ListingRoundTrip(bytes: seq<nat>, comments: seq<string>)
    requires |comments| == |bytes|
    ensures ParseLines(Listing(bytes, comments)) == Parsed(bytes, true)
  {
    var lines := Listing(bytes, comments);
    forall i | 0 <= i < |lines| ensures ParseLine(lines[i]) == Value(bytes[i]) {
      ListingLineParses(bytes[i], comments[i]);
    }
    ParseValues(lines, bytes);
  }
}
