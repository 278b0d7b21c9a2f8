// Line-numbered file text: how one line is printed, and the parser that reads it back.
module LineNumbers {
  import opened Optional
  import opened Text

  datatype FileLine = FileLine(number: int, content: string)

  /** The characters `\s` matches. */
  predicate IsSpace(c: char) {
    c in {' ', '\t', '\U{1F}', '\U{A0}', '\U{1680}', '\U{202F}', '\U{205F}', '\U{3000}'}
    || IsLineBreak(c) || '\U{2000}' <= c <= '\U{200A}'
  }

  // ----- printing

  /** `f"{text:>{width}}"` */
  function PadLeft(text: string, width: nat): string {
    if |text| >= width then text else seq(width - |text|, _ => ' ') + text
  }

  function FormatLine(number: nat, width: nat, marker: string, content: string): string {
    PadLeft(Decimal(number), width) + marker + "| " + content
  }

  /** No marker at all, or one character that is neither a digit nor a bar. */
  predicate ProperMarker(marker: string) {
    |marker| <= 1 && (|marker| == 1 ==> !IsDigit(marker[0]) && marker[0] != '|')
  }

  // ----- parsing

  function SkipSpaces(s: string): (r: string)
    ensures r == "" || !IsSpace(r[0])
  {
    if s != "" && IsSpace(s[0]) then SkipSpaces(s[1..]) else s
  }

  function DigitCount(s: string): (n: nat)
    ensures n <= |s| && AllDigits(s[..n])
    ensures n < |s| ==> !IsDigit(s[n])
  {
    if s != "" && IsDigit(s[0]) then 1 + DigitCount(s[1..]) else 0
  }

  /** One line of the pattern `\s*(\d+)([^|\d])?\| ?(.*)`: its number and content. */
  function ParseLine(s: string): Option<FileLine> {
    var t := SkipSpaces(s);
    var n := DigitCount(t);
    if n == 0 then None
    else
      match AfterBar(t[n..])
      case None => None
      case Some(content) => Some(FileLine(DecimalValue(t[..n]), content))
  }

  /** What follows `([^|\d])?\| ?`, where no digit comes first. */
  function AfterBar(rest: string): Option<string> {
    if rest != "" && rest[0] == '|' then Some(DropSpace(rest[1..]))
    else if |rest| >= 2 && rest[1] == '|' then Some(DropSpace(rest[2..]))
    else None
  }

  function DropSpace(s: string): string {
    if s != "" && s[0] == ' ' then s[1..] else s
  }

  /** The matching lines in order, or None when one is numbered 0, which the line type rejects. */
  function ParseLines(lines: seq<string>): Option<seq<FileLine>> {
    if lines == [] then Some([])
    else
      match (ParseLine(lines[0]), ParseLines(lines[1..]))
      case (None, rest) => rest
      case (Some(line), Some(rest)) => if line.number < 1 then None else Some([line] + rest)
      case (Some(_), None) => None
  }

  /** `parse_line_numbered_file_content` */
  function ParseContent(content: string): Option<seq<FileLine>> {
    ParseLines(SplitLines(content))
  }

  // ----- the round trip of one line

  lemma {:induction false} SkipsPadding(k: nat, s: string)
    requires s != "" && !IsSpace(s[0])
    ensures SkipSpaces(seq(k, _ => ' ') + s) == s
  {
    var padded := seq(k, _ => ' ') + s;
    if k == 0 {
      assert padded == s;
    } else {
      assert padded[1..] == seq(k - 1, _ => ' ') + s;
      SkipsPadding(k - 1, s);
    }
  }

  lemma {:induction false} CountsDigits(digits: string, rest: string)
    requires AllDigits(digits) && (rest == "" || !IsDigit(rest[0]))
    ensures DigitCount(digits + rest) == |digits|
  {
    if digits == "" {
      assert digits + rest == rest;
    } else {
      assert (digits + rest)[1..] == digits[1..] + rest;
      CountsDigits(digits[1..], rest);
    }
  }

  /** Parsing a printed line gives back its number and content, whatever the padding and marker. */
  lemma ParseFormatted(number: nat, width: nat, marker: string, content: string)
    requires ProperMarker(marker)
    ensures ParseLine(FormatLine(number, width, marker, content)) == Some(FileLine(number, content))
  {
    var digits := Decimal(number);
    var rest := marker + "| " + content;
    var k := if |digits| >= width then 0 else width - |digits|;
    assert FormatLine(number, width, marker, content) == seq(k, _ => ' ') + (digits + rest);
    assert !IsSpace(digits[0]);
    SkipsPadding(k, digits + rest);
    CountsDigits(digits, rest);
    DecimalRoundTrip(number);
    var t := digits + rest;
    assert t[..|digits|] == digits && t[|digits|..] == rest;
    AfterMarker(marker, content);
  }

  lemma AfterMarker(marker: string, content: string)
    requires ProperMarker(marker)
    ensures AfterBar(marker + "| " + content) == Some(content)
  {
    var rest := marker + "| " + content;
    assert rest[|marker|] == '|';
    assert rest[|marker| + 1..] == " " + content;
    assert (" " + content)[1..] == content;
  }

  /** A line that starts with a bracket is not content. */
  lemma BracketsNeverParse(s: string)
    requires s != "" && s[0] == '['
    ensures ParseLine(s) == None
  {
    assert SkipSpaces(s) == s;
  }

  lemma FormattedIsOneLine(number: nat, width: nat, marker: string, content: string)
    requires OneLine(marker) && OneLine(content)
    ensures OneLine(FormatLine(number, width, marker, content))
    ensures FormatLine(number, width, marker, content) != ""
  {
    var s := FormatLine(number, width, marker, content);
    var padded := PadLeft(Decimal(number), width);
    assert forall i :: 0 <= i < |padded| ==> padded[i] == ' ' || IsDigit(padded[i]);
    assert OneLine(padded);
  }
}
