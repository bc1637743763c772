/**
 * The reconnect file of the connection broker, as text.
 *
 * Every record is one line "<ip> <ccbid> <cookie>\n".  The broker appends a line
 * for every new target, rewrites the file when a sweep drops records, and reads
 * it back line by line when it starts from scratch.
 */
module CcbReconnectFile {
  import opened Common

  /** The number of values of the broker's identifiers (unsigned long). */
  const WORD: int := 0x1_0000_0000_0000_0000

  type CcbId = x: int | 0 <= x < WORD

  /** The text of a peer address: it fits the record's 48 byte buffer and holds no space. */
  predicate IsPeerIp(s: string)
  {
    0 < |s| < 48 && forall i :: 0 <= i < |s| ==> !IsSpace(s[i])
  }

  type PeerIp = s: string | IsPeerIp(s) witness "0"

  datatype Record = Record(ip: string, ccbid: CcbId, cookie: CcbId)

  /** What a record says about its identifier. */
  datatype Claim = Claim(cookie: CcbId, ip: string)

  // ---------------------------------------------------------------- writing

  function FormatLine(ip: string, ccbid: CcbId, cookie: CcbId): string
  {
    ip + " " + Decimal(ccbid) + " " + Decimal(cookie) + "\n"
  }

  /** A file to which the given records were written in order. */
  ghost function Lines(rs: seq<Record>): string
  {
    if rs == [] then ""
    else Lines(rs[..|rs| - 1]) + FormatLine(rs[|rs| - 1].ip, rs[|rs| - 1].ccbid, rs[|rs| - 1].cookie)
  }

  // ---------------------------------------------------------------- reading

  /** fgets with a buffer of 128 bytes: where the line that starts at `from` ends. */
  function LineEnd(text: string, from: nat, at: nat): (end: nat)
    requires from <= at <= |text|
    ensures at <= end <= |text|
    ensures from == at && at < |text| ==> from < end
    decreases |text| - at
  {
    if at == |text| || at - from >= 127 then at
    else if text[at] == '\n' then at + 1
    else LineEnd(text, from, at + 1)
  }

  /** The first white-space delimited word at or after `at`, and where it ends. */
  function SkipSpace(text: string, at: nat): (r: nat)
    requires at <= |text|
    ensures at <= r <= |text|
    decreases |text| - at
  {
    if at < |text| && IsSpace(text[at]) then SkipSpace(text, at + 1) else at
  }

  function WordEnd(text: string, at: nat): (r: nat)
    requires at <= |text|
    ensures at <= r <= |text|
    decreases |text| - at
  {
    if at < |text| && !IsSpace(text[at]) then WordEnd(text, at + 1) else at
  }

  /** Where the digits that start at `at` end. */
  function DigitsEnd(text: string, at: nat): (r: nat)
    requires at <= |text|
    ensures at <= r <= |text|
    ensures forall i :: at <= i < r ==> IsDigit(text[i])
    decreases |text| - at
  {
    if at < |text| && IsDigit(text[at]) then DigitsEnd(text, at + 1) else at
  }

  /** sscanf with "%lu": an optional sign, then digits; too large a number saturates. */
  function ScanUnsigned(text: string): Option<CcbId>
  {
    var start := SkipSpace(text, 0);
    var digits := if start < |text| && (text[start] == '-' || text[start] == '+') then start + 1 else start;
    var end := DigitsEnd(text, digits);
    if end == digits then None
    else
      assert forall i :: 0 <= i < end - digits ==> text[digits..end][i] == text[digits + i];
      var n := NumberOf(text[digits..end]);
      if n >= WORD then Some(WORD - 1)
      else if text[start] == '-' then Some((WORD - n) % WORD)
      else Some(n)
  }

  /** sscanf with "%127s %127s %127s", then the two numbers. */
  function ParseLine(line: string): Option<Record>
  {
    var a0 := SkipSpace(line, 0);
    var a1 := WordEnd(line, a0);
    var b0 := SkipSpace(line, a1);
    var b1 := WordEnd(line, b0);
    var c0 := SkipSpace(line, b1);
    var c1 := WordEnd(line, c0);
    if c0 == c1 then None
    else
      var ccbid := ScanUnsigned(line[b0..b1]);
      var cookie := ScanUnsigned(line[c0..c1]);
      if ccbid.None? || cookie.None? then None else Some(Record(line[a0..a1], ccbid.value, cookie.value))
  }

  /** The records that a reader finds from position `from` on; lines that do not parse are skipped. */
  function RecordsFrom(text: string, from: nat): seq<Record>
    requires from <= |text|
    decreases |text| - from
  {
    if from == |text| then []
    else
      var end := LineEnd(text, from, from);
      var here := ParseLine(text[from..end]);
      (if here.Some? then [here.value] else []) + RecordsFrom(text, end)
  }

  /** The table that a list of records describes: the last record of an identifier wins. */
  function TableOf(rs: seq<Record>): map<CcbId, Claim>
  {
    if rs == [] then map[]
    else
      var r := rs[|rs| - 1];
      TableOf(rs[..|rs| - 1])[r.ccbid := Claim(r.cookie, r.ip)]
  }

  // ---------------------------------------------------------------- round trip

  ghost predicate Writable(rs: seq<Record>)
  {
    forall i :: 0 <= i < |rs| ==> IsPeerIp(rs[i].ip)
  }

  lemma {:induction false} WordEndSkips(text: string, at: nat, end: nat)
    requires at <= end <= |text|
    requires forall i :: at <= i < end ==> !IsSpace(text[i])
    requires end == |text| || IsSpace(text[end])
    ensures WordEnd(text, at) == end
    decreases end - at
  {
    if at < end { WordEndSkips(text, at + 1, end); }
  }

  lemma {:induction false} DigitsEndSkips(text: string, at: nat)
    requires at <= |text|
    requires forall i :: at <= i < |text| ==> IsDigit(text[i])
    ensures DigitsEnd(text, at) == |text|
    decreases |text| - at
  {
    if at < |text| { DigitsEndSkips(text, at + 1); }
  }

  lemma {:induction false} LineEndSkips(text: string, from: nat, at: nat, end: nat)
    requires from <= at < end <= |text| && end - from <= 127
    requires text[end - 1] == '\n'
    requires forall i :: at <= i < end - 1 ==> text[i] != '\n'
    ensures LineEnd(text, from, at) == end
    decreases end - at
  {
    if at < end - 1 { LineEndSkips(text, from, at + 1, end); }
  }

  lemma ScanDecimal(n: CcbId)
    ensures ScanUnsigned(Decimal(n)) == Some(n)
  {
    hide Decimal, NumberOf, DigitsEnd;
    var s := Decimal(n);
    assert IsDigit(s[0]);
    assert SkipSpace(s, 0) == 0;
    DigitsEndSkips(s, 0);
    assert s[0..|s|] == s;
    NumberOfDecimal(n);
  }

  ghost predicate IsWord(w: string)
  {
    w != "" && forall i :: 0 <= i < |w| ==> !IsSpace(w[i])
  }

  /** A word followed by a space is what the reader takes, wherever it stands. */
  lemma ReadsWord(line: string, at: nat, w: string)
    requires IsWord(w) && at + |w| < |line|
    requires line[at..at + |w|] == w && IsSpace(line[at + |w|])
    ensures SkipSpace(line, at) == at && WordEnd(line, at) == at + |w|
  {
    forall i | at <= i < at + |w|
      ensures !IsSpace(line[i])
    {
      assert line[i] == line[at..at + |w|][i - at];
    }
    WordEndSkips(line, at, at + |w|);
  }

  /** The reader finds the next word after one separator. */
  lemma SkipsSeparator(line: string, at: nat, w: string)
    requires IsWord(w) && at + 1 + |w| < |line|
    requires IsSpace(line[at]) && line[at + 1..at + 1 + |w|] == w && IsSpace(line[at + 1 + |w|])
    ensures SkipSpace(line, at) == at + 1 && WordEnd(line, at + 1) == at + 1 + |w|
  {
    ReadsWord(line, at + 1, w);
  }

  /** Where the three words of a line stand. */
  lemma Layout(line: string, a: string, b: string, c: string)
    requires line == a + " " + b + " " + c + "\n"
    ensures |line| == |a| + |b| + |c| + 3
    ensures line[0..|a|] == a && line[|a|] == ' '
    ensures line[|a| + 1..|a| + 1 + |b|] == b && line[|a| + |b| + 1] == ' '
    ensures line[|a| + |b| + 2..|a| + |b| + 2 + |c|] == c && line[|a| + |b| + |c| + 2] == '\n'
  {
  }

  /** Reading one written line gives the record back. */
  lemma ParseFormatted(ip: PeerIp, ccbid: CcbId, cookie: CcbId)
    ensures ParseLine(FormatLine(ip, ccbid, cookie)) == Some(Record(ip, ccbid, cookie))
  {
    hide ScanUnsigned, Decimal, SkipSpace, WordEnd;
    var line, b, c := FormatLine(ip, ccbid, cookie), Decimal(ccbid), Decimal(cookie);
    Layout(line, ip, b, c);
    ReadsWord(line, 0, ip);
    SkipsSeparator(line, |ip|, b);
    SkipsSeparator(line, |ip| + |b| + 1, c);
    ScanDecimal(ccbid);
    ScanDecimal(cookie);
  }

  lemma LineFits(ip: PeerIp, ccbid: CcbId, cookie: CcbId)
    ensures |FormatLine(ip, ccbid, cookie)| <= 127
  {
    assert Pow10(10) == 10_000_000_000;
    Pow10Twice();
    DecimalLength(ccbid, 20);
    DecimalLength(cookie, 20);
  }

  lemma Pow10Twice()
    ensures Pow10(20) > WORD
  {
    assert Pow10(4) == 10_000;
    assert Pow10(8) == 100_000_000;
    assert Pow10(12) == 1_000_000_000_000;
    assert Pow10(16) == 10_000_000_000_000_000;
    assert Pow10(20) == 100_000_000_000_000_000_000;
  }

  /** What the reader needs of a line to take it as record `r`. */
  ghost predicate Readable(line: string, r: Record)
  {
    && 0 < |line| <= 127
    && line[|line| - 1] == '\n'
    && (forall i :: 0 <= i < |line| - 1 ==> line[i] != '\n')
    && ParseLine(line) == Some(r)
  }

  lemma FormattedIsReadable(ip: PeerIp, ccbid: CcbId, cookie: CcbId)
    ensures Readable(FormatLine(ip, ccbid, cookie), Record(ip, ccbid, cookie))
  {
    hide ParseLine, FormatLine;
    LineFits(ip, ccbid, cookie);
    ParseFormatted(ip, ccbid, cookie);
    OneNewline(ip, ccbid, cookie);
  }

  lemma OneNewline(ip: PeerIp, ccbid: CcbId, cookie: CcbId)
    ensures var line := FormatLine(ip, ccbid, cookie);
            && line != "" && line[|line| - 1] == '\n'
            && forall i :: 0 <= i < |line| - 1 ==> line[i] != '\n'
  {
    hide Decimal;
    var line, b, c := FormatLine(ip, ccbid, cookie), Decimal(ccbid), Decimal(cookie);
    forall i | 0 <= i < |line| - 1
      ensures line[i] != '\n'
    {
      assert i < |ip| ==> line[i] == ip[i];
      assert |ip| < i < |ip| + 1 + |b| ==> line[i] == b[i - |ip| - 1];
      assert |ip| + |b| + 1 < i ==> line[i] == c[i - |ip| - |b| - 2];
    }
  }

  /** A reader that stands before a readable line reads exactly that line. */
  lemma ReadsOneLine(text: string, from: nat, line: string, r: Record)
    requires Readable(line, r)
    requires from + |line| <= |text| && text[from..from + |line|] == line
    ensures RecordsFrom(text, from) == [r] + RecordsFrom(text, from + |line|)
  {
    hide ParseLine;
    var end := from + |line|;
    forall i | from <= i < end
      ensures text[i] == line[i - from]
    {
      assert text[from..end][i - from] == line[i - from];
    }
    LineEndSkips(text, from, from, end);
  }

  lemma {:induction false} ReadsLines(rs: seq<Record>, after: string)
    requires Writable(rs)
    ensures RecordsFrom(Lines(rs) + after, 0) == rs + RecordsFrom(Lines(rs) + after, |Lines(rs)|)
    decreases |rs|, 0
  {
    hide RecordsFrom, FormatLine, Readable;
    if rs == [] {
    } else {
      var n := |rs| - 1;
      var r := rs[n];
      FormattedIsReadable(r.ip, r.ccbid, r.cookie);
      ReadsLastLine(rs[..n], FormatLine(r.ip, r.ccbid, r.cookie), r, after);
      assert rs[..n] + [r] == rs;
    }
  }

  lemma {:induction false} ReadsLastLine(rs: seq<Record>, line: string, r: Record, after: string)
    requires Writable(rs) && Readable(line, r)
    ensures var text := Lines(rs) + line + after;
            RecordsFrom(text, 0) == (rs + [r]) + RecordsFrom(text, |Lines(rs) + line|)
    decreases |rs|, 1
  {
    hide ParseLine, RecordsFrom;
    var before := Lines(rs);
    var text := before + line + after;
    assert text == before + (line + after);
    ReadsLines(rs, line + after);
    assert text[|before|..|before| + |line|] == line;
    ReadsOneLine(text, |before|, line, r);
  }

  /** Writing any records and reading the file back gives the same records in the same order. */
  lemma FileRoundTrip(rs: seq<Record>)
    requires Writable(rs)
    ensures RecordsFrom(Lines(rs), 0) == rs
  {
    ReadsLines(rs, "");
    assert Lines(rs) + "" == Lines(rs);
  }

  // ---------------------------------------------------------------- text that the broker did not write

  predicate IsNumber(digits: string)
  {
    digits != "" && forall i :: 0 <= i < |digits| ==> IsDigit(digits[i])
  }

  /** Digits mean their number, but no more than the greatest identifier; a sign is taken, and a minus counts down. */
  lemma SignedNumbers(digits: string)
    requires IsNumber(digits)
    ensures var n := NumberOf(digits);
            && ScanUnsigned(digits) == Some(if n < WORD then n else WORD - 1)
            && ScanUnsigned("+" + digits) == Some(if n < WORD then n else WORD - 1)
            && ScanUnsigned("-" + digits) == Some(if n == 0 then 0 else if n < WORD then WORD - n else WORD - 1)
  {
    hide NumberOf, DigitsEnd, SkipSpace, ScanUnsigned;
    PlainRead(digits);
    SignedRead('+', digits);
    SignedRead('-', digits);
  }

  lemma PlainRead(digits: string)
    requires IsNumber(digits)
    ensures ScanUnsigned(digits) == Some(if NumberOf(digits) < WORD then NumberOf(digits) else WORD - 1)
  {
    assert IsDigit(digits[0]) && SkipSpace(digits, 0) == 0;
    hide NumberOf, DigitsEnd;
    DigitsEndSkips(digits, 0);
    assert digits[0..|digits|] == digits;
  }

  lemma SignedRead(sign: char, digits: string)
    requires sign in {'+', '-'} && IsNumber(digits)
    ensures var n := NumberOf(digits);
            ScanUnsigned([sign] + digits) ==
            Some(if n >= WORD then WORD - 1 else if sign == '-' && n > 0 then WORD - n else n)
  {
    hide NumberOf, DigitsEnd, SkipSpace;
    SignRead(sign, digits);
  }

  lemma SignRead(sign: char, digits: string)
    requires sign in {'+', '-'} && IsNumber(digits)
    ensures var text := [sign] + digits;
            SkipSpace(text, 0) == 0 && DigitsEnd(text, 1) == |text| && text[1..|text|] == digits && text[0] == sign
  {
    DigitsEndSkips([sign] + digits, 1);
  }

  /**
   * A line ends after its newline, at the end of the text, or after 127 characters, whichever comes first.
   */
  lemma {:induction false} LineEndsFirst(text: string, from: nat, at: nat)
    requires from <= at <= |text| && at - from <= 127
    ensures var end := LineEnd(text, from, at);
            && end - from <= 127
            && (forall i :: at <= i < end - 1 ==> text[i] != '\n')
            && (end == |text| || end - from == 127 || (end > at && text[end - 1] == '\n'))
    decreases |text| - at
  {
    if at < |text| && at - from < 127 && text[at] != '\n' {
      LineEndsFirst(text, from, at + 1);
    }
  }
}
