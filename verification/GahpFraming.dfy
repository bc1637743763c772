/**
 * The GAHP's byte stream: the line framer that reads a pipe in chunks, the escaping that
 * result lines are written with, and the parser that undoes it.
 */
module GahpFraming {
  import opened Common

  // ---------------------------------------------------------------- framing

  /** A line in the making, and whether its last character escapes the next one. */
  datatype Partial = Partial(text: string, escaped: bool)

  const EMPTY := Partial("", false)

  /** Complete lines, and what is left of an incomplete one. */
  datatype Framed = Framed(lines: seq<string>, rest: Partial)

  function Push(p: Partial, c: char): Partial
  {
    Partial(p.text + [c], c == '\\' && !p.escaped)
  }

  /** An unescaped newline ends a line, and an unescaped carriage return is dropped. */
  function Frame(p: Partial, bytes: string): Framed
    decreases |bytes|
  {
    if bytes == "" then Framed([], p)
    else if bytes[0] == '\n' && !p.escaped then
      var f := Frame(Partial("", false), bytes[1..]);
      Framed([p.text] + f.lines, f.rest)
    else if bytes[0] == '\r' && !p.escaped then Frame(p, bytes[1..])
    else Frame(Push(p, bytes[0]), bytes[1..])
  }

  lemma FrameFirst(p: Partial, s: string)
    ensures s == "" ==> Frame(p, s) == Framed([], p)
    ensures s != "" && s[0] == '\n' && !p.escaped ==>
              Frame(p, s) == Framed([p.text] + Frame(EMPTY, s[1..]).lines, Frame(EMPTY, s[1..]).rest)
    ensures s != "" && s[0] == '\r' && !p.escaped ==> Frame(p, s) == Frame(p, s[1..])
    ensures s != "" && (p.escaped || (s[0] != '\n' && s[0] != '\r')) ==> Frame(p, s) == Frame(Push(p, s[0]), s[1..])
  {
  }

  /** What taking the character at `i` does to the framing of the rest. */
  lemma FrameNext(p: Partial, text: string, i: nat)
    requires i < |text|
    ensures text[i] == '\n' && !p.escaped ==>
              Frame(p, text[i..]) == Before([p.text], Frame(EMPTY, text[i + 1..]))
    ensures text[i] == '\r' && !p.escaped ==> Frame(p, text[i..]) == Frame(p, text[i + 1..])
    ensures p.escaped || (text[i] != '\n' && text[i] != '\r') ==>
              Frame(p, text[i..]) == Frame(Push(p, text[i]), text[i + 1..])
  {
    assert text[i..][0] == text[i] && text[i..][1..] == text[i + 1..];
    FrameFirst(p, text[i..]);
  }

  /** Framing may stop anywhere and go on later. */
  lemma {:induction false} FrameSplits(p: Partial, a: string, b: string)
    ensures Frame(p, a + b) == Framed(Frame(p, a).lines + Frame(Frame(p, a).rest, b).lines,
              Frame(Frame(p, a).rest, b).rest)
    decreases |a|
  {
    if a == "" {
      assert a + b == b;
    } else {
      assert (a + b)[0] == a[0] && (a + b)[1..] == a[1..] + b;
      if a[0] == '\n' && !p.escaped {
        FrameSplits(EMPTY, a[1..], b);
      } else if a[0] == '\r' && !p.escaped {
        FrameSplits(p, a[1..], b);
      } else {
        FrameSplits(Push(p, a[0]), a[1..], b);
      }
    }
  }

  function Taken(line: Option<string>): seq<string>
  {
    if line.Some? then [line.value] else []
  }

  /** Lines taken before the rest of the framing. */
  function Before(taken: seq<string>, f: Framed): Framed
  {
    Framed(taken + f.lines, f.rest)
  }

  lemma NoneBefore(f: Framed, line: Option<string>)
    ensures Before([], Before(Taken(line), f)) == Before(Taken(line), f)
  {
  }

  lemma NothingBefore(p: Partial)
    ensures Frame(p, "") == Before(Taken(None), Frame(p, ""))
  {
  }

  lemma BeforeMoves(taken: seq<string>, line: string, f: Framed)
    ensures Before(taken, Before(Taken(Some(line)), f)) == Before(taken + [line], f)
  {
    assert taken + ([line] + f.lines) == taken + [line] + f.lines;
  }

  lemma AllBefore(taken: seq<string>, p: Partial)
    ensures Before(taken, Before(Taken(None), Framed([], p))) == Framed(taken, p)
  {
  }

  const READAHEAD := 1024

  /** What one read() delivers: an error, the end of the input, or at most 1024 characters. */
  datatype Chunk = Failed | Bytes(bytes: string)

  class PipeBuffer {
    var buffer: string
    var error: bool
    var eof: bool
    var lastCharWasEscape: bool
    const readahead: array<char>
    var length: int
    var index: nat

    constructor ()
      ensures Valid() && !error && !eof && length == 0 && fresh(readahead)
      ensures Line() == EMPTY && Unread() == ""
    {
      buffer, error, eof, lastCharWasEscape := "", false, false, false;
      readahead := new char[READAHEAD];
      length, index := 0, 0;
    }

    /** After a read error the buffer must not be used again. */
    ghost predicate Valid()
      reads this
    {
      readahead.Length == READAHEAD && (!error ==> 0 <= length <= READAHEAD && (length > 0 ==> index <= length))
    }

    ghost function Line(): Partial
      reads this
    {
      Partial(buffer, lastCharWasEscape)
    }

    /** The characters read and not yet framed. */
    ghost function Unread(): string
      requires Valid() && !error
      reads this, readahead
    {
      if length > 0 then readahead[index..length] else ""
    }

    /** Fills the readahead buffer from the pipe. */
    method Fill(chunk: Chunk)
      requires Valid() && !error && length == 0
      requires chunk.Bytes? ==> |chunk.bytes| <= READAHEAD
      modifies this`length, this`index, this`error, this`eof, readahead
      ensures Valid() && (error <==> chunk.Failed?)
      ensures chunk.Bytes? ==>
                length == |chunk.bytes| && Unread() == chunk.bytes && eof == (old(eof) || chunk.bytes == "")
    {
      if chunk.Failed? {
        length, error := -1, true;
        return;
      }
      length := |chunk.bytes|;
      if length == 0 {
        eof := true;
        return;
      }
      for i := 0 to |chunk.bytes|
        modifies readahead
        invariant readahead[..i] == chunk.bytes[..i]
      {
        readahead[i] := chunk.bytes[i];
      }
      index := 0;
      assert readahead[index..length] == readahead[..length] == chunk.bytes[..length];
    }

    /** Takes characters off the readahead up to the end of a line, if there is one. */
    method TakeLine() returns (line: Option<string>)
      requires Valid() && !error && length > 0
      modifies this`index, this`buffer, this`lastCharWasEscape, this`length
      ensures Valid() && (line.Some? <==> length > 0)
      ensures Frame(old(Line()), old(Unread())) == Before(Taken(line), Frame(Line(), Unread()))
      ensures line.Some? ==> |Unread()| < |old(Unread())|
    {
      hide Frame, Before;
      ghost var text := readahead[..length];
      assert Unread() == text[index..];
      while index != length
        modifies this`index, this`buffer, this`lastCharWasEscape
        invariant old(index) <= index <= length
        invariant Frame(Line(), text[index..]) == Frame(old(Line()), text[old(index)..])
        decreases length - index
      {
        var c := readahead[index];
        FrameNext(Line(), text, index);
        index := index + 1;
        if c == '\n' && !lastCharWasEscape {
          line := Some(buffer);
          buffer := "";
          assert Unread() == text[index..];
          return;
        } else if c == '\r' && !lastCharWasEscape {
        } else {
          buffer := buffer + [c];
          lastCharWasEscape := c == '\\' && !lastCharWasEscape;
        }
      }
      NothingBefore(Line());
      assert text[index..] == "";
      length := 0;
      return None;
    }

    /**
     * The next complete line, if the readahead holds one; `chunk` is what read() would deliver,
     * and it is asked for only when the readahead is spent.
     */
    method GetNextLine(chunk: Chunk) returns (line: Option<string>)
      requires Valid() && !error
      requires chunk.Bytes? ==> |chunk.bytes| <= READAHEAD
      modifies this, readahead
      ensures Valid() && (error <==> old(length) == 0 && chunk.Failed?)
      ensures error ==> line.None? && Line() == old(Line())
      ensures !error ==>
                var input := if old(length) == 0 then chunk.bytes else old(Unread());
                && Frame(old(Line()), input) == Before(Taken(line), Frame(Line(), Unread()))
                && (line.Some? <==> length > 0)
                && (line.Some? ==> |Unread()| < |input|)
    {
      hide Frame, Before;
      if length == 0 {
        Fill(chunk);
        if error || length == 0 {
          NothingBefore(Line());
          return None;
        }
      }
      line := TakeLine();
    }

    /** The handler of the input pipe: takes lines until the chunk is used up. */
    method HandleChunk(bytes: string) returns (lines: seq<string>)
      requires Valid() && !error && length == 0
      requires 0 < |bytes| <= READAHEAD
      modifies this, readahead
      ensures Valid() && !error && length == 0
      ensures Framed(lines, Line()) == Frame(old(Line()), bytes)
    {
      hide Frame, Before;
      lines := [];
      var line := GetNextLine(Bytes(bytes));
      NoneBefore(Frame(Line(), Unread()), line);
      while line.Some?
        invariant Valid() && !error && (line.Some? <==> length > 0)
        invariant Before(lines, Before(Taken(line), Frame(Line(), Unread()))) == Frame(old(Line()), bytes)
        decreases if line.Some? then 1 + |Unread()| else 0
      {
        BeforeMoves(lines, line.value, Frame(Line(), Unread()));
        lines := lines + [line.value];
        line := GetNextLine(Bytes(""));
      }
      FrameFirst(Line(), "");
      AllBefore(lines, Line());
    }

    /** The whole input, however the reads cut it. */
    method HandleInput(chunks: seq<string>) returns (lines: seq<string>)
      requires Valid() && !error && length == 0
      requires forall i :: 0 <= i < |chunks| ==> 0 < |chunks[i]| <= READAHEAD
      modifies this, readahead
      ensures Valid() && !error && length == 0
      ensures Framed(lines, Line()) == Frame(old(Line()), Concat(chunks))
    {
      lines := [];
      for k := 0 to |chunks|
        invariant Valid() && !error && length == 0
        invariant Framed(lines, Line()) == Frame(old(Line()), Concat(chunks[..k]))
      {
        var more := HandleChunk(chunks[k]);
        FrameSplits(old(Line()), Concat(chunks[..k]), chunks[k]);
        assert chunks[..k + 1][..k] == chunks[..k];
        lines := lines + more;
      }
      assert chunks[..|chunks|] == chunks;
    }
  }

  function Concat(chunks: seq<string>): string
  {
    if chunks == [] then "" else Concat(chunks[..|chunks| - 1]) + chunks[|chunks| - 1]
  }

  // ---------------------------------------------------------------- escaping

  predicate Special(c: char)
  {
    c == ' ' || c == '\\' || c == '\r' || c == '\n'
  }

  function EscapedChar(c: char): string
  {
    if Special(c) then ['\\', c] else [c]
  }

  function Escaped(arg: string): string
  {
    if arg == "" then "" else EscapedChar(arg[0]) + Escaped(arg[1..])
  }

  /** An empty argument is written, and so read back, as the word NULL. */
  function Readable(arg: string): string
  {
    if arg == "" then "NULL" else arg
  }

  /** Arguments, escaped and separated by single spaces. */
  function Line(args: seq<string>): string
    requires args != []
  {
    if |args| == 1 then Escaped(Readable(args[0]))
    else Escaped(Readable(args[0])) + " " + Line(args[1..])
  }

  lemma EscapedFirst(a: string)
    ensures Escaped(a) == if a == "" then "" else EscapedChar(a[0]) + Escaped(a[1..])
  {
  }

  lemma Associates(a: string, b: string, c: string)
    ensures a + b + c == a + (b + c)
  {
  }

  lemma {:induction false} EscapedSplits(a: string, b: string)
    ensures Escaped(a + b) == Escaped(a) + Escaped(b)
  {
    hide EscapedChar, Escaped;
    EscapedFirst(a);
    if a == "" {
      assert a + b == b && "" + Escaped(b) == Escaped(b);
    } else {
      EscapedSplits(a[1..], b);
      EscapedFirst(a + b);
      assert (a + b)[1..] == a[1..] + b;
      Associates(EscapedChar(a[0]), Escaped(a[1..]), Escaped(b));
    }
  }

  lemma EscapedNext(a: string, i: nat)
    requires i < |a|
    ensures Escaped(a[..i + 1]) == Escaped(a[..i]) + EscapedChar(a[i])
  {
    hide Escaped, EscapedChar;
    EscapedSplits(a[..i], [a[i]]);
    EscapedOne(a[i]);
    assert a[..i] + [a[i]] == a[..i + 1];
  }

  lemma EscapedOne(c: char)
    ensures Escaped([c]) == EscapedChar(c)
  {
    assert [c][1..] == "" && Escaped("") == "";
  }

  lemma {:induction false} LineSplits(a: seq<string>, b: seq<string>)
    requires a != [] && b != []
    ensures Line(a + b) == Line(a) + " " + Line(b)
    decreases |a|
  {
    assert (a + b)[0] == a[0] && (a + b)[1..] == a[1..] + b;
    if |a| == 1 {
      assert a[1..] + b == b;
    } else {
      LineSplits(a[1..], b);
      assert Escaped(Readable(a[0])) + " " + (Line(a[1..]) + " " + Line(b)) == Line(a) + " " + Line(b);
    }
  }

  method AppendEscapedArg(buffer: string, arg: string) returns (r: string)
    ensures r == buffer + Escaped(Readable(arg))
  {
    r := buffer;
    if arg == "" {
      EscapedPlain("NULL");
      return r + "NULL";
    }
    hide Escaped;
    EscapedFirst("");
    for i := 0 to |arg|
      invariant r == buffer + Escaped(arg[..i])
    {
      EscapedNext(arg, i);
      Associates(buffer, Escaped(arg[..i]), EscapedChar(arg[i]));
      if Special(arg[i]) {
        r := r + ['\\'];
      }
      r := r + [arg[i]];
    }
    assert arg[..|arg|] == arg;
  }

  lemma {:induction false} EscapedPlain(s: string)
    requires forall i :: 0 <= i < |s| ==> !Special(s[i])
    ensures Escaped(s) == s
  {
    if s != "" {
      EscapedPlain(s[1..]);
    }
  }

  /** What printf writes for "%d". */
  function Number(n: int): (s: string)
    ensures s != "" && forall i :: 0 <= i < |s| ==> IsDigit(s[i]) || s[i] == '-'
  {
    if n < 0 then "-" + Decimal(-n) else Decimal(n)
  }

  /** The digits of a number mean that number, behind a minus exactly if it is negative. */
  lemma NumberReads(n: int)
    ensures n >= 0 ==> Number(n)[0] != '-' && Number(n) == Decimal(n) && NumberOf(Decimal(n)) == n
    ensures n < 0 ==> Number(n)[0] == '-' && Number(n)[1..] == Decimal(-n) && NumberOf(Decimal(-n)) == -n
  {
    NumberOfDecimal(if n < 0 then -n else n);
  }

  lemma NumberLine(n: int)
    ensures Line([Number(n)]) == Number(n)
  {
    EscapedPlain(Number(n));
  }

  lemma LineLonger(args: seq<string>, arg: string)
    requires args != []
    ensures Line(args + [arg]) == Line(args) + " " + Escaped(Readable(arg))
  {
    LineSplits(args, [arg]);
  }

  method CreateResultString(reqId: int, code: string, msg: string, args: seq<string>) returns (r: string)
    ensures r == Line([Number(reqId), code, msg] + args) + "\n"
  {
    r := Number(reqId);
    NumberLine(reqId);
    hide Line, Number, Escaped, Readable;
    r := r + " ";
    r := AppendEscapedArg(r, code);
    LineLonger([Number(reqId)], code);
    assert [Number(reqId)] + [code] == [Number(reqId), code];
    r := r + " ";
    r := AppendEscapedArg(r, msg);
    LineLonger([Number(reqId), code], msg);
    ghost var head := [Number(reqId), code] + [msg];
    assert head + args[..0] == head == [Number(reqId), code, msg];
    for i := 0 to |args|
      invariant r == Line(head + args[..i])
    {
      r := r + " ";
      r := AppendEscapedArg(r, args[i]);
      LineLonger(head + args[..i], args[i]);
      assert head + args[..i] + [args[i]] == head + args[..i + 1];
    }
    assert args[..|args|] == args;
    r := r + "\n";
  }

  // ---------------------------------------------------------------- parsing

  /** The part of a string that C code sees. */
  function CString(s: string): string
  {
    if s == "" || s[0] == '\0' then "" else [s[0]] + CString(s[1..])
  }

  predicate Separator(c: char)
  {
    c == ' ' || c == '\t' || c == '\r' || c == '\n'
  }

  /** The arguments in `s`, the first of which begins with `buff`.  An escaped character in the last place is lost. */
  function Arguments(s: string, buff: string): (args: seq<string>)
    ensures args != []
    decreases |s|
  {
    if s == "" then [buff]
    else if s[0] == '\\' then
      if |s| <= 2 then [buff] else Arguments(s[2..], buff + [s[1]])
    else if Separator(s[0]) then [buff] + Arguments(s[1..], "")
    else Arguments(s[1..], buff + [s[0]])
  }

  method ParseGahpCommand(line: string) returns (args: seq<string>)
    ensures args == Arguments(CString(line), "")
  {
    var raw := CString(line);
    var len := |raw|;
    args := [];
    var buff := "";
    var i := 0;
    while i < len
      invariant 0 <= i <= len + 1
      invariant args + Arguments(if i <= len then raw[i..] else "", buff) == Arguments(raw, "")
    {
      if raw[i] == '\\' {
        ghost var s, b := raw[i..], buff;
        i := i + 1;
        if i < len - 1 {
          buff := buff + [raw[i]];
          assert s[2..] == raw[i + 1..];
        } else {
          assert Arguments(s, b) == [b];
        }
        i := i + 1;
        assert i >= len ==> (if i <= len then raw[i..] else "") == "";
      } else {
        assert raw[i..][0] == raw[i] && raw[i..][1..] == raw[i + 1..];
        if Separator(raw[i]) {
          args := args + [buff];
          buff := "";
        } else {
          buff := buff + [raw[i]];
        }
        i := i + 1;
      }
    }
    args := args + [buff];
  }

  // ---------------------------------------------------------------- framing undoes the line ends

  /** Result lines, one after the other. */
  function Stream(lists: seq<seq<string>>): string
    requires forall i :: 0 <= i < |lists| ==> lists[i] != []
  {
    if lists == [] then "" else Line(lists[0]) + "\n" + Stream(lists[1..])
  }

  function LinesOf(lists: seq<seq<string>>): (lines: seq<string>)
    requires forall i :: 0 <= i < |lists| ==> lists[i] != []
    ensures |lines| == |lists| && forall i :: 0 <= i < |lists| ==> lines[i] == Line(lists[i])
  {
    if lists == [] then [] else [Line(lists[0])] + LinesOf(lists[1..])
  }

  lemma {:induction false} FrameEscaped(text: string, a: string, rest: string)
    ensures Frame(Partial(text, false), Escaped(a) + rest) == Frame(Partial(text + Escaped(a), false), rest)
    decreases |a|
  {
    if a == "" {
      assert Escaped(a) + rest == rest && text + Escaped(a) == text;
    } else {
      var tail := Escaped(a[1..]) + rest;
      assert Escaped(a) + rest == EscapedChar(a[0]) + tail;
      FrameEscapedChar(text, a[0], tail);
      FrameEscaped(text + EscapedChar(a[0]), a[1..], rest);
      assert text + EscapedChar(a[0]) + Escaped(a[1..]) == text + Escaped(a);
    }
  }

  lemma FrameEscapedChar(text: string, c: char, rest: string)
    ensures Frame(Partial(text, false), EscapedChar(c) + rest) == Frame(Partial(text + EscapedChar(c), false), rest)
  {
    if Special(c) {
      var s := EscapedChar(c) + rest;
      assert s[0] == '\\' && s[1..] == [c] + rest;
      var p := Push(Partial(text, false), '\\');
      assert ([c] + rest)[0] == c && ([c] + rest)[1..] == rest;
      assert Frame(p, [c] + rest) == Frame(Push(p, c), rest);
      assert text + ['\\'] + [c] == text + EscapedChar(c);
    } else {
      assert ([c] + rest)[0] == c && ([c] + rest)[1..] == rest;
    }
  }

  lemma {:induction false} FrameLine(text: string, args: seq<string>, rest: string)
    requires args != []
    ensures Frame(Partial(text, false), Line(args) + rest) == Frame(Partial(text + Line(args), false), rest)
    decreases |args|
  {
    var first := Readable(args[0]);
    if |args| == 1 {
      FrameEscaped(text, first, rest);
    } else {
      var tail := " " + (Line(args[1..]) + rest);
      assert Line(args) + rest == Escaped(first) + tail;
      FrameEscaped(text, first, tail);
      assert tail[0] == ' ' && tail[1..] == Line(args[1..]) + rest;
      FrameLine(text + Escaped(first) + " ", args[1..], rest);
      assert text + Escaped(first) + " " + Line(args[1..]) == text + Line(args);
    }
  }

  /** The framer cuts the stream back into exactly the lines that were written. */
  lemma {:induction false} FramingExact(lists: seq<seq<string>>)
    requires forall i :: 0 <= i < |lists| ==> lists[i] != []
    ensures Frame(EMPTY, Stream(lists)) == Framed(LinesOf(lists), EMPTY)
  {
    hide Frame, Line;
    FrameFirst(EMPTY, "");
    if lists != [] {
      var line, tail := Line(lists[0]), Stream(lists[1..]);
      assert Stream(lists) == line + ("\n" + tail);
      FrameLine("", lists[0], "\n" + tail);
      assert "" + line == line;
      FrameFirst(Partial(line, false), "\n" + tail);
      assert ("\n" + tail)[0] == '\n' && ("\n" + tail)[1..] == tail;
      FramingExact(lists[1..]);
    }
  }

  // ---------------------------------------------------------------- parsing undoes the escapes

  predicate EndsSpecial(a: string)
  {
    a != "" && Special(a[|a| - 1])
  }

  lemma CharRead(c: char, buff: string, tail: string)
    requires c != '\t' && (Special(c) ==> tail != "")
    ensures Arguments(EscapedChar(c) + tail, buff) == Arguments(tail, buff + [c])
  {
    var s := EscapedChar(c) + tail;
    if Special(c) {
      assert s[0] == '\\' && s[1] == c && s[2..] == tail;
    } else {
      assert s[0] == c && s[1..] == tail;
    }
  }

  /** An escaped word is read back, unless a special character of it ends the line. */
  lemma {:induction false} WordRead(a: string, buff: string, rest: string)
    requires '\t' !in a && (EndsSpecial(a) ==> rest != "")
    ensures Arguments(Escaped(a) + rest, buff) == Arguments(rest, buff + a)
    decreases |a|
  {
    hide Arguments;
    if a == "" {
      assert Escaped(a) + rest == rest && buff + a == buff;
    } else {
      var tail := Escaped(a[1..]) + rest;
      assert Escaped(a) + rest == EscapedChar(a[0]) + tail;
      EscapedNonempty(a[1..]);
      CharRead(a[0], buff, tail);
      WordRead(a[1..], buff + [a[0]], rest);
      assert buff + [a[0]] + a[1..] == buff + a;
    }
  }

  lemma CutShort(c: char, buff: string)
    ensures Arguments(['\\', c], buff) == [buff]
  {
  }

  /** A special character that ends the line is lost. */
  lemma LastWordCut(a: string)
    requires '\t' !in a && EndsSpecial(a)
    ensures Arguments(Escaped(a), "") == [a[..|a| - 1]]
  {
    hide Arguments, Escaped;
    var front, last := a[..|a| - 1], a[|a| - 1];
    CutShort(last, front);
    assert a == front + [last];
    EscapedSplits(front, [last]);
    EscapedOne(last);
    WordRead(front, "", ['\\', last]);
    assert "" + front == front;
  }

  lemma EscapedNonempty(a: string)
    ensures Escaped(a) == "" <==> a == ""
  {
  }

  /** Plain arguments hold no tab and no NUL. */
  predicate Plain(args: seq<string>)
  {
    forall i :: 0 <= i < |args| ==> '\t' !in args[i] && '\0' !in args[i]
  }

  /** What the parser delivers of plain arguments. */
  function Delivered(args: seq<string>): seq<string>
    requires args != []
  {
    if |args| > 1 then [Readable(args[0])] + Delivered(args[1..])
    else [if EndsSpecial(args[0]) then args[0][..|args[0]| - 1] else Readable(args[0])]
  }

  lemma {:induction false} ArgumentsRead(args: seq<string>)
    requires args != [] && Plain(args)
    ensures Arguments(Line(args), "") == Delivered(args)
    decreases |args|
  {
    var first := Readable(args[0]);
    if |args| == 1 {
      if EndsSpecial(first) {
        LastWordCut(first);
      } else {
        WordRead(first, "", "");
        assert Escaped(first) + "" == Escaped(first) && "" + first == first;
      }
    } else {
      var tail := " " + Line(args[1..]);
      assert Line(args) == Escaped(first) + tail;
      WordRead(first, "", tail);
      assert "" + first == first && tail[0] == ' ' && tail[1..] == Line(args[1..]);
      ArgumentsRead(args[1..]);
    }
  }

  lemma {:induction false} CStringWhole(s: string)
    requires '\0' !in s
    ensures CString(s) == s
  {
    if s != "" {
      CStringWhole(s[1..]);
    }
  }

  lemma {:induction false} EscapedKeepsNul(a: string)
    ensures '\0' in Escaped(a) <==> '\0' in a
  {
    if a != "" {
      EscapedKeepsNul(a[1..]);
      assert a == [a[0]] + a[1..];
    }
  }

  lemma {:induction false} LineNul(args: seq<string>)
    requires args != []
    ensures '\0' in Line(args) <==> exists i :: 0 <= i < |args| && '\0' in args[i]
    decreases |args|
  {
    EscapedKeepsNul(Readable(args[0]));
    if |args| > 1 {
      LineNul(args[1..]);
      assert Line(args) == Escaped(Readable(args[0])) + " " + Line(args[1..]);
      if '\0' in Line(args[1..]) {
        var i :| 0 <= i < |args[1..]| && '\0' in args[1..][i];
        assert '\0' in args[i + 1];
      }
      forall i | 1 <= i < |args| && '\0' in args[i]
        ensures '\0' in Line(args[1..])
      {
        assert args[1..][i - 1] == args[i];
      }
    }
  }

  // ---------------------------------------------------------------- where the round trip fails

  /** How often a character that ends an argument stands outside an escape. */
  function Separators(s: string): nat
    decreases |s|
  {
    if s == "" then 0
    else if s[0] == '\\' then if |s| <= 2 then 0 else Separators(s[2..])
    else (if Separator(s[0]) then 1 else 0) + Separators(s[1..])
  }

  lemma {:induction false} ArgumentCount(s: string, buff: string)
    ensures |Arguments(s, buff)| == 1 + Separators(s)
    decreases |s|
  {
    if s != "" {
      if s[0] == '\\' {
        if |s| > 2 {
          ArgumentCount(s[2..], buff + [s[1]]);
        }
      } else if Separator(s[0]) {
        ArgumentCount(s[1..], "");
      } else {
        ArgumentCount(s[1..], buff + [s[0]]);
      }
    }
  }

  function Tabs(a: string): nat
  {
    if a == "" then 0 else (if a[0] == '\t' then 1 else 0) + Tabs(a[1..])
  }

  lemma {:induction false} NoTabs(a: string)
    ensures Tabs(a) == 0 <==> '\t' !in a
  {
    if a != "" {
      NoTabs(a[1..]);
      assert a == [a[0]] + a[1..];
    }
  }

  lemma CharSeparators(c: char, tail: string)
    ensures Separators(EscapedChar(c) + tail) == (if c == '\t' then 1 else 0) + Separators(tail)
  {
    var s := EscapedChar(c) + tail;
    if Special(c) {
      assert s[0] == '\\' && s[2..] == tail;
    } else {
      assert s[0] == c && s[1..] == tail;
    }
  }

  lemma {:induction false} WordSeparators(a: string, rest: string)
    ensures Separators(Escaped(a) + rest) == Tabs(a) + Separators(rest)
    decreases |a|
  {
    hide Separators;
    if a == "" {
      assert Escaped(a) + rest == rest;
    } else {
      var tail := Escaped(a[1..]) + rest;
      assert Escaped(a) + rest == EscapedChar(a[0]) + tail;
      CharSeparators(a[0], tail);
      WordSeparators(a[1..], rest);
    }
  }

  /** Every tab makes one argument too many. */
  lemma {:induction false} TabsSplit(args: seq<string>)
    requires args != []
    ensures Separators(Line(args)) >= |args| - 1
    ensures Separators(Line(args)) == |args| - 1 ==> forall i :: 0 <= i < |args| ==> '\t' !in args[i]
    decreases |args|
  {
    var first := Readable(args[0]);
    NoTabs(first);
    if |args| == 1 {
      WordSeparators(first, "");
      assert Escaped(first) + "" == Escaped(first);
    } else {
      var tail := " " + Line(args[1..]);
      assert Line(args) == Escaped(first) + tail;
      WordSeparators(first, tail);
      assert tail[0] == ' ' && tail[1..] == Line(args[1..]);
      TabsSplit(args[1..]);
      forall i | 0 <= i < |args| && Separators(Line(args)) == |args| - 1
        ensures '\t' !in args[i]
      {
        if i > 0 {
          assert args[1..][i - 1] == args[i];
        }
      }
    }
  }

  /** The parser never delivers a NUL. */
  lemma {:induction false} NoNulDelivered(s: string, buff: string, i: nat)
    requires '\0' !in s && '\0' !in buff && i < |Arguments(s, buff)|
    ensures '\0' !in Arguments(s, buff)[i]
    decreases |s|
  {
    if s != "" {
      if s[0] == '\\' {
        if |s| > 2 {
          NoNulDelivered(s[2..], buff + [s[1]], i);
        }
      } else if Separator(s[0]) {
        if i > 0 {
          NoNulDelivered(s[1..], "", i - 1);
        }
      } else {
        NoNulDelivered(s[1..], buff + [s[0]], i);
      }
    }
  }

  lemma {:induction false} CStringHasNoNul(s: string)
    ensures '\0' !in CString(s)
  {
    if s != "" && s[0] != '\0' {
      CStringHasNoNul(s[1..]);
    }
  }

  lemma {:induction false} DeliveredIff(args: seq<string>)
    requires args != []
    ensures |Delivered(args)| == |args|
    ensures Delivered(args) == ReadableAll(args) <==> !EndsSpecial(args[|args| - 1])
    decreases |args|
  {
    var want := ReadableAll(args);
    if |args| > 1 {
      DeliveredIff(args[1..]);
      var rest := ReadableAll(args[1..]);
      assert want == [want[0]] + rest;
      assert Delivered(args) == [want[0]] + Delivered(args[1..]);
      assert rest == want[1..] && Delivered(args[1..]) == Delivered(args)[1..];
    } else if EndsSpecial(args[0]) {
      assert |Delivered(args)[0]| != |want[0]|;
    }
  }

  /** No tab, no NUL, and no special character at the end of the last argument. */
  predicate Transparent(args: seq<string>)
  {
    args != [] && Plain(args) && !EndsSpecial(args[|args| - 1])
  }

  /** A written line reads back, with NULL for empty arguments, exactly if its arguments are transparent. */
  lemma ParsesBackIff(args: seq<string>)
    requires args != []
    ensures Arguments(CString(Line(args)), "") == ReadableAll(args) <==> Transparent(args)
  {
    var want := ReadableAll(args);
    var got := Arguments(CString(Line(args)), "");
    LineNul(args);
    if exists i :: 0 <= i < |args| && '\0' in args[i] {
      var i :| 0 <= i < |args| && '\0' in args[i];
      CStringHasNoNul(Line(args));
      if i < |got| {
        NoNulDelivered(CString(Line(args)), "", i);
      }
      assert want[i] == args[i];
    } else {
      CStringWhole(Line(args));
      ArgumentCount(Line(args), "");
      TabsSplit(args);
      if Plain(args) {
        ArgumentsRead(args);
        DeliveredIff(args);
      }
    }
  }

  function ReadableAll(args: seq<string>): seq<string>
  {
    seq(|args|, k requires 0 <= k < |args| => Readable(args[k]))
  }

  /** The lines of a written stream parse back into what was written. */
  lemma StreamReadsBack(lists: seq<seq<string>>)
    requires forall i :: 0 <= i < |lists| ==> lists[i] != [] && Transparent(lists[i])
    ensures var f := Frame(EMPTY, Stream(lists));
            && f.rest == EMPTY && |f.lines| == |lists|
            && forall i :: 0 <= i < |lists| ==> Arguments(CString(f.lines[i]), "") == ReadableAll(lists[i])
  {
    FramingExact(lists);
    forall i | 0 <= i < |lists|
      ensures Arguments(CString(Line(lists[i])), "") == ReadableAll(lists[i])
    {
      ParsesBackIff(lists[i]);
    }
  }

  /** Whatever was written reads back through a pipe buffer, however the reads cut the stream. */
  method RoundTrip(chunks: seq<string>, ghost lists: seq<seq<string>>) returns (commands: seq<seq<string>>)
    requires forall i :: 0 <= i < |chunks| ==> 0 < |chunks[i]| <= READAHEAD
    requires forall i :: 0 <= i < |lists| ==> lists[i] != [] && Transparent(lists[i])
    requires Concat(chunks) == Stream(lists)
    ensures |commands| == |lists|
    ensures forall i :: 0 <= i < |lists| ==> commands[i] == ReadableAll(lists[i])
  {
    hide Frame, Arguments, Transparent, ReadableAll, Stream, Concat;
    StreamReadsBack(lists);
    var buffer := new PipeBuffer();
    var lines := buffer.HandleInput(chunks);
    commands := [];
    for k := 0 to |lines|
      invariant |commands| == k
      invariant forall i :: 0 <= i < k ==> commands[i] == ReadableAll(lists[i])
    {
      var args := ParseGahpCommand(lines[k]);
      commands := commands + [args];
    }
  }

  /** An argument that ends in a blank loses it in the last place. */
  lemma LastBlankIsLost()
    ensures Arguments(CString(Line(["1", "a "])), "") == ["1", "a"]
  {
    var args := ["1", "a "];
    assert Plain(args);
    ArgumentsRead(args);
    assert args[1..] == ["a "] && "a "[..1] == "a";
    assert Delivered(["a "]) == ["a"];
    LineNul(args);
    CStringWhole(Line(args));
  }
}
