/** The line tokenizer of the configuration file. */
module ConfigFile {
  import opened Wire

  // ---- Character classes

  predicate Blank(ch: char) { ch == ' ' || ch == '\t' }

  predicate Separator(ch: char) { Blank(ch) || ch == '=' }

  predicate NewLine(ch: char) { ch == '\n' || ch == '\r' || ch == '\0' }

  predicate LineComment(ch: char) { NewLine(ch) || ch == '#' || ch == ';' }

  predicate ValueEnd(ch: char) { NewLine(ch) || Blank(ch) }

  // ---- What a line means

  /** Length of the longest prefix whose characters all satisfy p. */
  function Span(s: seq<char>, p: char -> bool): (n: nat)
    ensures n <= |s|
    ensures forall i :: 0 <= i < n ==> p(s[i])
    ensures n < |s| ==> !p(s[n])
  {
    if s == [] || !p(s[0]) then 0 else 1 + Span(s[1..], p)
  }

  predicate All(s: seq<char>, p: char -> bool) {
    forall i :: 0 <= i < |s| ==> p(s[i])
  }

  /** A run of matching characters is split off whole. */
  lemma {:induction false} SpanSplits(run: seq<char>, rest: seq<char>, p: char -> bool)
    requires All(run, p) && (rest == [] || !p(rest[0]))
    ensures var s := run + rest;
      Span(s, p) == |run| && s[..|run|] == run && s[|run|..] == rest
  {
    if run == [] {
      assert run + rest == rest;
    } else {
      SpanSplits(run[1..], rest, p);
      assert (run + rest)[1..] == run[1..] + rest;
    }
  }

  /** A token of at least one character is split off at the first stop character after it. */
  lemma TokenSplits(token: seq<char>, rest: seq<char>, keep: char -> bool)
    requires token != [] && All(token[1..], keep) && (rest == [] || !keep(rest[0]))
    ensures var s := token + rest;
      1 + Span(s[1..], keep) == |token| && s[..|token|] == token && s[|token|..] == rest
  {
    assert (token + rest)[1..] == token[1..] + rest;
    SpanSplits(token[1..], rest, keep);
  }

  /** Splitting off a run leaves nothing, or something that starts with a stop character. */
  lemma RunShape(s: seq<char>, p: char -> bool)
    ensures var n := Span(s, p);
      s == s[..n] + s[n..] && All(s[..n], p) && (s[n..] == [] || !p(s[n..][0]))
  {
  }

  /** The same for a token, whose first character counts whatever it is. */
  lemma TokenShape(s: seq<char>, keep: char -> bool)
    requires s != []
    ensures var n := 1 + Span(s[1..], keep);
      && s == s[..n] + s[n..] && s[..n] != [] && s[..n][0] == s[0]
      && All(s[..n][1..], keep) && (s[n..] == [] || !keep(s[n..][0]))
  {
    var n := Span(s[1..], keep);
    RunShape(s[1..], keep);
    assert s[..1 + n][1..] == s[1..][..n] && s[1 + n..] == s[1..][n..];
  }

  predicate NotSeparator(ch: char) { !Separator(ch) }

  predicate NotValueEnd(ch: char) { !ValueEnd(ch) }

  /** Length of the key at the front of s: its first character counts whatever it is. */
  function KeyLength(s: seq<char>): nat
    requires s != []
  {
    1 + Span(s[1..], NotSeparator)
  }

  function ValueLength(s: seq<char>): nat
    requires s != []
  {
    1 + Span(s[1..], NotValueEnd)
  }

  /** The value that follows a key. */
  function AfterKey(key: seq<char>, t: seq<char>): Option<(seq<char>, seq<char>)> {
    var u := t[Span(t, Separator)..];
    if u == [] || NewLine(u[0]) then None
    else Some((key, u[..ValueLength(u)]))
  }

  /** Sizes of the buffers for a line, a key and a value. */
  const LINE_SIZE := 255
  const KEY_SIZE := 64
  const VALUE_SIZE := 255

  /** How much of the key the key buffer takes; the rest is read as the value. */
  function KeyTaken(s: seq<char>): (k: nat)
    requires s != []
    ensures k <= |s|
  {
    if KeyLength(s) < KEY_SIZE then KeyLength(s) else KEY_SIZE
  }

  function AfterBlanks(s: seq<char>): Option<(seq<char>, seq<char>)> {
    if s == [] || LineComment(s[0]) then None
    else AfterKey(s[..KeyTaken(s)], s[KeyTaken(s)..])
  }

  /** The key and value of a line, None for a comment, an empty line or a key without value. */
  function Tokenize(line: seq<char>): Option<(seq<char>, seq<char>)> {
    AfterBlanks(line[Span(line, Blank)..])
  }

  // ---- The loops

  /** Skips matching characters; `inside` tells whether the line goes on after them. */
  method SkipWhile(line: seq<char>, c: nat, p: char -> bool) returns (d: nat, inside: bool)
    requires c <= |line|
    ensures d == c + Span(line[c..], p) && (inside <==> d < |line|)
  {
    d := c;
    while d < |line| && p(line[d])
      invariant c <= d <= |line| && d + Span(line[d..], p) == c + Span(line[c..], p)
      decreases |line| - d
    {
      assert line[d..][1..] == line[d + 1..];
      d := d + 1;
    }
    inside := d < |line|;
  }

  method SkipWhitespace(line: seq<char>, c: nat) returns (d: nat, inside: bool)
    requires c <= |line|
    ensures d == c + Span(line[c..], Blank) && (inside <==> d < |line|)
  {
    d, inside := SkipWhile(line, c, Blank);
  }

  method ToValue(line: seq<char>, c: nat) returns (d: nat, inside: bool)
    requires c <= |line|
    ensures d == c + Span(line[c..], Separator) && (inside <==> d < |line|)
  {
    d, inside := SkipWhile(line, c, Separator);
  }

  /**
   * How a copying loop ends: with a terminator behind the token, with a full buffer and no
   * terminator, by writing the terminator behind the buffer, or by reading behind the line.
   */
  datatype End = Terminated | Unterminated | WritesPast | ReadsPast

  /** The end for a token of n characters, a buffer of `size`, and `left` characters of line. */
  function EndOf(n: nat, size: nat, left: nat): End {
    if n > size then Unterminated
    else if n == left then ReadsPast
    else if n == size then WritesPast
    else Terminated
  }

  function Min(m: nat, n: nat): nat {
    if m < n then m else n
  }

  /** The common loop of get_key and get_val: copy until a stop character follows, then terminate. */
  method CopyToken(line: seq<char>, c: nat, dst: array<char>, keep: char -> bool) returns (d: nat, end: End)
    requires c < |line|
    modifies dst
    ensures var n := 1 + Span(line[c + 1..], keep);
      && d == c + Min(n, dst.Length) && dst[..Min(n, dst.Length)] == line[c..d]
      && end == EndOf(n, dst.Length, |line| - c)
      && (end.Terminated? ==> dst[n] == '\0')
  {
    ghost var n := 1 + Span(line[c + 1..], keep);
    d := c;
    var i := 0;
    while i < dst.Length
      invariant 0 <= i < n && i <= dst.Length && d == c + i
      invariant dst[..i] == line[c..c + i]
    {
      dst[i] := line[d];
      d := d + 1;
      assert dst[..i + 1] == line[c..c + i + 1];
      if d == |line| {
        return d, ReadsPast;
      }
      assert line[d] == line[c + 1..][i];
      if !keep(line[d]) {
        assert i + 1 == n;
        if i + 1 == dst.Length {
          return d, WritesPast;
        }
        dst[i + 1] := '\0';
        return d, Terminated;
      }
      i := i + 1;
    }
    end := Unterminated;
  }

  /** For every key, also one that does not fit or does not end on the line. */
  method GetKey(line: seq<char>, c: nat, key: array<char>) returns (d: nat, end: End)
    requires c < |line|
    modifies key
    ensures var n := KeyLength(line[c..]);
      && d == c + Min(n, key.Length) && key[..Min(n, key.Length)] == line[c..d]
      && end == EndOf(n, key.Length, |line| - c)
      && (end.Terminated? ==> key[n] == '\0')
  {
    assert line[c..][1..] == line[c + 1..];
    d, end := CopyToken(line, c, key, NotSeparator);
  }

  method GetVal(line: seq<char>, c: nat, val: array<char>) returns (d: nat, end: End)
    requires c < |line|
    modifies val
    ensures var n := ValueLength(line[c..]);
      && d == c + Min(n, val.Length) && val[..Min(n, val.Length)] == line[c..d]
      && end == EndOf(n, val.Length, |line| - c)
      && (end.Terminated? ==> val[n] == '\0')
  {
    assert line[c..][1..] == line[c + 1..];
    d, end := CopyToken(line, c, val, NotValueEnd);
  }

  /** From position d on, after the key, the loops stay inside the line. */
  predicate ValueInside(line: seq<char>, d: nat) {
    && d <= |line|
    && var b := d + Span(line[d..], Separator);
       && b < |line|
       && (!NewLine(line[b]) ==> b + ValueLength(line[b..]) < |line|)
  }

  /**
   * From position c on, where the key starts, the loops stay inside the line and the key buffer.
   * A longer key fills the buffer and is cut; only one of exactly its size is terminated behind it.
   */
  predicate KeyInside(line: seq<char>, c: nat)
    requires c < |line|
  {
    var n := KeyLength(line[c..]);
    && n != KEY_SIZE && (n < KEY_SIZE ==> c + n < |line|)
    && ValueInside(line, c + KeyTaken(line[c..]))
  }

  /** The loops over this line stay inside the buffers of line, key and value. */
  predicate Contained(line: seq<char>) {
    var a := Span(line, Blank);
    a < |line| && (!LineComment(line[a]) ==> KeyInside(line, a))
  }

  /** What comes of a line: tokens, or an access outside a buffer. */
  datatype Outcome = Found(tokens: Option<(seq<char>, seq<char>)>) | Overrun

  /** The loops leave their buffers exactly when the line is not contained. */
  method ParseLine(line: seq<char>) returns (r: Outcome)
    requires |line| == LINE_SIZE
    ensures r == if Contained(line) then Found(Tokenize(line)) else Overrun
  {
    assert line[0..] == line;
    var c, inside := SkipWhitespace(line, 0);
    if !inside {
      return Overrun;
    }
    if LineComment(line[c]) {
      return Found(None);
    }
    KeySplits(line, c);
    r := ParseKey(line, c);
  }

  /** The part of the line from the key on. */
  method ParseKey(line: seq<char>, c: nat) returns (r: Outcome)
    requires c < |line| == LINE_SIZE
    ensures var k := KeyTaken(line[c..]);
      r == if KeyInside(line, c) then Found(AfterKey(line[c..][..k], line[c + k..])) else Overrun
  {
    var name, d, end := ReadKey(line, c);
    if end.WritesPast? || end.ReadsPast? {
      return Overrun;
    }
    r := ParseValue(line, d, name);
  }

  /** get_key into the 64-byte buffer. */
  method ReadKey(line: seq<char>, c: nat) returns (name: seq<char>, d: nat, end: End)
    requires c < |line|
    ensures d == c + KeyTaken(line[c..]) && name == line[c..][..KeyTaken(line[c..])]
    ensures end == EndOf(KeyLength(line[c..]), KEY_SIZE, |line| - c)
  {
    var key := new char[KEY_SIZE](_ => '\0');
    d, end := GetKey(line, c, key);
    name := key[..d - c];
  }

  lemma KeySplits(line: seq<char>, c: nat)
    requires c < |line| && !LineComment(line[c])
    ensures var s := line[c..]; var k := KeyTaken(s); AfterBlanks(s) == AfterKey(s[..k], line[c + k..])
  {
    var k := KeyTaken(line[c..]);
    assert line[c..][k..] == line[c + k..];
  }

  /** The part of the line after the key. */
  method ParseValue(line: seq<char>, d: nat, key: seq<char>) returns (r: Outcome)
    requires d <= |line| == LINE_SIZE
    ensures r == if ValueInside(line, d) then Found(AfterKey(key, line[d..])) else Overrun
  {
    var e, inside := ToValue(line, d);
    if !inside {
      return Overrun;
    }
    ValueSplits(line, d, key);
    if NewLine(line[e]) {
      return Found(None);
    }
    var val, end := ReadValue(line, e);
    if !end.Terminated? {
      return Overrun;
    }
    return Found(Some((key, val)));
  }

  /** get_val into the 255-byte buffer. */
  method ReadValue(line: seq<char>, c: nat) returns (val: seq<char>, end: End)
    requires c < |line| == LINE_SIZE
    ensures end.Terminated? <==> c + ValueLength(line[c..]) < |line|
    ensures end.Terminated? ==> val == line[c..][..ValueLength(line[c..])]
  {
    var buffer := new char[VALUE_SIZE](_ => '\0');
    var d;
    d, end := GetVal(line, c, buffer);
    val := buffer[..d - c];
  }

  lemma ValueSplits(line: seq<char>, d: nat, key: seq<char>)
    requires d <= |line| && d + Span(line[d..], Separator) < |line|
    ensures var e := d + Span(line[d..], Separator);
      AfterKey(key, line[d..]) == if NewLine(line[e]) then None else Some((key, line[e..][..ValueLength(line[e..])]))
  {
    var e := d + Span(line[d..], Separator);
    assert line[d..][e - d..] == line[e..];
  }

  // ---- Round trip

  /**
   * A key that can be written: it does not start with a blank or a comment mark, and holds no
   * separator. A leading '=' is kept, because the key loop copies before it looks.
   */
  predicate WritableKey(key: seq<char>) {
    key != [] && !Blank(key[0]) && !LineComment(key[0]) && All(key[1..], NotSeparator)
  }

  /** A value that can be written: no blanks or line ends, not starting with '='. */
  predicate WritableValue(val: seq<char>) {
    val != [] && All(val, NotValueEnd) && val[0] != '='
  }

  lemma ValueReads(key: seq<char>, seps: seq<char>, val: seq<char>, w: seq<char>)
    requires All(seps, Separator) && WritableValue(val) && (w == [] || ValueEnd(w[0]))
    ensures AfterKey(key, seps + (val + w)) == Some((key, val))
  {
    SpanSplits(seps, val + w, Separator);
    TokenSplits(val, w, NotValueEnd);
  }

  /** A key that fits is read whole, a longer one up to the size of the buffer. */
  lemma KeyReads(key: seq<char>, t: seq<char>)
    requires WritableKey(key) && (t == [] || Separator(t[0]))
    ensures |key| <= KEY_SIZE ==> AfterBlanks(key + t) == AfterKey(key, t)
    ensures |key| > KEY_SIZE ==> AfterBlanks(key + t) == AfterKey((key + t)[..KEY_SIZE], (key + t)[KEY_SIZE..])
  {
    TokenSplits(key, t, NotSeparator);
  }

  lemma Regroup(a: seq<char>, b: seq<char>, c: seq<char>, d: seq<char>, e: seq<char>)
    ensures a + b + c + d + e == a + (b + (c + (d + e)))
  {
  }

  /**
   * blanks key separators value terminator, then anything, reads back as that key and value if
   * and only if the key fits its buffer.
   */
  lemma RoundTrip(blanks: seq<char>, key: seq<char>, seps: seq<char>, val: seq<char>, rest: seq<char>)
    requires All(blanks, Blank) && WritableKey(key) && seps != [] && All(seps, Separator)
    requires WritableValue(val) && (rest == [] || ValueEnd(rest[0]))
    ensures Tokenize(blanks + key + seps + val + rest) == Some((key, val)) <==> |key| <= KEY_SIZE
  {
    Regroup(blanks, key, seps, val, rest);
    var t := seps + (val + rest);
    assert t[0] == seps[0] && (key + t)[0] == key[0] && !Blank(key[0]);
    SpanSplits(blanks, key + t, Blank);
    KeyReads(key, t);
    ValueReads(key, seps, val, rest);
  }

  // ---- Round trip through the loops

  /** The value's loop stays inside the line. */
  lemma ValueFits(line: seq<char>, d: nat, seps: seq<char>, val: seq<char>, rest: seq<char>)
    requires d <= |line| && line[d..] == seps + (val + rest)
    requires All(seps, Separator) && WritableValue(val) && rest != [] && ValueEnd(rest[0])
    ensures ValueInside(line, d)
  {
    SpanSplits(seps, val + rest, Separator);
    var b := d + |seps|;
    assert line[b..] == line[d..][|seps|..] == val + rest;
    TokenSplits(val, rest, NotValueEnd);
  }

  lemma KeyFits(line: seq<char>, c: nat, key: seq<char>, t: seq<char>)
    requires c < |line| && line[c..] == key + t && WritableKey(key) && t != [] && Separator(t[0])
    ensures KeyLength(line[c..]) == |key| && line[c + |key|..] == t
  {
    TokenSplits(key, t, NotSeparator);
    assert line[c + |key|..] == line[c..][|key|..];
  }

  /**
   * A line of the layout that can be written stays inside all buffers when its key has at most 63
   * characters, and leaves the key buffer when it has 64.
   */
  lemma Fits(blanks: seq<char>, key: seq<char>, seps: seq<char>, val: seq<char>, rest: seq<char>)
    requires All(blanks, Blank) && WritableKey(key) && seps != [] && All(seps, Separator)
    requires WritableValue(val) && rest != [] && ValueEnd(rest[0])
    ensures |key| < KEY_SIZE ==> Contained(blanks + key + seps + val + rest)
    ensures |key| == KEY_SIZE ==> !Contained(blanks + key + seps + val + rest)
  {
    var line := blanks + key + seps + val + rest;
    var t := seps + (val + rest);
    var a := |blanks|;
    Regroup(blanks, key, seps, val, rest);
    assert t[0] == seps[0] && (key + t)[0] == key[0];
    SpanSplits(blanks, key + t, Blank);
    assert line[a] == line[a..][0] == key[0];
    KeyFits(line, a, key, t);
    ValueFits(line, a + |key|, seps, val, rest);
  }

  /**
   * The program's loops return exactly the key and value of such a line in its 255-byte buffer if
   * and only if the key has at most 63 characters. For 64 they write behind the key buffer.
   */
  method ReadsBack(blanks: seq<char>, key: seq<char>, seps: seq<char>, val: seq<char>, rest: seq<char>)
    returns (r: Outcome)
    requires All(blanks, Blank) && WritableKey(key) && seps != [] && All(seps, Separator)
    requires WritableValue(val) && rest != [] && ValueEnd(rest[0])
    requires |blanks + key + seps + val + rest| == LINE_SIZE
    ensures r == Found(Some((key, val))) <==> |key| < KEY_SIZE
    ensures |key| == KEY_SIZE ==> r == Overrun
  {
    Fits(blanks, key, seps, val, rest);
    RoundTrip(blanks, key, seps, val, rest);
    r := ParseLine(blanks + key + seps + val + rest);
  }

  function Repeat(ch: char, n: nat): (s: seq<char>)
    ensures |s| == n && forall i :: 0 <= i < n ==> s[i] == ch
  {
    seq(n, _ => ch)
  }

  /** A key of 64 characters is terminated behind its buffer. */
  lemma KeyOf64Example()
    ensures !Contained(Repeat('a', 64) + "=x" + Repeat('\0', 189))
  {
    var key, rest := Repeat('a', 64), Repeat('\0', 189);
    assert key + "=x" + rest == [] + key + "=" + "x" + rest;
    Fits([], key, "=", "x", rest);
  }

  /** A key of 70 characters stays inside the buffers but is cut, and its rest read as the value. */
  lemma KeyOf70Example()
    ensures var line := Repeat('a', 70) + "=x" + Repeat('\0', 183);
      Contained(line) && Tokenize(line) == Some((Repeat('a', 64), Repeat('a', 6) + "=x"))
  {
    var val, rest := Repeat('a', 6) + "=x", Repeat('\0', 183);
    assert Repeat('a', 70) + "=x" + rest == Repeat('a', 64) + (val + rest);
    CutKeyReads(Repeat('a', 64), Repeat('a', 6), "=x", rest);
  }

  /** The first 64 characters of a longer key are the key, the rest of it starts the value. */
  lemma CutKeyReads(key: seq<char>, tail: seq<char>, more: seq<char>, rest: seq<char>)
    requires WritableKey(key) && |key| == KEY_SIZE && tail != [] && All(tail, NotSeparator)
    requires more != [] && Separator(more[0]) && WritableValue(tail + more) && rest != [] && ValueEnd(rest[0])
    ensures var line := key + (tail + more + rest);
      Contained(line) && Tokenize(line) == Some((key, tail + more))
  {
    var val := tail + more;
    var line := key + (val + rest);
    LongKeyLength(key, tail, more + rest);
    assert line == key + tail + (more + rest);
    CutKey(line);
    assert line[KEY_SIZE..] == [] + (val + rest) && line[..KEY_SIZE] == key;
    ValueFits(line, KEY_SIZE, [], val, rest);
    ValueReads(key, [], val, rest);
  }

  lemma LongKeyLength(key: seq<char>, tail: seq<char>, t: seq<char>)
    requires key != [] && All(key[1..], NotSeparator) && All(tail, NotSeparator) && t != [] && Separator(t[0])
    ensures KeyLength(key + tail + t) == |key| + |tail|
  {
    assert (key + tail)[1..] == key[1..] + tail;
    TokenSplits(key + tail, t, NotSeparator);
  }

  lemma CutKey(line: seq<char>)
    requires line != [] && !Blank(line[0]) && !LineComment(line[0]) && KeyLength(line) > KEY_SIZE
    ensures Tokenize(line) == AfterKey(line[..KEY_SIZE], line[KEY_SIZE..])
    ensures Contained(line) <==> ValueInside(line, KEY_SIZE)
  {
    assert line[0..] == line && Span(line, Blank) == 0;
  }

  // ---- The converse

  lemma AllOfToken(token: seq<char>, keep: char -> bool)
    requires token != [] && keep(token[0]) && All(token[1..], keep)
    ensures All(token, keep)
  {
    assert [token[0]] + token[1..] == token;
  }

  lemma ValueShape(key: seq<char>, t: seq<char>) returns (seps: seq<char>, val: seq<char>, rest: seq<char>)
    requires AfterKey(key, t).Some?
    ensures AfterKey(key, t) == Some((key, val)) && t == seps + (val + rest)
    ensures All(seps, Separator) && (t != [] && Separator(t[0]) ==> seps != [])
    ensures WritableValue(val)
    ensures rest == [] || ValueEnd(rest[0])
  {
    var b := Span(t, Separator);
    var u := t[b..];
    var v := ValueLength(u);
    RunShape(t, Separator);
    TokenShape(u, NotValueEnd);
    seps, val, rest := t[..b], u[..v], u[v..];
    AllOfToken(val, NotValueEnd);
  }

  lemma KeyShape(s: seq<char>) returns (key: seq<char>, t: seq<char>)
    requires AfterBlanks(s).Some? && !Blank(s[0])
    ensures s == key + t && WritableKey(key) && |key| <= KEY_SIZE
    ensures |key| < KEY_SIZE ==> t == [] || Separator(t[0])
    ensures AfterBlanks(s) == AfterKey(key, t)
  {
    var n, k := KeyLength(s), KeyTaken(s);
    key, t := s[..k], s[k..];
    TokenShape(s, NotSeparator);
    assert forall i :: 1 <= i < k ==> key[i] == s[..n][1..][i - 1];
  }

  /**
   * Conversely, whatever reads as a key and value is laid out that way; only behind a key that
   * fills its buffer the separators may be missing.
   */
  lemma TokensAreOnTheLine(line: seq<char>, key: seq<char>, val: seq<char>)
    returns (blanks: seq<char>, seps: seq<char>, rest: seq<char>)
    requires Tokenize(line) == Some((key, val))
    ensures line == blanks + key + seps + val + rest
    ensures All(blanks, Blank) && WritableKey(key) && WritableValue(val) && All(seps, Separator)
    ensures |key| <= KEY_SIZE && (|key| < KEY_SIZE ==> seps != [])
    ensures rest == [] || ValueEnd(rest[0])
  {
    var a := Span(line, Blank);
    RunShape(line, Blank);
    blanks := line[..a];
    var k, t := KeyShape(line[a..]);
    var v;
    seps, v, rest := ValueShape(k, t);
    Regroup(blanks, key, seps, val, rest);
  }

  lemma AllOf(s: seq<char>, p: char -> bool)
    requires forall ch :: ch in s ==> p(ch)
    ensures All(s, p)
  {
    assert forall i :: 0 <= i < |s| ==> s[i] in s;
  }

  /** Comments and blank lines yield nothing. */
  lemma CommentsYieldNothing(blanks: seq<char>, first: char, more: seq<char>)
    requires (forall ch :: ch in blanks ==> ch in {' ', '\t'}) && first in {'#', ';', '\n', '\r', '\0'}
    ensures Tokenize(blanks + [first] + more) == None
  {
    assert blanks + [first] + more == blanks + ([first] + more);
    AllOf(blanks, Blank);
    SpanSplits(blanks, [first] + more, Blank);
  }

  /** A key without a value yields nothing. */
  lemma KeyAloneYieldsNothing(key: seq<char>, seps: seq<char>, end: char, more: seq<char>)
    requires WritableKey(key) && |key| <= KEY_SIZE && seps != [] && (forall ch :: ch in seps ==> ch in {' ', '\t', '='})
    requires end in {'\n', '\r', '\0'}
    ensures Tokenize(key + (seps + ([end] + more))) == None
  {
    var t := seps + ([end] + more);
    AllOf(seps, Separator);
    assert (key + t)[0] == key[0] && t[0] == seps[0];
    assert Span(key + t, Blank) == 0 && (key + t)[0..] == key + t;
    KeyReads(key, t);
    SpanSplits(seps, [end] + more, Separator);
  }

  /** The round trip, spelled out in characters. */
  lemma LineRoundTrip(blanks: seq<char>, key: seq<char>, seps: seq<char>, val: seq<char>, end: char, more: seq<char>)
    requires forall ch :: ch in blanks ==> ch in {' ', '\t'}
    requires 1 <= |key| <= 63 && key[0] !in {'#', ';', '\n', '\r', '\0'}
    requires forall ch :: ch in key ==> ch !in {' ', '\t', '='}
    requires seps != [] && forall ch :: ch in seps ==> ch in {' ', '\t', '='}
    requires val != [] && val[0] != '=' && forall ch :: ch in val ==> ch !in {' ', '\t', '\n', '\r', '\0'}
    requires end in {' ', '\t', '\n', '\r', '\0'}
    ensures Tokenize(blanks + key + seps + val + ([end] + more)) == Some((key, val))
  {
    AllOf(blanks, Blank);
    AllOf(key, NotSeparator);
    AllOf(seps, Separator);
    AllOf(val, NotValueEnd);
    assert key[0] in key;
    RoundTrip(blanks, key, seps, val, [end] + more);
  }

  /**
   * The key loop does not stop at the end of the line: the key stays on its line exactly when a
   * separator comes before the first line end, or the line is as long as the key buffer.
   */
  lemma KeyStaysOnLine(s: seq<char>, eol: nat)
    requires 0 < eol < |s| && NewLine(s[eol]) && forall i :: 0 <= i < eol ==> !NewLine(s[i])
    ensures KeyTaken(s) <= eol <==> eol >= KEY_SIZE || exists i :: 1 <= i < eol && Separator(s[i])
  {
    var n := Span(s[1..], NotSeparator);
    assert n < |s[1..]| ==> s[1..][n] == s[1 + n];
    assert forall i :: 0 <= i < n ==> s[1..][i] == s[1 + i];
    if KeyLength(s) <= eol {
      assert Separator(s[1 + n]);
    }
    forall i | 1 <= i < eol && Separator(s[i])
      ensures KeyLength(s) <= eol
    {
      assert i - 1 < n ==> NotSeparator(s[1..][i - 1]);
    }
  }

  /** The key of the line "ab" takes in the line after it. */
  lemma KeyRunsOnExample()
    ensures KeyTaken("ab\ncd =1") == 5
  {
    var s := "ab\ncd =1";
    assert s[1..] == "b\ncd" + " =1";
    SpanSplits("b\ncd", " =1", NotSeparator);
  }
}
