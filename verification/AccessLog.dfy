/**
 The access record and its one-line JSON form (`app/AccessLog.cpp`).

 A byte of the request is a `char` below 256.  Beside the writer stands a reader written from
 section 7 of RFC 8259, which the writer knows nothing about.
 */
module AccessLog {
  import opened Basics

  const METHOD_LIMIT := 16
  const PATH_LIMIT := 96
  const MESSAGE_LIMIT := 1024

  predicate Bytes(s: string) {
    forall i :: 0 <= i < |s| ==> s[i] as int < 256
  }

  predicate Printable(s: string) {
    forall i :: 0 <= i < |s| ==> 0x20 <= s[i] as int < 0x7f
  }

  // ----- writing -----

  function HexDigit(n: nat): (c: char)
    requires n < 16
    ensures 0x20 <= c as int < 0x7f
  {
    if n < 10 then ('0' as int + n) as char else ('a' as int + (n - 10)) as char
  }

  function EscapeByte(c: char): string
    requires c as int < 256
  {
    if c == '"' || c == '\\' then ['\\', c]
    else if c as int < 0x20 || c as int >= 0x7f then
      ['\\', 'u', '0', '0', HexDigit(c as int / 16), HexDigit(c as int % 16)]
    else [c]
  }

  function Escape(s: string): string
    requires Bytes(s)
  {
    if s == [] then [] else Escape(s[..|s| - 1]) + EscapeByte(s[|s| - 1])
  }

  function Quoted(s: string): string
    requires Bytes(s)
  {
    ['"'] + Escape(s) + ['"']
  }

  function Decimal(n: nat): string {
    if n < 10 then [HexDigit(n)] else Decimal(n / 10) + [HexDigit(n % 10)]
  }

  function Integer(n: int): string {
    if n < 0 then ['-'] + Decimal(-n) else Decimal(n)
  }

  /** What a line says. */
  datatype Fields = Fields(httpMethod: string, path: string, status: int, contentBytes: nat, durationUs: nat,
                           aborted: bool, truncated: bool)

  const HEAD := "{\"event\":\"http_access\",\"method\":"
  const PATH := ",\"path\":"
  const STATUS := ",\"status\":"
  const CONTENT := ",\"content_bytes\":"
  const DURATION := ",\"duration_us\":"
  const ABORTED := ",\"outcome\":\"aborted\""
  const COMPLETED := ",\"outcome\":\"completed\""
  const CUT := ",\"path_truncated\":true}"
  const UNCUT := ",\"path_truncated\":false}"

  function Outcome(aborted: bool): string {
    if aborted then ABORTED else COMPLETED
  }

  function Truncation(truncated: bool): string {
    if truncated then CUT else UNCUT
  }

  function Line(f: Fields): string
    requires Bytes(f.httpMethod) && Bytes(f.path)
  {
    HEAD + (Quoted(f.httpMethod) + (PATH + (Quoted(f.path) + (STATUS + (Integer(f.status) +
    (CONTENT + (Decimal(f.contentBytes) + (DURATION + (Decimal(f.durationUs) + (Outcome(f.aborted) +
    Truncation(f.truncated)))))))))))
  }

  // ----- reading, from the standard -----

  /** A value and the text after it. */
  datatype Read<T> = Failed | Read(value: T, rest: string)

  function HexValue(c: char): Option<nat> {
    if '0' <= c <= '9' then Some(c as int - '0' as int)
    else if 'a' <= c <= 'f' then Some(c as int - 'a' as int + 10)
    else if 'A' <= c <= 'F' then Some(c as int - 'A' as int + 10)
    else None
  }

  function Hex4(s: string): Option<nat>
    requires |s| == 4
  {
    var a, b, c, d := HexValue(s[0]), HexValue(s[1]), HexValue(s[2]), HexValue(s[3]);
    if a.Some? && b.Some? && c.Some? && d.Some? then
      Some(4096 * a.value + 256 * b.value + 16 * c.value + d.value)
    else None
  }

  /** One character of a string: unescaped, a two-character escape, or `\u` and four hex digits. */
  function ReadChar(s: string): Read<nat>
    requires s != []
  {
    if s[0] != '\\' then (if s[0] as int < 0x20 || s[0] == '"' then Failed else Read(s[0] as int, s[1..]))
    else if |s| < 2 then Failed
    else if s[1] == '"' || s[1] == '\\' || s[1] == '/' then Read(s[1] as int, s[2..])
    else if s[1] == 'b' then Read(8, s[2..])
    else if s[1] == 'f' then Read(12, s[2..])
    else if s[1] == 'n' then Read(10, s[2..])
    else if s[1] == 'r' then Read(13, s[2..])
    else if s[1] == 't' then Read(9, s[2..])
    else if s[1] == 'u' && |s| >= 6 && Hex4(s[2..6]).Some? then Read(Hex4(s[2..6]).value, s[6..])
    else Failed
  }

  function ReadContents(s: string): Read<seq<nat>>
    decreases |s|
  {
    if s == [] then Failed
    else if s[0] == '"' then Read([], s[1..])
    else
      var first := ReadChar(s);
      if first.Failed? then Failed
      else
        var more := ReadContents(first.rest);
        if more.Failed? then Failed else Read([first.value] + more.value, more.rest)
  }

  function ReadString(s: string): Read<seq<nat>> {
    if s == [] || s[0] != '"' then Failed else ReadContents(s[1..])
  }

  predicate Digit(c: char) {
    '0' <= c <= '9'
  }

  function DigitRun(s: string): (n: nat)
    ensures n <= |s|
  {
    if s == [] || !Digit(s[0]) then 0 else 1 + DigitRun(s[1..])
  }

  function Value(s: string): nat
    requires forall i :: 0 <= i < |s| ==> Digit(s[i])
  {
    if s == [] then 0
    else
      assert Digit(s[|s| - 1]);
      10 * Value(s[..|s| - 1]) + (s[|s| - 1] as int - '0' as int)
  }

  lemma {:induction false} RunIsDigits(s: string)
    ensures forall i :: 0 <= i < DigitRun(s) ==> Digit(s[i])
  {
    if s != [] && Digit(s[0]) {
      RunIsDigits(s[1..]);
      assert forall i :: 1 <= i < DigitRun(s) ==> s[i] == s[1..][i - 1];
    }
  }

  function ReadNumber(s: string): Read<nat> {
    var n := DigitRun(s);
    RunIsDigits(s);
    if n == 0 then Failed else Read(Value(s[..n]), s[n..])
  }

  function ReadInteger(s: string): Read<int> {
    if s != [] && s[0] == '-' then
      var r := ReadNumber(s[1..]);
      if r.Failed? then Failed else var v: int := r.value; Read(-v, r.rest)
    else
      var r := ReadNumber(s);
      if r.Failed? then Failed else Read(r.value, r.rest)
  }

  function Skip(text: string, s: string): Read<()> {
    if text <= s then Read((), s[|text|..]) else Failed
  }

  /** The fields of a line, as numbers where the line has characters. */
  datatype Reading = Reading(httpMethod: seq<nat>, path: seq<nat>, status: int, contentBytes: nat, durationUs: nat,
                             aborted: bool, truncated: bool)

  function ReadTail(s: string): Option<(int, nat, nat, bool, bool)> {
    var a := Skip(STATUS, s);
    if a.Failed? then None else
    var status := ReadInteger(a.rest);
    if status.Failed? then None else
    var b := Skip(CONTENT, status.rest);
    if b.Failed? then None else
    var content := ReadNumber(b.rest);
    if content.Failed? then None else
    var c := Skip(DURATION, content.rest);
    if c.Failed? then None else
    var duration := ReadNumber(c.rest);
    if duration.Failed? then None else
    var aborted := Skip(ABORTED, duration.rest);
    var completed := Skip(COMPLETED, duration.rest);
    if aborted.Failed? && completed.Failed? then None else
    var last := if aborted.Read? then aborted.rest else completed.rest;
    if last == CUT then Some((status.value, content.value, duration.value, aborted.Read?, true))
    else if last == UNCUT then Some((status.value, content.value, duration.value, aborted.Read?, false))
    else None
  }

  function ReadLine(s: string): Option<Reading> {
    var a := Skip(HEAD, s);
    if a.Failed? then None else
    var m := ReadString(a.rest);
    if m.Failed? then None else
    var b := Skip(PATH, m.rest);
    if b.Failed? then None else
    var p := ReadString(b.rest);
    if p.Failed? then None else
    var t := ReadTail(p.rest);
    if t.None? then None
    else Some(Reading(m.value, p.value, t.value.0, t.value.1, t.value.2, t.value.3, t.value.4))
  }

  // ----- the reader undoes the writer -----

  lemma HexRoundTrip(n: nat)
    requires n < 16
    ensures HexValue(HexDigit(n)) == Some(n)
  {
  }

  lemma ByteReadsBack(c: char, rest: string)
    requires c as int < 256
    ensures EscapeByte(c) != [] && (EscapeByte(c) + rest)[0] != '"'
    ensures ReadChar(EscapeByte(c) + rest) == Read(c as int, rest)
  {
    var e := EscapeByte(c);
    var s := e + rest;
    if |e| == 6 {
      HexRoundTrip(c as int / 16);
      HexRoundTrip(c as int % 16);
      assert s[2..6] == ['0', '0', HexDigit(c as int / 16), HexDigit(c as int % 16)];
      assert s[6..] == rest;
    } else if |e| == 2 {
      assert s[2..] == rest;
    } else {
      assert s[1..] == rest;
    }
  }

  function Codes(s: string): (codes: seq<nat>)
    ensures |codes| == |s| && forall i :: 0 <= i < |s| ==> codes[i] == s[i] as int
  {
    seq(|s|, i requires 0 <= i < |s| => s[i] as int)
  }

  lemma {:induction false} EscapeFirst(s: string)
    requires Bytes(s) && s != []
    ensures Escape(s) == EscapeByte(s[0]) + Escape(s[1..])
  {
    hide EscapeByte;
    if |s| == 1 {
      assert s[..0] == [] && s[1..] == [];
      assert Escape(s) == Escape(s[..0]) + EscapeByte(s[0]);
    } else {
      var n := |s| - 1;
      EscapeFirst(s[..n]);
      assert s[..n][1..] == s[1..][..|s[1..]| - 1];
    }
  }

  lemma {:induction false} ContentsReadBack(s: string, rest: string)
    requires Bytes(s)
    ensures ReadContents(Escape(s) + ['"'] + rest) == Read(Codes(s), rest)
    decreases |s|
  {
    hide EscapeByte, ReadChar;
    var text := Escape(s) + ['"'] + rest;
    if s == [] {
      assert text == ['"'] + rest;
      assert text[1..] == rest;
    } else {
      EscapeFirst(s);
      var more := Escape(s[1..]) + ['"'] + rest;
      assert text == EscapeByte(s[0]) + more;
      ByteReadsBack(s[0], more);
      ContentsReadBack(s[1..], rest);
      assert Codes(s) == [s[0] as int] + Codes(s[1..]);
    }
  }

  lemma QuotedReadsBack(s: string, rest: string)
    requires Bytes(s)
    ensures ReadString(Quoted(s) + rest) == Read(Codes(s), rest)
  {
    ContentsReadBack(s, rest);
    assert (Quoted(s) + rest)[1..] == Escape(s) + ['"'] + rest;
  }

  predicate StartsWithDigit(s: string) {
    s != [] && Digit(s[0])
  }

  lemma {:induction false} DecimalDigits(n: nat)
    ensures forall i :: 0 <= i < |Decimal(n)| ==> Digit(Decimal(n)[i])
    ensures Decimal(n) != [] && Value(Decimal(n)) == n
  {
    if n < 10 {
      assert Decimal(n) == [HexDigit(n)];
      assert [HexDigit(n)][..0] == [];
    } else {
      DecimalDigits(n / 10);
      var d := Decimal(n);
      assert d[..|d| - 1] == Decimal(n / 10);
    }
  }

  lemma {:induction false} RunOf(digits: string, rest: string)
    requires (forall i :: 0 <= i < |digits| ==> Digit(digits[i])) && !StartsWithDigit(rest)
    ensures DigitRun(digits + rest) == |digits|
  {
    if digits == [] {
      assert digits + rest == rest;
    } else {
      RunOf(digits[1..], rest);
      assert (digits + rest)[1..] == digits[1..] + rest;
    }
  }

  lemma NumberReadsBack(n: nat, rest: string)
    requires !StartsWithDigit(rest)
    ensures ReadNumber(Decimal(n) + rest) == Read(n, rest)
  {
    DecimalDigits(n);
    RunOf(Decimal(n), rest);
    assert (Decimal(n) + rest)[..|Decimal(n)|] == Decimal(n);
    assert (Decimal(n) + rest)[|Decimal(n)|..] == rest;
  }

  lemma FirstDigit(n: nat, rest: string)
    ensures Decimal(n) + rest != [] && (Decimal(n) + rest)[0] != '-'
  {
    DecimalDigits(n);
    assert Digit(Decimal(n)[0]);
  }

  lemma IntegerReadsBack(n: int, rest: string)
    requires !StartsWithDigit(rest)
    ensures ReadInteger(Integer(n) + rest) == Read(n, rest)
  {
    hide ReadNumber, Decimal, Value;
    if n < 0 {
      NumberReadsBack(-n, rest);
      assert (Integer(n) + rest)[1..] == Decimal(-n) + rest;
    } else {
      NumberReadsBack(n, rest);
      FirstDigit(n, rest);
    }
  }

  lemma SkipText(text: string, rest: string)
    ensures Skip(text, text + rest) == Read((), rest)
  {
    assert (text + rest)[..|text|] == text && (text + rest)[|text|..] == rest;
  }

  function Tail(f: Fields): string {
    STATUS + (Integer(f.status) + (CONTENT + (Decimal(f.contentBytes) + (DURATION + (Decimal(f.durationUs) +
    (Outcome(f.aborted) + Truncation(f.truncated)))))))
  }

  lemma OutcomeReadsBack(aborted: bool, rest: string)
    ensures Skip(ABORTED, Outcome(aborted) + rest) == if aborted then Read((), rest) else Failed
    ensures !aborted ==> Skip(COMPLETED, Outcome(aborted) + rest) == Read((), rest)
  {
    SkipText(Outcome(aborted), rest);
    if !aborted {
      assert ABORTED[12] == 'a' && COMPLETED[12] == 'c';
      assert (COMPLETED + rest)[12] == 'c';
    }
  }

  lemma TailReadsBack(f: Fields)
    ensures ReadTail(Tail(f)) == Some((f.status, f.contentBytes, f.durationUs, f.aborted, f.truncated))
  {
    hide Integer, Decimal, ReadInteger, ReadNumber, Skip;
    var last := Truncation(f.truncated);
    var d := Outcome(f.aborted) + last;
    var c := DURATION + (Decimal(f.durationUs) + d);
    var b := CONTENT + (Decimal(f.contentBytes) + c);
    assert CUT[18] == 't' && UNCUT[18] == 'f';
    SkipText(STATUS, Integer(f.status) + b);
    IntegerReadsBack(f.status, b);
    SkipText(CONTENT, Decimal(f.contentBytes) + c);
    NumberReadsBack(f.contentBytes, c);
    SkipText(DURATION, Decimal(f.durationUs) + d);
    NumberReadsBack(f.durationUs, d);
    OutcomeReadsBack(f.aborted, last);
  }

  /** A line read back by the standard gives exactly the bytes and numbers it was made from; so no two
      records share a line. */
  lemma LineReadsBack(f: Fields)
    requires Bytes(f.httpMethod) && Bytes(f.path)
    ensures ReadLine(Line(f)) == Some(Reading(Codes(f.httpMethod), Codes(f.path), f.status, f.contentBytes,
                                      f.durationUs,
                                              f.aborted, f.truncated))
  {
    hide Quoted, ReadString, ReadTail, Skip, Integer, Decimal;
    var t := Tail(f);
    var b := PATH + (Quoted(f.path) + t);
    assert Line(f) == HEAD + (Quoted(f.httpMethod) + b);
    SkipText(HEAD, Quoted(f.httpMethod) + b);
    QuotedReadsBack(f.httpMethod, b);
    SkipText(PATH, Quoted(f.path) + t);
    QuotedReadsBack(f.path, t);
    TailReadsBack(f);
  }

  // ----- what a line looks like -----

  lemma PrintableConcat(a: string, b: string)
    ensures Printable(a + b) <==> Printable(a) && Printable(b)
  {
    if Printable(a + b) {
      assert forall i :: 0 <= i < |a| ==> a[i] == (a + b)[i];
      assert forall i :: 0 <= i < |b| ==> b[i] == (a + b)[|a| + i];
    }
  }

  lemma {:induction false} EscapedIsPrintable(s: string)
    requires Bytes(s)
    ensures Printable(Escape(s)) && |s| <= |Escape(s)| <= 6 * |s|
  {
    if s != [] {
      EscapedIsPrintable(s[..|s| - 1]);
      PrintableConcat(Escape(s[..|s| - 1]), EscapeByte(s[|s| - 1]));
    }
  }

  lemma QuotedIsPrintable(s: string)
    requires Bytes(s)
    ensures Printable(Quoted(s)) && |Quoted(s)| <= 6 * |s| + 2
  {
    EscapedIsPrintable(s);
    PrintableConcat(['"'] + Escape(s), ['"']);
    PrintableConcat(['"'], Escape(s));
  }

  function Ten(k: nat): nat {
    if k == 0 then 1 else 10 * Ten(k - 1)
  }

  lemma {:induction false} DecimalLength(n: nat, k: nat)
    requires 0 < k && n < Ten(k)
    ensures |Decimal(n)| <= k && Printable(Decimal(n))
  {
    if n >= 10 {
      DecimalLength(n / 10, k - 1);
      PrintableConcat(Decimal(n / 10), [HexDigit(n % 10)]);
    }
  }

  lemma TenPowers()
    ensures Ten(10) == 10_000_000_000 && Ten(20) == 100_000_000_000_000_000_000
  {
    assert Ten(5) == 100_000;
    assert Ten(10) == 10_000_000_000;
    assert Ten(15) == 1_000_000_000_000_000;
  }

  /** The widths the source's types give the numbers. */
  predicate Widths(f: Fields) {
    && -0x8000_0000 <= f.status < 0x8000_0000
    && f.contentBytes < 0x1_0000_0000_0000_0000 && f.durationUs < 0x1_0000_0000_0000_0000
  }

  lemma IntegerLength(n: int)
    requires -0x8000_0000 <= n < 0x8000_0000
    ensures |Integer(n)| <= 11 && Printable(Integer(n))
  {
    TenPowers();
    DecimalLength(if n < 0 then -n else n, 10);
    PrintableConcat(['-'], Decimal(if n < 0 then -n else n));
  }

  lemma HeadIsPrintable()
    ensures Printable(HEAD)
  {
  }

  lemma PathIsPrintable()
    ensures Printable(PATH)
  {
  }

  lemma StatusIsPrintable()
    ensures Printable(STATUS)
  {
  }

  lemma ContentIsPrintable()
    ensures Printable(CONTENT)
  {
  }

  lemma DurationIsPrintable()
    ensures Printable(DURATION)
  {
  }

  lemma AbortedIsPrintable()
    ensures Printable(ABORTED)
  {
  }

  lemma CompletedIsPrintable()
    ensures Printable(COMPLETED)
  {
  }

  lemma CutIsPrintable()
    ensures Printable(CUT)
  {
  }

  lemma UncutIsPrintable()
    ensures Printable(UNCUT)
  {
  }

  lemma TextsArePrintable()
    ensures Printable(HEAD) && Printable(PATH) && Printable(STATUS) && Printable(CONTENT) && Printable(DURATION)
    ensures Printable(ABORTED) && Printable(COMPLETED) && Printable(CUT) && Printable(UNCUT)
  {
    hide Printable;
    HeadIsPrintable();
    PathIsPrintable();
    StatusIsPrintable();
    ContentIsPrintable();
    DurationIsPrintable();
    AbortedIsPrintable();
    CompletedIsPrintable();
    CutIsPrintable();
    UncutIsPrintable();
  }

  lemma TailFits(f: Fields)
    requires Widths(f)
    ensures Printable(Tail(f)) && |Tail(f)| <= 139
  {
    hide Printable, Integer, Decimal;
    TextsArePrintable();
    IntegerLength(f.status);
    TenPowers();
    DecimalLength(f.contentBytes, 20);
    DecimalLength(f.durationUs, 20);
    var last := Truncation(f.truncated);
    var d := Outcome(f.aborted) + last;
    var c := DURATION + (Decimal(f.durationUs) + d);
    var b := CONTENT + (Decimal(f.contentBytes) + c);
    PrintableConcat(Outcome(f.aborted), last);
    PrintableConcat(Decimal(f.durationUs), d);
    PrintableConcat(DURATION, Decimal(f.durationUs) + d);
    PrintableConcat(Decimal(f.contentBytes), c);
    PrintableConcat(CONTENT, Decimal(f.contentBytes) + c);
    PrintableConcat(Integer(f.status), b);
    PrintableConcat(STATUS, Integer(f.status) + b);
  }

  /** A line is printable ASCII throughout, so it is one line, and it always fits: for every method
      and path a record can hold and every number, at most 855 characters of the 1024 allowed. */
  lemma LineFits(f: Fields)
    requires Bytes(f.httpMethod) && Bytes(f.path) && |f.httpMethod| <= METHOD_LIMIT && |f.path| <= PATH_LIMIT &&
               Widths(f)
    ensures Printable(Line(f)) && |Line(f)| <= 6 * (METHOD_LIMIT + PATH_LIMIT) + 183 <= MESSAGE_LIMIT
  {
    hide Printable, Quoted, Integer, Decimal;
    TextsArePrintable();
    var t := Tail(f);
    var b := PATH + (Quoted(f.path) + t);
    assert Line(f) == HEAD + (Quoted(f.httpMethod) + b);
    TailFits(f);
    QuotedIsPrintable(f.path);
    QuotedIsPrintable(f.httpMethod);
    PrintableConcat(Quoted(f.path), t);
    PrintableConcat(PATH, Quoted(f.path) + t);
    PrintableConcat(Quoted(f.httpMethod), b);
    PrintableConcat(HEAD, Quoted(f.httpMethod) + b);
  }

  // ----- the record -----

  predicate InPath(c: char) {
    c != '?' && c != '#'
  }

  /** Where the query or fragment begins, or the length. */
  function PathEnd(target: string): (n: nat)
    ensures n <= |target| && (n < |target| ==> !InPath(target[n]))
    ensures forall i :: 0 <= i < n ==> InPath(target[i])
  {
    if target == [] || !InPath(target[0]) then 0 else 1 + PathEnd(target[1..])
  }

  class AccessRecord {
    const httpMethod: array<char>
    const path: array<char>
    var methodLength: nat
    var pathLength: nat
    var status: int
    var contentBytes: nat
    var durationUs: nat
    var aborted: bool
    var pathTruncated: bool

    ghost predicate Valid()
      reads this, httpMethod, path
    {
      && httpMethod != path && httpMethod.Length == METHOD_LIMIT && path.Length == PATH_LIMIT
      && methodLength <= METHOD_LIMIT && pathLength <= PATH_LIMIT
      && Bytes(httpMethod[..methodLength]) && Bytes(path[..pathLength]) && Widths(View())
    }

    ghost function View(): Fields
      requires methodLength <= httpMethod.Length && pathLength <= path.Length
      reads this, httpMethod, path
    {
      Fields(httpMethod[..methodLength], path[..pathLength], status, contentBytes, durationUs, aborted, pathTruncated)
    }

    constructor ()
      ensures Valid() && fresh(httpMethod) && fresh(path) && View() == Fields("", "", 0, 0, 0, false, false)
    {
      httpMethod := new char[METHOD_LIMIT];
      path := new char[PATH_LIMIT];
      methodLength, pathLength, status, contentBytes, durationUs := 0, 0, 0, 0, 0;
      aborted, pathTruncated := false, false;
    }

    /** The logged path is a prefix of the target up to its query or fragment, marked truncated exactly
        when that part is longer than what is kept; nothing else of the record changes. */
    method CopyRequest(requestMethod: string, target: string)
      requires Valid() && Bytes(requestMethod) && Bytes(target)
      modifies this, httpMethod, path
      ensures Valid()
      ensures View() == old(View()).(httpMethod := requestMethod[..Min(|requestMethod|, METHOD_LIMIT)],
                                     path := target[..Min(PathEnd(target), PATH_LIMIT)],
                                     truncated := PathEnd(target) > PATH_LIMIT)
    {
      methodLength := Min(|requestMethod|, httpMethod.Length);
      CopyPrefix(httpMethod, requestMethod, methodLength);
      var end := 0;
      while end < |target| && target[end] != '?' && target[end] != '#'
        invariant end <= |target| && forall i :: 0 <= i < end ==> InPath(target[i])
      {
        end := end + 1;
      }
      EndIsPathEnd(target, end);
      pathLength := Min(end, path.Length);
      CopyPrefix(path, target, pathLength);
      pathTruncated := end > path.Length;
      PrefixBytes(requestMethod, methodLength);
      PrefixBytes(target, pathLength);
    }

    /** The line of the record; it never exceeds the limit, so the length error cannot occur. */
    method Serialize() returns (line: Option<string>)
      requires Valid()
      ensures line == Some(Line(View()))
    {
      var output := HEAD;
      output := AppendJsonString(output, httpMethod[..methodLength]);
      output := output + PATH;
      output := AppendJsonString(output, path[..pathLength]);
      output := output + STATUS + Integer(status);
      output := output + CONTENT + Decimal(contentBytes);
      output := output + DURATION + Decimal(durationUs);
      output := output + if aborted then ABORTED else COMPLETED;
      output := output + if pathTruncated then CUT else UNCUT;
      line := if |output| > MESSAGE_LIMIT then None else Some(output);
      hide Quoted, Integer, Decimal;
      LineFits(View());
      LineFromLeft(View());
    }
  }

  method CopyPrefix(to: array<char>, from: string, n: nat)
    requires n <= to.Length && n <= |from|
    modifies to
    ensures to[..n] == from[..n]
  {
    for i := 0 to n
      invariant to[..i] == from[..i]
    {
      to[i] := from[i];
    }
  }

  lemma PrefixBytes(s: string, n: nat)
    requires Bytes(s) && n <= |s|
    ensures Bytes(s[..n])
  {
  }

  method AppendJsonString(output: string, input: string) returns (r: string)
    requires Bytes(input)
    ensures r == output + Quoted(input)
  {
    r := output + ['"'];
    for i := 0 to |input|
      invariant r == output + (['"'] + Escape(input[..i]))
    {
      assert input[..i + 1][..i] == input[..i];
      r := AppendByte(r, input[i]);
      assert output + (['"'] + Escape(input[..i])) + EscapeByte(input[i]) == output + (['"'] + Escape(input[..i + 1]));
    }
    assert input[..|input|] == input;
    r := r + ['"'];
  }

  method AppendByte(output: string, byte: char) returns (r: string)
    requires byte as int < 256
    ensures r == output + EscapeByte(byte)
  {
    r := output;
    if byte == '"' || byte == '\\' {
      r := r + ['\\'];
      r := r + [byte];
    } else if byte as int < 0x20 || byte as int >= 0x7f {
      r := r + "\\u00";
      r := r + [HexDigit(byte as int / 16)];
      r := r + [HexDigit(byte as int % 16)];
    } else {
      r := r + [byte];
    }
  }

  lemma ConcatAssociates(a: string, b: string, c: string)
    ensures a + (b + c) == a + b + c
  {
  }

  lemma LineFromLeft(f: Fields)
    requires Bytes(f.httpMethod) && Bytes(f.path)
    ensures Line(f) == HEAD + Quoted(f.httpMethod) + PATH + Quoted(f.path) + STATUS + Integer(f.status) + CONTENT +
                       Decimal(f.contentBytes) + DURATION + Decimal(f.durationUs) + Outcome(f.aborted) +
                       Truncation(f.truncated)
  {
    hide Quoted, Integer, Decimal;
    FromLeft([HEAD, Quoted(f.httpMethod), PATH, Quoted(f.path), STATUS, Integer(f.status), CONTENT,
              Decimal(f.contentBytes), DURATION, Decimal(f.durationUs), Outcome(f.aborted), Truncation(f.truncated)]);
  }

  /** Twelve pieces joined from the right and from the left. */
  lemma FromLeft(p: seq<string>)
    requires |p| == 12
    ensures p[0] + (p[1] + (p[2] + (p[3] + (p[4] + (p[5] + (p[6] + (p[7] + (p[8] + (p[9] + (p[10] + p[11])))))))))) ==
            p[0] + p[1] + p[2] + p[3] + p[4] + p[5] + p[6] + p[7] + p[8] + p[9] + p[10] + p[11]
  {
    var r9 := p[9] + (p[10] + p[11]);
    var r7 := p[7] + (p[8] + r9);
    var r5 := p[5] + (p[6] + r7);
    var r3 := p[3] + (p[4] + r5);
    var l2 := p[0] + p[1] + p[2];
    var l4 := l2 + p[3] + p[4];
    var l6 := l4 + p[5] + p[6];
    var l8 := l6 + p[7] + p[8];
    ThreeAssociate(p[0], p[1], p[2], r3);
    ThreeAssociate(l2, p[3], p[4], r5);
    ThreeAssociate(l4, p[5], p[6], r7);
    ThreeAssociate(l6, p[7], p[8], r9);
    ThreeAssociate(l8, p[9], p[10], p[11]);
  }

  lemma ThreeAssociate(a: string, b: string, c: string, d: string)
    ensures a + (b + (c + d)) == a + b + c + d
  {
    ConcatAssociates(a, b, c + d);
    ConcatAssociates(a + b, c, d);
  }

  lemma {:induction false} EndIsPathEnd(target: string, end: nat)
    requires end <= |target| && (forall i :: 0 <= i < end ==> InPath(target[i]))
    requires end < |target| ==> !InPath(target[end])
    ensures PathEnd(target) == end
  {
  }
}
