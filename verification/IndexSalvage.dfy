/**
 Salvaging session rows from a damaged index: a structural scan that finds the complete top-level
 objects of a JSON text, whatever their strings contain.
 */
module IndexSalvage {
  import opened Common

  // ---------------------------------------------------------------- JSON values and their text

  /** `Atom` is a number, `true`, `false` or `null`. */
  datatype Json = Str(text: string) | Atom(literal: string) | Arr(items: seq<Json>) | Obj(fields: seq<Field>)
  datatype Field = Field(key: string, value: Json)

  predicate Structural(c: char) {
    c == '"' || c == '{' || c == '}'
  }

  predicate LiteralCharacter(c: char) {
    'a' <= c <= 'z' || 'A' <= c <= 'Z' || '0' <= c <= '9' || c == '+' || c == '-' || c == '.'
  }

  ghost predicate WellFormed(v: Json) {
    match v
    case Str(_) => true
    case Atom(literal) => literal != [] && forall i :: 0 <= i < |literal| ==> LiteralCharacter(literal[i])
    case Arr(items) => forall i :: 0 <= i < |items| ==> WellFormed(items[i])
    case Obj(fields) =>
      && (forall i :: 0 <= i < |fields| ==> WellFormed(fields[i].value))
      && (forall i, j :: 0 <= i < j < |fields| ==> fields[i].key != fields[j].key)
  }

  const HEX := "0123456789abcdef"

  /** Section 7 of RFC 8259: quotation mark, reverse solidus and control characters are escaped. */
  function Escape(c: char): string {
    if c == '"' then ['\\', '"']
    else if c == '\\' then ['\\', '\\']
    else if c == '\n' then ['\\', 'n']
    else if c == '\r' then ['\\', 'r']
    else if c == '\t' then ['\\', 't']
    else if c as int == 8 then ['\\', 'b']
    else if c as int == 12 then ['\\', 'f']
    else if c as int < 32 then ['\\', 'u', '0', '0', HEX[c as int / 16], HEX[c as int % 16]]
    else [c]
  }

  function EscapeAll(s: string): string {
    if s == [] then [] else EscapeAll(s[..|s| - 1]) + Escape(s[|s| - 1])
  }

  function Quote(s: string): string {
    ['"'] + EscapeAll(s) + ['"']
  }

  function Spaces(n: nat): string {
    seq(n, i => ' ')
  }

  /** A new line indented by `n`. */
  function Pad(n: nat): string {
    ['\n'] + Spaces(n)
  }

  /** The text of a value with two spaces of indentation per level. */
  function Print(v: Json, indent: nat): string
    decreases v, 1, 0
  {
    match v
    case Str(text) => Quote(text)
    case Atom(literal) => literal
    case Arr(items) => if items == [] then "[]" else "[" + PrintItems(v, |items|, indent + 2) + Pad(indent) + "]"
    case Obj(fields) => if fields == [] then "{}" else "{" + PrintFields(v, |fields|, indent + 2) + Pad(indent) + "}"
  }

  /** What precedes the `k`-th item or field. */
  function Gap(k: nat, indent: nat): string {
    (if k > 1 then "," else "") + Pad(indent)
  }

  /** The first `k` items, each on its own line. */
  function PrintItems(v: Json, k: nat, indent: nat): string
    requires v.Arr? && k <= |v.items|
    decreases v, 0, k
  {
    if k == 0 then "" else PrintItems(v, k - 1, indent) + (Gap(k, indent) + Print(v.items[k - 1], indent))
  }

  function PrintFields(v: Json, k: nat, indent: nat): string
    requires v.Obj? && k <= |v.fields|
    decreases v, 0, k
  {
    if k == 0 then ""
    else PrintFields(v, k - 1, indent)
         + (Gap(k, indent) + (Quote(v.fields[k - 1].key) + (": " + Print(v.fields[k - 1].value, indent))))
  }

  // ---------------------------------------------------------------- the scanner

  datatype Span = Span(start: nat, end: nat)

  /** The scanner's variables, and the complete top-level objects found so far. */
  datatype Scan = Scan(depth: nat, start: Option<nat>, inString: bool, escaped: bool, found: seq<Span>)

  const START := Scan(0, None, false, false, [])

  function Read(st: Scan, c: char, index: nat): Scan {
    if st.inString then
      if st.escaped then st.(escaped := false)
      else if c == '\\' then st.(escaped := true)
      else if c == '"' then st.(inString := false)
      else st
    else if c == '"' then st.(inString := true)
    else if c == '{' then st.(depth := st.depth + 1, start := if st.depth == 0 then Some(index) else st.start)
    else if c == '}' && st.depth > 0 then
      if st.depth == 1 && st.start.Some?
      then Scan(0, None, false, st.escaped, st.found + [Span(st.start.value, index + 1)])
      else st.(depth := st.depth - 1)
    else st
  }

  /** Scan the first `n` characters of a text that begins at position `at` of the content. */
  function ScanFirst(st: Scan, text: string, n: nat, at: nat): Scan
    requires n <= |text|
  {
    if n == 0 then st else Read(ScanFirst(st, text, n - 1, at), text[n - 1], at + n - 1)
  }

  function ScanText(st: Scan, text: string, at: nat): Scan {
    ScanFirst(st, text, |text|, at)
  }

  /** Only the characters read decide. */
  lemma {:induction false} ScanPrefix(st: Scan, a: string, b: string, n: nat, at: nat)
    requires n <= |a| && n <= |b| && a[..n] == b[..n]
    ensures ScanFirst(st, a, n, at) == ScanFirst(st, b, n, at)
  {
    if n > 0 {
      assert a[..n][..n - 1] == a[..n - 1] && b[..n][..n - 1] == b[..n - 1];
      assert a[..n][n - 1] == a[n - 1] && b[..n][n - 1] == b[n - 1];
      ScanPrefix(st, a, b, n - 1, at);
    }
  }

  lemma ScanConcat(st: Scan, a: string, b: string, at: nat)
    ensures ScanText(st, a + b, at) == ScanText(ScanText(st, a, at), b, at + |a|)
  {
    ScanPrefix(st, a, a + b, |a|, at);
    ScanConcatFirst(st, a, b, |b|, at);
  }

  lemma {:induction false} ScanConcatFirst(st: Scan, a: string, b: string, n: nat, at: nat)
    requires n <= |b|
    ensures ScanFirst(st, a + b, |a| + n, at) == ScanFirst(ScanText(st, a, at), b, n, at + |a|)
  {
    if n == 0 {
      ScanPrefix(st, a, a + b, |a|, at);
    } else {
      ScanConcatFirst(st, a, b, n - 1, at);
    }
  }

  /** Objects once found stay found. */
  lemma {:induction false} FoundGrows(st: Scan, text: string, m: nat, n: nat, at: nat)
    requires m <= n <= |text|
    ensures ScanFirst(st, text, m, at).found <= ScanFirst(st, text, n, at).found
    decreases n
  {
    if m < n {
      FoundGrows(st, text, m, n - 1, at);
    }
  }

  lemma ScanThree(st: Scan, s1: Scan, s2: Scan, s3: Scan, a: string, b: string, c: string, at: nat)
    requires ScanText(st, a, at) == s1 && ScanText(s1, b, at + |a|) == s2 && ScanText(s2, c, at + |a| + |b|) == s3
    ensures ScanText(st, a + b + c, at) == s3
  {
    ScanConcat(st, a, b, at);
    ScanConcat(st, a + b, c, at);
  }

  /** Between tokens, inside some object. */
  predicate Quiet(st: Scan) {
    st.depth >= 1 && !st.inString && !st.escaped
  }

  lemma PlainText(st: Scan, text: string, at: nat)
    requires !st.inString && forall i :: 0 <= i < |text| ==> !Structural(text[i])
    ensures ScanText(st, text, at) == st
  {
    PlainFirst(st, text, |text|, at);
  }

  lemma {:induction false} PlainFirst(st: Scan, text: string, n: nat, at: nat)
    requires !st.inString && n <= |text| && forall i :: 0 <= i < |text| ==> !Structural(text[i])
    ensures ScanFirst(st, text, n, at) == st
  {
    if n > 0 {
      PlainFirst(st, text, n - 1, at);
    }
  }

  lemma EscapedCharacter(st: Scan, c: char, at: nat)
    requires st.inString && !st.escaped
    ensures ScanText(st, Escape(c), at) == st
  {
    var e := Escape(c);
    if |e| == 1 {
      ScanOne(st, e, at);
    } else {
      EscapeSequence(st, e, at);
    }
  }

  /** A backslash hides the character after it, and the rest is plain. */
  lemma EscapeSequence(st: Scan, e: string, at: nat)
    requires st.inString && !st.escaped && |e| >= 2 && e[0] == '\\'
    requires forall i :: 2 <= i < |e| ==> e[i] != '"' && e[i] != '\\'
    ensures ScanText(st, e, at) == st
  {
    var mid, first, second, rest := st.(escaped := true), e[..1], e[1..2], e[2..];
    ScanOne(st, first, at);
    ScanOne(mid, second, at + 1);
    PlainInString(st, rest, |rest|, at + 2);
    ScanThree(st, mid, st, st, first, second, rest, at);
    assert e == first + second + rest;
  }

  lemma ScanOne(st: Scan, text: string, at: nat)
    requires |text| == 1
    ensures ScanText(st, text, at) == Read(st, text[0], at)
  {
    assert ScanFirst(st, text, 0, at) == st;
  }

  lemma {:induction false} PlainInString(st: Scan, text: string, n: nat, at: nat)
    requires st.inString && !st.escaped && n <= |text|
    requires forall i :: 0 <= i < |text| ==> text[i] != '"' && text[i] != '\\'
    ensures ScanFirst(st, text, n, at) == st
  {
    if n > 0 {
      PlainInString(st, text, n - 1, at);
    }
  }

  lemma {:induction false} StringContents(st: Scan, s: string, at: nat)
    requires st.inString && !st.escaped
    ensures ScanText(st, EscapeAll(s), at) == st
    decreases |s|
  {
    if s != [] {
      var init := EscapeAll(s[..|s| - 1]);
      StringContents(st, s[..|s| - 1], at);
      EscapedCharacter(st, s[|s| - 1], at + |init|);
      ScanConcat(st, init, Escape(s[|s| - 1]), at);
    }
  }

  /** A string literal leaves no trace, whatever quotes, braces and backslashes it stands for. */
  lemma QuotedText(st: Scan, s: string, at: nat)
    requires !st.inString && !st.escaped
    ensures ScanText(st, Quote(s), at) == st
  {
    var entered, body := st.(inString := true), EscapeAll(s);
    OpeningQuote(st, at);
    StringContents(entered, s, at + 1);
    ClosingQuote(st, at + 1 + |body|);
    ScanThree(st, entered, entered, st, ['"'], body, ['"'], at);
  }

  lemma OpeningQuote(st: Scan, at: nat)
    requires !st.inString && !st.escaped
    ensures ScanText(st, ['"'], at) == st.(inString := true)
  {
    ScanOne(st, ['"'], at);
  }

  lemma ClosingQuote(st: Scan, at: nat)
    requires !st.inString && !st.escaped
    ensures ScanText(st.(inString := true), ['"'], at) == st
  {
    ScanOne(st.(inString := true), ['"'], at);
  }

  lemma PadText(st: Scan, n: nat, at: nat)
    requires !st.inString
    ensures ScanText(st, Pad(n), at) == st
  {
    PlainText(st, Pad(n), at);
  }

  /** Inside an object, every well-formed value is scanned without a trace. */
  lemma {:induction false} ValueText(st: Scan, v: Json, indent: nat, at: nat)
    requires Quiet(st) && WellFormed(v)
    ensures ScanText(st, Print(v, indent), at) == st
    decreases v, 1, 0
  {
    match v
    case Str(text) => QuotedText(st, text, at);
    case Atom(literal) => PlainText(st, literal, at);
    case Arr(items) =>
      if items == [] {
        PlainText(st, "[]", at);
      } else {
        ArrayText(st, v, indent, at);
      }
    case Obj(fields) =>
      var entered := st.(depth := st.depth + 1);
      var opening := OpenObject(v, indent);
      ScanOne(st, "{", at);
      ObjectBody(st, entered, v, indent, at);
      ScanOne(entered, "}", at + |opening|);
      ScanConcat(st, opening, "}", at);
      assert Print(v, indent) == opening + "}";
  }

  /** The text of an object without its closing brace. */
  function OpenObject(v: Json, indent: nat): string
    requires v.Obj?
  {
    if v.fields == [] then "{" else "{" + PrintFields(v, |v.fields|, indent + 2) + Pad(indent)
  }

  lemma ObjectBody(st: Scan, entered: Scan, v: Json, indent: nat, at: nat)
    requires v.Obj? && WellFormed(v) && !st.inString && !st.escaped && entered == Read(st, '{', at) && Quiet(entered)
    ensures ScanText(st, OpenObject(v, indent), at) == entered
    decreases v, 0, |v.fields| + 2
  {
    ScanOne(st, "{", at);
    if v.fields != [] {
      FieldsAndPad(entered, v, indent, at + 1);
      var inner := PrintFields(v, |v.fields|, indent + 2);
      ScanConcat(st, "{", inner + Pad(indent), at);
      AppendAssociates("{", inner, Pad(indent));
    }
  }

  lemma FieldsAndPad(st: Scan, v: Json, indent: nat, at: nat)
    requires v.Obj? && WellFormed(v) && Quiet(st)
    ensures ScanText(st, PrintFields(v, |v.fields|, indent + 2) + Pad(indent), at) == st
    decreases v, 0, |v.fields| + 1
  {
    var inner := PrintFields(v, |v.fields|, indent + 2);
    FieldsText(st, v, |v.fields|, indent + 2, at);
    PadText(st, indent, at + |inner|);
    ScanConcat(st, inner, Pad(indent), at);
  }

  lemma ArrayText(st: Scan, v: Json, indent: nat, at: nat)
    requires Quiet(st) && v.Arr? && WellFormed(v) && v.items != []
    ensures ScanText(st, Print(v, indent), at) == st
    decreases v, 0, |v.items| + 2
  {
    ItemsText(st, v, |v.items|, indent + 2, at + 1);
    Bracketed(st, PrintItems(v, |v.items|, indent + 2), indent, at);
  }

  lemma Bracketed(st: Scan, inner: string, indent: nat, at: nat)
    requires Quiet(st) && ScanText(st, inner, at + 1) == st
    ensures ScanText(st, "[" + inner + Pad(indent) + "]", at) == st
  {
    var opening := "[" + inner + Pad(indent);
    OpenArray(st, inner, indent, at);
    PlainText(st, "]", at + |opening|);
    ScanConcat(st, opening, "]", at);
  }

  /** The text of an array without its closing bracket. */
  lemma OpenArray(st: Scan, inner: string, indent: nat, at: nat)
    requires Quiet(st) && ScanText(st, inner, at + 1) == st
    ensures ScanText(st, "[" + inner + Pad(indent), at) == st
  {
    PlainText(st, "[", at);
    PadText(st, indent, at + 1 + |inner|);
    ScanThree(st, st, st, st, "[", inner, Pad(indent), at);
  }

  lemma {:induction false} ItemsText(st: Scan, v: Json, k: nat, indent: nat, at: nat)
    requires Quiet(st) && v.Arr? && WellFormed(v) && k <= |v.items|
    ensures ScanText(st, PrintItems(v, k, indent), at) == st
    decreases v, 0, k
  {
    if k > 0 {
      var before := PrintItems(v, k - 1, indent);
      ItemsText(st, v, k - 1, indent, at);
      GapThen(st, v.items[k - 1], k, indent, at + |before|);
      ScanConcat(st, before, Gap(k, indent) + Print(v.items[k - 1], indent), at);
    }
  }

  lemma GapThen(st: Scan, v: Json, k: nat, indent: nat, at: nat)
    requires Quiet(st) && WellFormed(v)
    ensures ScanText(st, Gap(k, indent) + Print(v, indent), at) == st
    decreases v, 2, 0
  {
    ValueText(st, v, indent, at + |Gap(k, indent)|);
    PlainThen(st, Gap(k, indent), Print(v, indent), at);
  }

  lemma {:induction false} FieldsText(st: Scan, v: Json, k: nat, indent: nat, at: nat)
    requires Quiet(st) && v.Obj? && WellFormed(v) && k <= |v.fields|
    ensures ScanText(st, PrintFields(v, k, indent), at) == st
    decreases v, 0, k
  {
    if k > 0 {
      var f, before := v.fields[k - 1], PrintFields(v, k - 1, indent);
      FieldsText(st, v, k - 1, indent, at);
      GapThenMember(st, f, k, indent, at + |before|);
      ScanConcat(st, before, Gap(k, indent) + (Quote(f.key) + (": " + Print(f.value, indent))), at);
    }
  }

  lemma GapThenMember(st: Scan, f: Field, k: nat, indent: nat, at: nat)
    requires Quiet(st) && WellFormed(f.value)
    ensures ScanText(st, Gap(k, indent) + (Quote(f.key) + (": " + Print(f.value, indent))), at) == st
    decreases f.value, 3, 0
  {
    MemberText(st, f, indent, at + |Gap(k, indent)|);
    PlainThen(st, Gap(k, indent), Quote(f.key) + (": " + Print(f.value, indent)), at);
  }

  lemma PlainThen(st: Scan, plain: string, text: string, at: nat)
    requires Quiet(st) && forall i :: 0 <= i < |plain| ==> !Structural(plain[i])
    requires ScanText(st, text, at + |plain|) == st
    ensures ScanText(st, plain + text, at) == st
  {
    PlainText(st, plain, at);
    ScanConcat(st, plain, text, at);
  }

  lemma MemberText(st: Scan, f: Field, indent: nat, at: nat)
    requires Quiet(st) && WellFormed(f.value)
    ensures ScanText(st, Quote(f.key) + (": " + Print(f.value, indent)), at) == st
    decreases f.value, 2, 0
  {
    var key, item := Quote(f.key), Print(f.value, indent);
    QuotedText(st, f.key, at);
    ValueText(st, f.value, indent, at + |key| + 2);
    PlainThen(st, ": ", item, at + |key|);
    ScanConcat(st, key, ": " + item, at);
  }

  // ---------------------------------------------------------------- the index text

  /** The scanner between rows. */
  function Between(found: seq<Span>): Scan {
    Scan(0, None, false, false, found)
  }

  /** A row read from between rows is found exactly at its last character. */
  lemma RowText(found: seq<Span>, v: Json, indent: nat, at: nat)
    requires v.Obj? && WellFormed(v)
    ensures ScanText(Between(found), Print(v, indent), at) == Between(found + [Span(at, at + |Print(v, indent)|)])
  {
    var st, opening := Between(found), OpenObject(v, indent);
    var entered := Read(st, '{', at);
    ObjectBody(st, entered, v, indent, at);
    assert Print(v, indent) == opening + "}";
    ScanConcat(st, opening, "}", at);
    ScanOne(entered, "}", at + |opening|);
  }

  ghost predicate AreRows(rows: seq<Json>) {
    forall i :: 0 <= i < |rows| ==> rows[i].Obj? && WellFormed(rows[i])
  }

  /** What the index file holds. */
  function IndexText(rows: seq<Json>): string {
    Print(Arr(rows), 0)
  }

  /** The index text up to the end of its `k`-th row. */
  function UpToRow(rows: seq<Json>, k: nat): string
    requires k <= |rows|
  {
    "[" + PrintItems(Arr(rows), k, 2)
  }

  function RowEnd(rows: seq<Json>, k: nat): nat
    requires k < |rows|
  {
    |UpToRow(rows, k + 1)|
  }

  function RowSpan(rows: seq<Json>, k: nat): Span
    requires k < |rows|
  {
    Span(|UpToRow(rows, k) + Gap(k + 1, 2)|, RowEnd(rows, k))
  }

  function Spans(rows: seq<Json>, k: nat): seq<Span>
    requires k <= |rows|
  {
    seq(k, i requires 0 <= i < k => RowSpan(rows, i))
  }

  lemma NextRow(rows: seq<Json>, k: nat)
    requires k < |rows|
    ensures UpToRow(rows, k + 1) == (UpToRow(rows, k) + Gap(k + 1, 2)) + Print(rows[k], 2)
  {
    var before, gap, row := PrintItems(Arr(rows), k, 2), Gap(k + 1, 2), Print(rows[k], 2);
    assert UpToRow(rows, k + 1) == "[" + (before + (gap + row));
    AppendAssociates("[", before, gap + row);
    AppendAssociates("[" + before, gap, row);
  }

  /** After each row the scanner has found exactly the rows so far. */
  lemma {:induction false} ScanRows(rows: seq<Json>, k: nat)
    requires AreRows(rows) && k <= |rows|
    ensures ScanText(START, UpToRow(rows, k), 0) == Between(Spans(rows, k))
  {
    if k == 0 {
      PlainText(START, "[", 0);
      assert UpToRow(rows, 0) == "[";
      assert Spans(rows, 0) == [];
    } else {
      ScanRows(rows, k - 1);
      ScanNextRow(rows, k - 1);
    }
  }

  lemma ScanNextRow(rows: seq<Json>, k: nat)
    requires AreRows(rows) && k < |rows| && ScanText(START, UpToRow(rows, k), 0) == Between(Spans(rows, k))
    ensures ScanText(START, UpToRow(rows, k + 1), 0) == Between(Spans(rows, k + 1))
  {
    ScanGap(rows, k);
    NextRow(rows, k);
    AfterGap(Spans(rows, k), rows[k], UpToRow(rows, k) + Gap(k + 1, 2), UpToRow(rows, k + 1));
    NextSpan(rows, k);
  }

  lemma NextSpan(rows: seq<Json>, k: nat)
    requires k < |rows|
    ensures Spans(rows, k + 1) == Spans(rows, k) + [RowSpan(rows, k)]
  {
  }

  lemma AfterGap(found: seq<Span>, row: Json, a: string, text: string)
    requires row.Obj? && WellFormed(row) && text == a + Print(row, 2) && ScanText(START, a, 0) == Between(found)
    ensures ScanText(START, text, 0) == Between(found + [Span(|a|, |text|)])
  {
    RowText(found, row, 2, |a|);
    ScanConcat(START, a, Print(row, 2), 0);
  }

  lemma WithinRow(found: seq<Span>, row: Json, a: string)
    requires row.Obj? && WellFormed(row) && ScanText(START, a, 0) == Between(found)
    ensures ScanText(START, a + OpenObject(row, 2), 0).found == found
  {
    var st := Between(found);
    ObjectBody(st, Read(st, '{', |a|), row, 2, |a|);
    ScanConcat(START, a, OpenObject(row, 2), 0);
  }

  lemma ClosedObject(v: Json, indent: nat)
    requires v.Obj?
    ensures Print(v, indent) == OpenObject(v, indent) + "}"
  {
  }

  lemma ScanGap(rows: seq<Json>, k: nat)
    requires k < |rows| && ScanText(START, UpToRow(rows, k), 0) == Between(Spans(rows, k))
    ensures ScanText(START, UpToRow(rows, k) + Gap(k + 1, 2), 0) == Between(Spans(rows, k))
  {
    ScanConcat(START, UpToRow(rows, k), Gap(k + 1, 2), 0);
    PlainText(Between(Spans(rows, k)), Gap(k + 1, 2), |UpToRow(rows, k)|);
  }

  /** Until the next row is complete nothing more is found. */
  lemma BeforeRowEnds(rows: seq<Json>, k: nat)
    requires AreRows(rows) && k < |rows|
    ensures FoundBefore(UpToRow(rows, k + 1), Spans(rows, k))
  {
    NextRow(rows, k);
    BeforeRow(rows, k);
    BeforeClosing(Spans(rows, k), rows[k], UpToRow(rows, k) + Gap(k + 1, 2), UpToRow(rows, k + 1));
  }

  /** What is found before the last character. */
  ghost predicate FoundBefore(text: string, found: seq<Span>) {
    text != [] && ScanFirst(START, text, |text| - 1, 0).found == found
  }

  lemma BeforeRow(rows: seq<Json>, k: nat)
    requires AreRows(rows) && k < |rows|
    ensures ScanText(START, UpToRow(rows, k) + Gap(k + 1, 2), 0) == Between(Spans(rows, k))
  {
    ScanRows(rows, k);
    ScanGap(rows, k);
  }

  lemma BeforeClosing(found: seq<Span>, row: Json, a: string, text: string)
    requires row.Obj? && WellFormed(row) && text == a + Print(row, 2) && ScanText(START, a, 0) == Between(found)
    ensures FoundBefore(text, found)
  {
    ClosedObject(row, 2);
    WithinRow(found, row, a);
    ScanToLast(a, OpenObject(row, 2), "}", text);
  }

  /** One character more leaves the scan before it as it was. */
  lemma ScanToLast(a: string, b: string, last: string, text: string)
    requires |last| == 1 && text == a + (b + last)
    ensures ScanFirst(START, text, |text| - 1, 0) == ScanText(START, a + b, 0)
  {
    ScanPrefix(START, text, a + b, |text| - 1, 0);
  }

  lemma {:induction false} UpToRowIsPrefix(rows: seq<Json>, k: nat)
    requires rows != [] && k <= |rows|
    ensures UpToRow(rows, k) <= UpToRow(rows, |rows|) <= IndexText(rows)
    ensures IndexText(rows) == UpToRow(rows, |rows|) + (Pad(0) + "]")
    decreases |rows| - k
  {
    AppendAssociates(UpToRow(rows, |rows|), Pad(0), "]");
    if k < |rows| {
      NextRow(rows, k);
      AppendAssociates(UpToRow(rows, k), Gap(k + 1, 2), Print(rows[k], 2));
      UpToRowIsPrefix(rows, k + 1);
    }
  }

  /** How many of the first `k` rows end inside the cut. */
  function Inside(rows: seq<Json>, cut: nat, k: nat): (n: nat)
    requires k <= |rows|
    ensures n <= k
  {
    if k == 0 then 0 else if RowEnd(rows, k - 1) <= cut then k else Inside(rows, cut, k - 1)
  }

  lemma {:induction false} RowsEndInOrder(rows: seq<Json>, i: nat, j: nat)
    requires i < j < |rows|
    ensures RowEnd(rows, i) < RowEnd(rows, j)
    decreases j - i
  {
    NextRow(rows, j);
    if i < j - 1 {
      RowsEndInOrder(rows, i, j - 1);
    }
  }

  /** A row is counted exactly when it lies wholly inside the cut. */
  lemma {:induction false} InsideIsExact(rows: seq<Json>, cut: nat, k: nat, i: nat)
    requires i < k <= |rows|
    ensures i < Inside(rows, cut, k) <==> RowEnd(rows, i) <= cut
  {
    if RowEnd(rows, k - 1) <= cut {
      if i < k - 1 {
        RowsEndInOrder(rows, i, k - 1);
      }
    } else if i < k - 1 {
      InsideIsExact(rows, cut, k - 1, i);
    }
  }

  /** The scan of every truncated index finds exactly the rows wholly inside the cut. */
  lemma ScanTruncated(rows: seq<Json>, cut: nat)
    requires AreRows(rows) && cut <= |IndexText(rows)|
    ensures ScanFirst(START, IndexText(rows), cut, 0).found == Spans(rows, Inside(rows, cut, |rows|))
  {
    if rows == [] {
      PlainFirst(START, "[]", cut, 0);
    } else {
      FindsRowsInside(rows, cut);
      FindsNothingElse(rows, cut);
      PrefixBothWays(Spans(rows, Inside(rows, cut, |rows|)), ScanFirst(START, IndexText(rows), cut, 0).found);
    }
  }

  lemma FindsRowsInside(rows: seq<Json>, cut: nat)
    requires AreRows(rows) && rows != [] && cut <= |IndexText(rows)|
    ensures Spans(rows, Inside(rows, cut, |rows|)) <= ScanFirst(START, IndexText(rows), cut, 0).found
  {
    var k := Inside(rows, cut, |rows|);
    if k > 0 {
      InsideIsExact(rows, cut, |rows|, k - 1);
      FoundAtRow(rows, k);
      FoundGrows(START, IndexText(rows), |UpToRow(rows, k)|, cut, 0);
    }
  }

  lemma FindsNothingElse(rows: seq<Json>, cut: nat)
    requires AreRows(rows) && rows != [] && cut <= |IndexText(rows)|
    ensures ScanFirst(START, IndexText(rows), cut, 0).found <= Spans(rows, Inside(rows, cut, |rows|))
  {
    var k := Inside(rows, cut, |rows|);
    if k == |rows| {
      FoundAtEnd(rows);
      FoundGrows(START, IndexText(rows), cut, |IndexText(rows)|, 0);
    } else {
      InsideIsExact(rows, cut, |rows|, k);
      FindsNoUnfinishedRow(rows, cut, k);
    }
  }

  lemma FindsNoUnfinishedRow(rows: seq<Json>, cut: nat, k: nat)
    requires AreRows(rows) && k < |rows| && cut < RowEnd(rows, k) && cut <= |IndexText(rows)|
    ensures ScanFirst(START, IndexText(rows), cut, 0).found <= Spans(rows, k)
  {
    FoundBeforeRow(rows, k);
    FoundGrows(START, IndexText(rows), cut, RowEnd(rows, k) - 1, 0);
  }

  lemma PrefixBothWays(a: seq<Span>, b: seq<Span>)
    requires a <= b <= a
    ensures a == b
  {
  }

  lemma FoundAtRow(rows: seq<Json>, k: nat)
    requires AreRows(rows) && 0 < k <= |rows|
    ensures |UpToRow(rows, k)| <= |IndexText(rows)|
    ensures ScanFirst(START, IndexText(rows), |UpToRow(rows, k)|, 0).found == Spans(rows, k)
  {
    UpToRowIsPrefix(rows, k);
    ScanRows(rows, k);
    ScanPrefix(START, UpToRow(rows, k), IndexText(rows), |UpToRow(rows, k)|, 0);
  }

  lemma FoundBeforeRow(rows: seq<Json>, k: nat)
    requires AreRows(rows) && k < |rows|
    ensures 0 < RowEnd(rows, k) <= |IndexText(rows)|
    ensures ScanFirst(START, IndexText(rows), RowEnd(rows, k) - 1, 0).found == Spans(rows, k)
  {
    BeforeRowEnds(rows, k);
    UpToRowIsPrefix(rows, k + 1);
    ScanWithin(UpToRow(rows, k + 1), IndexText(rows), RowEnd(rows, k) - 1);
  }

  lemma ScanWithin(a: string, b: string, n: nat)
    requires a <= b && n <= |a|
    ensures ScanFirst(START, a, n, 0) == ScanFirst(START, b, n, 0)
  {
    ScanPrefix(START, a, b, n, 0);
  }

  lemma FoundAtEnd(rows: seq<Json>)
    requires AreRows(rows) && rows != []
    ensures ScanText(START, IndexText(rows), 0).found == Spans(rows, |rows|)
  {
    UpToRowIsPrefix(rows, |rows|);
    ScanRows(rows, |rows|);
    ScanConcat(START, UpToRow(rows, |rows|), Pad(0) + "]", 0);
    PlainText(Between(Spans(rows, |rows|)), Pad(0) + "]", |UpToRow(rows, |rows|)|);
  }

  /** The slice at a row's span is the row's own text. */
  lemma SliceIsRow(rows: seq<Json>, k: nat, cut: nat)
    requires k < |rows| && RowEnd(rows, k) <= cut <= |IndexText(rows)|
    ensures RowSpan(rows, k).start <= RowSpan(rows, k).end <= cut
    ensures IndexText(rows)[..cut][RowSpan(rows, k).start..RowSpan(rows, k).end] == Print(rows[k], 2)
  {
    UpToRowIsPrefix(rows, k + 1);
    NextRow(rows, k);
    SliceOf(IndexText(rows), UpToRow(rows, k) + Gap(k + 1, 2), Print(rows[k], 2), cut);
  }

  lemma SliceOf(text: string, before: string, part: string, cut: nat)
    requires before + part <= text && |before + part| <= cut <= |text|
    ensures text[..cut][|before|..|before + part|] == part
  {
    assert text[..cut][|before|..|before + part|] == (before + part)[|before|..];
  }

  // ---------------------------------------------------------------- from spans to rows

  type Parser = string -> Option<Json>

  /** Where a key is repeated its last field counts. */
  function Lookup(fields: seq<Field>, n: nat, key: string): Option<Json>
    requires n <= |fields|
  {
    if n == 0 then None else if fields[n - 1].key == key then Some(fields[n - 1].value) else Lookup(fields, n - 1, key)
  }

  predicate HasString(v: Json, key: string) {
    && v.Obj?
    && var field := Lookup(v.fields, |v.fields|, key);
       field.Some? && field.value.Str?
  }

  const REQUIRED := {"id", "workspacePath", "title", "createdAt", "lastActiveAt"}

  predicate IsMetadata(v: Json) {
    v.Obj? && forall key :: key in REQUIRED ==> HasString(v, key)
  }

  function IdOf(v: Json): string {
    if HasString(v, "id") then Lookup(v.fields, |v.fields|, "id").value.text else ""
  }

  predicate AllMetadata(rows: seq<Json>) {
    forall i :: 0 <= i < |rows| ==> IsMetadata(rows[i])
  }

  function OnlyMetadata(items: seq<Json>, n: nat): seq<Json>
    requires n <= |items|
  {
    if n == 0 then []
    else OnlyMetadata(items, n - 1) + (if IsMetadata(items[n - 1]) then [items[n - 1]] else [])
  }

  function WithRow(parse: Parser, rows: seq<Json>, text: string): seq<Json> {
    match parse(text)
    case Some(row) => if IsMetadata(row) then rows + [row] else rows
    case None => rows
  }

  /** The metadata rows among the found objects. */
  function RowsAt(parse: Parser, content: string, spans: seq<Span>): seq<Json> {
    if spans == [] then []
    else
      var before, last := RowsAt(parse, content, spans[..|spans| - 1]), spans[|spans| - 1];
      if last.start <= last.end <= |content| then WithRow(parse, before, content[last.start..last.end]) else before
  }

  /** A later row with an id already present takes the earlier one's place. */
  function Put(rows: seq<Json>, row: Json): seq<Json> {
    if rows == [] then [row]
    else if IdOf(rows[0]) == IdOf(row) then [row] + rows[1..]
    else [rows[0]] + Put(rows[1..], row)
  }

  function ById(rows: seq<Json>): seq<Json> {
    if rows == [] then [] else Put(ById(rows[..|rows| - 1]), rows[|rows| - 1])
  }

  predicate DistinctIds(rows: seq<Json>) {
    forall i, j :: 0 <= i < j < |rows| ==> IdOf(rows[i]) != IdOf(rows[j])
  }

  lemma {:induction false} PutNew(rows: seq<Json>, row: Json)
    requires forall i :: 0 <= i < |rows| ==> IdOf(rows[i]) != IdOf(row)
    ensures Put(rows, row) == rows + [row]
  {
    if rows != [] {
      PutNew(rows[1..], row);
      AppendAssociates([rows[0]], rows[1..], [row]);
      assert [rows[0]] + rows[1..] == rows;
    }
  }

  lemma {:induction false} ByIdKeepsDistinct(rows: seq<Json>)
    requires DistinctIds(rows)
    ensures ById(rows) == rows
  {
    if rows != [] {
      ByIdKeepsDistinct(rows[..|rows| - 1]);
      PutNew(rows[..|rows| - 1], rows[|rows| - 1]);
    }
  }

  lemma {:induction false} PutAddsOnlyTheRow(rows: seq<Json>, row: Json, id: string)
    requires id != IdOf(row) && forall i :: 0 <= i < |rows| ==> IdOf(rows[i]) != id
    ensures forall i :: 0 <= i < |Put(rows, row)| ==> IdOf(Put(rows, row)[i]) != id
  {
    if rows != [] && IdOf(rows[0]) != IdOf(row) {
      PutAddsOnlyTheRow(rows[1..], row, id);
    }
  }

  lemma {:induction false} PutStaysDistinct(rows: seq<Json>, row: Json)
    requires DistinctIds(rows)
    ensures DistinctIds(Put(rows, row))
  {
    if rows != [] && IdOf(rows[0]) != IdOf(row) {
      PutStaysDistinct(rows[1..], row);
      PutAddsOnlyTheRow(rows[1..], row, IdOf(rows[0]));
    }
  }

  /** No two salvaged rows share an id, whatever was scanned. */
  lemma {:induction false} ByIdIsDistinct(rows: seq<Json>)
    ensures DistinctIds(ById(rows))
  {
    if rows != [] {
      ByIdIsDistinct(rows[..|rows| - 1]);
      PutStaysDistinct(ById(rows[..|rows| - 1]), rows[|rows| - 1]);
    }
  }

  function StripBom(content: string): string {
    if content != [] && content[0] == '\U{FEFF}' then content[1..] else content
  }

  function Salvage(parse: Parser, content: string): seq<Json> {
    var whole := parse(StripBom(content));
    if whole.Some? && whole.value.Arr? then OnlyMetadata(whole.value.items, |whole.value.items|)
    else ById(RowsAt(parse, content, ScanText(START, content, 0).found))
  }

  /** The loop of the source, position by position. */
  method SalvageIndex(parse: Parser, content: string) returns (rows: seq<Json>)
    ensures rows == Salvage(parse, content)
  {
    var whole := parse(StripBom(content));
    if whole.Some? && whole.value.Arr? {
      return OnlyMetadata(whole.value.items, |whole.value.items|);
    }
    rows := [];
    var depth, start, inString, escaped := 0, -1, false, false;
    ghost var found: seq<Span> := [];
    for index := 0 to |content|
      invariant depth >= 0 && -1 <= start <= index
      invariant ScanFirst(START, content, index, 0)
             == Scan(depth, if start < 0 then None else Some(start), inString, escaped, found)
      invariant rows == RowsAt(parse, content, found)
    {
      var character := content[index];
      if inString {
        if escaped {
          escaped := false;
        } else if character == '\\' {
          escaped := true;
        } else if character == '"' {
          inString := false;
        }
      } else if character == '"' {
        inString := true;
      } else if character == '{' {
        if depth == 0 {
          start := index;
        }
        depth := depth + 1;
      } else if character == '}' && depth > 0 {
        depth := depth - 1;
        if depth == 0 && start >= 0 {
          rows := WithRow(parse, rows, content[start..index + 1]);
          found := found + [Span(start, index + 1)];
          start := -1;
        }
      }
    }
    rows := ById(rows);
  }

  // ---------------------------------------------------------------- every truncation

  predicate WhiteSpace(text: string) {
    forall i :: 0 <= i < |text| ==> text[i] in {' ', '\t', '\n', '\r'}
  }

  /** After a complete array nothing but white space may follow (section 2 of RFC 8259). */
  ghost predicate StopsAfterArray(parse: Parser) {
    forall a, b :: parse(a).Some? && parse(a).value.Arr? && parse(a + b).Some? ==> WhiteSpace(b)
  }

  /** What is asked of the JSON parser: the grammar rule above, and that it reads back what was printed. */
  ghost predicate ReadsBack(parse: Parser, rows: seq<Json>) {
    && StopsAfterArray(parse)
    && parse(IndexText(rows)) == Some(Arr(rows))
    && forall i :: 0 <= i < |rows| ==> parse(Print(rows[i], 2)) == Some(rows[i])
  }

  lemma IndexEndsWithBracket(rows: seq<Json>)
    ensures |IndexText(rows)| > 0 && IndexText(rows)[|IndexText(rows)| - 1] == ']'
  {
  }

  /** So a truncated index is never taken for a whole one. */
  lemma TruncatedIsNoArray(parse: Parser, rows: seq<Json>, cut: nat)
    requires ReadsBack(parse, rows) && cut < |IndexText(rows)|
    ensures var whole := parse(IndexText(rows)[..cut]); whole.None? || !whole.value.Arr?
  {
    var text := IndexText(rows);
    var a, b := text[..cut], text[cut..];
    assert text == a + b;
    IndexEndsWithBracket(rows);
    assert b[|b| - 1] == ']';
    assert !WhiteSpace(b);
  }

  lemma SlicesAreRows(parse: Parser, rows: seq<Json>, cut: nat, k: nat)
    requires ReadsBack(parse, rows) && cut <= |IndexText(rows)| && k <= Inside(rows, cut, |rows|)
    ensures RowsAt(parse, IndexText(rows)[..cut], Spans(rows, k)) == OnlyMetadata(rows, k)
  {
    var content := IndexText(rows)[..cut];
    NoSlices(parse, rows, content);
    for n := 0 to k
      invariant IsFiltered(parse, rows, content, n)
    {
      OneSliceMore(parse, rows, cut, n);
    }
  }

  /** The found objects read so far are the session rows among the first `n`. */
  ghost predicate IsFiltered(parse: Parser, rows: seq<Json>, content: string, n: nat)
    requires n <= |rows|
  {
    RowsAt(parse, content, Spans(rows, n)) == OnlyMetadata(rows, n)
  }

  lemma NoSlices(parse: Parser, rows: seq<Json>, content: string)
    ensures IsFiltered(parse, rows, content, 0)
  {
    assert Spans(rows, 0) == [];
  }

  lemma OneSliceMore(parse: Parser, rows: seq<Json>, cut: nat, k: nat)
    requires ReadsBack(parse, rows) && cut <= |IndexText(rows)| && k < Inside(rows, cut, |rows|)
    requires IsFiltered(parse, rows, IndexText(rows)[..cut], k)
    ensures IsFiltered(parse, rows, IndexText(rows)[..cut], k + 1)
  {
    NextSlice(parse, rows, cut, k);
  }

  lemma NextSlice(parse: Parser, rows: seq<Json>, cut: nat, k: nat)
    requires ReadsBack(parse, rows) && cut <= |IndexText(rows)| && k < Inside(rows, cut, |rows|)
    ensures RowsAt(parse, IndexText(rows)[..cut], Spans(rows, k + 1))
         == RowsAt(parse, IndexText(rows)[..cut], Spans(rows, k)) + if IsMetadata(rows[k]) then [rows[k]] else []
  {
    InsideIsExact(rows, cut, |rows|, k);
    SliceIsRow(rows, k, cut);
    NextSpan(rows, k);
    RowsAtSnoc(parse, IndexText(rows)[..cut], Spans(rows, k), RowSpan(rows, k));
  }

  lemma RowsAtSnoc(parse: Parser, content: string, spans: seq<Span>, span: Span)
    requires span.start <= span.end <= |content|
    ensures RowsAt(parse, content, spans + [span])
         == WithRow(parse, RowsAt(parse, content, spans), content[span.start..span.end])
  {
    assert (spans + [span])[..|spans|] == spans;
  }

  lemma {:induction false} OnlyMetadataKeepsAll(rows: seq<Json>, n: nat)
    requires AllMetadata(rows) && n <= |rows|
    ensures OnlyMetadata(rows, n) == rows[..n]
  {
    if n > 0 {
      OnlyMetadataKeepsAll(rows, n - 1);
    }
  }

  lemma NoBom(rows: seq<Json>, cut: nat)
    requires cut <= |IndexText(rows)|
    ensures StripBom(IndexText(rows)[..cut]) == IndexText(rows)[..cut]
  {
    assert IndexText(rows)[0] == '[';
  }

  /** The whole index fits exactly the full text. */
  lemma NothingCut(rows: seq<Json>)
    ensures Inside(rows, |IndexText(rows)|, |rows|) == |rows|
  {
    if rows != [] {
      UpToRowIsPrefix(rows, |rows|);
    }
  }

  /** Every truncation yields the session rows wholly inside the cut; a row that repeats an id replaces the
      earlier one. */
  lemma SalvageTruncated(parse: Parser, rows: seq<Json>, cut: nat)
    requires AreRows(rows) && ReadsBack(parse, rows) && cut < |IndexText(rows)|
    ensures Salvage(parse, IndexText(rows)[..cut]) == ById(OnlyMetadata(rows, Inside(rows, cut, |rows|)))
  {
    var text, k := IndexText(rows), Inside(rows, cut, |rows|);
    NoBom(rows, cut);
    TruncatedIsNoArray(parse, rows, cut);
    ScanTruncated(rows, cut);
    ScanPrefix(START, text[..cut], text, cut, 0);
    SlicesAreRows(parse, rows, cut, k);
  }

  /**
   For every index of rows with distinct ids and every truncation of its text, salvaging returns
   exactly the rows that lie wholly inside the cut, in order.
   */
  lemma SalvageKeepsWholeRows(parse: Parser, rows: seq<Json>, cut: nat)
    requires AreRows(rows) && AllMetadata(rows) && DistinctIds(rows) && ReadsBack(parse, rows)
    requires cut <= |IndexText(rows)|
    ensures Salvage(parse, IndexText(rows)[..cut]) == rows[..Inside(rows, cut, |rows|)]
  {
    if cut == |IndexText(rows)| {
      assert IndexText(rows)[..cut] == IndexText(rows);
      NoBom(rows, cut);
      NothingCut(rows);
      OnlyMetadataKeepsAll(rows, |rows|);
    } else {
      SalvageTruncated(parse, rows, cut);
      OnlyMetadataKeepsAll(rows, Inside(rows, cut, |rows|));
      ByIdKeepsDistinct(rows[..Inside(rows, cut, |rows|)]);
    }
  }
}
