/**
 The append-only chat transcript: reading rows back from bytes that may be torn, and the
 optimistic-cursor append that repairs partial writes and recognises its own lost ones.
 */
module Transcript {
  import opened Common

  const NL: Byte := 10

  datatype Message = Message(id: string, role: string, content: string)

  /** Row serialisation. Only the three facts in `ValidCodec` are used about it. */
  datatype Codec = Codec(encode: Message -> Bytes, decode: Bytes -> Option<Message>)

  predicate IsSpace(b: Byte) {
    b == 32 || 9 <= b <= 13
  }

  predicate Blank(line: Bytes) {
    forall i :: 0 <= i < |line| ==> IsSpace(line[i])
  }

  ghost predicate ValidCodec(c: Codec) {
    forall m: Message :: c.decode(c.encode(m)) == Some(m) && NL !in c.encode(m) && !Blank(c.encode(m))
  }

  // ---------------------------------------------------------------- reading rows

  /** Index of the first newline, or the length if there is none. */
  function LineEnd(s: Bytes): (n: nat)
    ensures n <= |s| && NL !in s[..n] && (n < |s| ==> s[n] == NL)
  {
    if s == [] then 0 else if s[0] == NL then 0 else 1 + LineEnd(s[1..])
  }

  /** A blank line is no row, and a line that does not parse is skipped. */
  function Row(c: Codec, line: Bytes): seq<Message> {
    if Blank(line) then []
    else match c.decode(line)
         case Some(m) => [m]
         case None => []
  }

  function Rows(c: Codec, s: Bytes): seq<Message>
    decreases |s|
  {
    var n := LineEnd(s);
    if n == |s| then Row(c, s) else Row(c, s[..n]) + Rows(c, s[n + 1..])
  }

  /** Bytes without a final newline: whatever is appended next would continue the last line. */
  predicate Torn(s: Bytes) {
    s != [] && s[|s| - 1] != NL
  }

  function EncodeAll(c: Codec, messages: seq<Message>): Bytes {
    if messages == [] then [] else c.encode(messages[0]) + [NL] + EncodeAll(c, messages[1..])
  }

  lemma {:induction false} LineEndOfLine(line: Bytes, rest: Bytes)
    requires NL !in line
    ensures LineEnd(line + [NL] + rest) == |line|
  {
    if line != [] {
      assert (line + [NL] + rest)[1..] == line[1..] + [NL] + rest;
      LineEndOfLine(line[1..], rest);
    }
  }

  lemma RowsOfLine(c: Codec, line: Bytes, rest: Bytes)
    requires NL !in line
    ensures Rows(c, line + [NL] + rest) == Row(c, line) + Rows(c, rest)
  {
    var s := line + [NL] + rest;
    LineEndOfLine(line, rest);
    assert s[..|line|] == line && s[|line| + 1..] == rest;
  }

  lemma SplitAfterLine(c: Codec, line: Bytes, rest: Bytes, b: Bytes)
    requires NL !in line && Rows(c, rest + [NL] + b) == Rows(c, rest) + Rows(c, b)
    ensures Rows(c, (line + [NL] + rest) + [NL] + b) == Rows(c, line + [NL] + rest) + Rows(c, b)
  {
    RowsOfLine(c, line, rest);
    RowsOfLine(c, line, rest + [NL] + b);
    Regroup(line, rest, b);
    AppendAssociates(Row(c, line), Rows(c, rest), Rows(c, b));
  }

  lemma Regroup(line: Bytes, rest: Bytes, b: Bytes)
    ensures (line + [NL] + rest) + [NL] + b == line + [NL] + (rest + [NL] + b)
  {
  }

  lemma FirstLine(s: Bytes) returns (line: Bytes, rest: Bytes)
    requires NL in s
    ensures NL !in line && s == line + [NL] + rest && |rest| < |s|
  {
    var n := LineEnd(s);
    assert n < |s| by {
      assert s[..|s|] == s;
    }
    line, rest := s[..n], s[n + 1..];
  }

  /** Rows up to a newline and rows after it are read independently. */
  lemma {:induction false} RowsSplitAtNewline(c: Codec, a: Bytes, b: Bytes)
    ensures Rows(c, a + [NL] + b) == Rows(c, a) + Rows(c, b)
    decreases |a|
  {
    if NL in a {
      var line, rest := FirstLine(a);
      RowsSplitAtNewline(c, rest, b);
      SplitAfterLine(c, line, rest, b);
    } else {
      RowsOfLine(c, a, b);
      assert LineEnd(a) == |a|;
    }
  }

  lemma RowsOfNothing(c: Codec)
    ensures Rows(c, []) == []
  {
  }

  /** Ending a torn line with a newline changes no row. */
  lemma RowsIgnoreFinalNewline(c: Codec, a: Bytes)
    ensures Rows(c, a + [NL]) == Rows(c, a)
  {
    RowsSplitAtNewline(c, a, []);
    assert a + [NL] + [] == a + [NL];
    RowsOfNothing(c);
  }

  lemma {:induction false} RowsOfBatch(c: Codec, messages: seq<Message>)
    requires ValidCodec(c)
    ensures Rows(c, EncodeAll(c, messages)) == messages
    ensures messages != [] ==>
            EncodeAll(c, messages) != [] && EncodeAll(c, messages)[0] != NL && !Torn(EncodeAll(c, messages))
  {
    if messages == [] {
      RowsOfNothing(c);
    } else {
      RowsOfBatch(c, messages[1..]);
      RowsOfMessage(c, messages[0], EncodeAll(c, messages[1..]));
      assert messages == [messages[0]] + messages[1..];
      LinesOfBatch(c, messages);
    }
  }

  lemma RowsOfMessage(c: Codec, m: Message, rest: Bytes)
    requires ValidCodec(c)
    ensures Rows(c, c.encode(m) + [NL] + rest) == [m] + Rows(c, rest)
  {
    RowsOfLine(c, c.encode(m), rest);
  }

  lemma LinesOfBatch(c: Codec, messages: seq<Message>)
    requires ValidCodec(c) && messages != [] && !Torn(EncodeAll(c, messages[1..]))
    ensures EncodeAll(c, messages) != [] && EncodeAll(c, messages)[0] != NL && !Torn(EncodeAll(c, messages))
  {
    assert c.encode(messages[0]) != [];
  }

  lemma RowsAfterCompleteLine(c: Codec, before: Bytes, batch: Bytes)
    requires !Torn(before)
    ensures Rows(c, before + batch) == Rows(c, before) + Rows(c, batch)
  {
    if before == [] {
      assert before + batch == batch;
      RowsOfNothing(c);
    } else {
      var body := before[..|before| - 1];
      assert before == body + [NL];
      RowsSplitAtNewline(c, body, batch);
      RowsIgnoreFinalNewline(c, body);
    }
  }

  /** Whatever precedes it, torn or not, a batch written after the right separator is read back
      exactly once, after exactly the rows that were there. */
  lemma RowsAfterAppend(c: Codec, before: Bytes, messages: seq<Message>, after: Bytes)
    requires ValidCodec(c) && after == before + (Separator(before) + EncodeAll(c, messages))
    ensures Rows(c, after) == Rows(c, before) + messages
  {
    RowsOfBatch(c, messages);
    var batch := EncodeAll(c, messages);
    AppendAssociates(before, Separator(before), batch);
    if Torn(before) {
      RowsSplitAtNewline(c, before, batch);
    } else {
      assert before + [] == before;
      RowsAfterCompleteLine(c, before, batch);
    }
  }

  function Separator(before: Bytes): Bytes {
    if Torn(before) then [NL] else []
  }

  // ---------------------------------------------------------------- the file and its identity

  /** Device, inode and times stand for one stamp that every change of the file replaces; `past`
      remembers the bytes each stamp stood for, so equal identities mean equal bytes. */
  datatype Disk = Disk(file: Option<Bytes>, stamp: nat, past: seq<Bytes>, indexed: bool)

  datatype Identity = Absent | Present(stamp: nat, size: nat, endsWithNewline: bool)

  datatype Cursor = Cursor(sessionId: string, count: nat, file: Identity)

  function IdentityOf(d: Disk): Identity {
    match d.file
    case None => Absent
    case Some(s) => Present(d.stamp, |s|, s != [] && s[|s| - 1] == NL)
  }

  function SizeOf(id: Identity): nat {
    if id.Present? then id.size else 0
  }

  function Put(d: Disk, s: Bytes): Disk {
    d.(file := Some(s), stamp := |d.past|, past := d.past + [s])
  }

  function Contents(d: Disk): Bytes {
    if d.file.Some? then d.file.value else []
  }

  /** Does the file now hold these bytes, or a proper non-empty prefix of them, after `before`? */
  predicate AppendedSuffixMatches(d: Disk, before: Identity, bytes: Bytes, allowPrefix: bool) {
    && d.file.Some? && SizeOf(before) <= |d.file.value|
    && var appended := |d.file.value| - SizeOf(before);
       && (if allowPrefix then 0 < appended < |bytes| else appended == |bytes|)
       && d.file.value[SizeOf(before)..] == bytes[..appended]
  }

  // ---------------------------------------------------------------- one append call

  /** What the file system does to the call: whether the file is opened at all, how many bytes land,
      whether the write reports an error, whether a repair succeeds, whether the process dies. */
  datatype Fault = Fault(opens: bool, lands: nat, throws: bool, repairs: bool, crashes: bool)

  datatype Result =
    | Appended(count: nat, total: nat, cursor: Cursor)
    | StaleCursor
    | CreateRefused
    | WriteError(cursor: Cursor)
    | ConsistencyError
    | Crashed

  function AfterWrite(d: Disk, bytes: Bytes, fault: Fault): Disk {
    if !fault.opens then d
    else Put(d, Contents(d) + bytes[..if fault.lands < |bytes| then fault.lands else |bytes|])
  }

  function AppendCall(c: Codec, session: string, d: Disk, cursor: Cursor, messages: seq<Message>, fault: Fault): (Disk,
                      Result) {
    if messages == [] then (d, Appended(0, cursor.count, cursor))
    else if cursor.sessionId != session then (d, StaleCursor)
    else
      var current := IdentityOf(d);
      var bytes := Separator(Contents(d)) + EncodeAll(c, messages);
      var total := cursor.count + |messages|;
      if cursor.file != current then
        if AppendedSuffixMatches(d, cursor.file, bytes, false)
        then (d, Appended(|messages|, total, Cursor(session, total, current)))
        else (d, StaleCursor)
      else if current.Absent? && !d.indexed then (d, CreateRefused)
      else
        var after := AfterWrite(d, bytes, fault);
        if fault.crashes then (after, Crashed)
        else if AppendedSuffixMatches(after, current, bytes, false) then
          (after, Appended(|messages|, total, Cursor(session, total, IdentityOf(after))))
        else if fault.throws && AppendedSuffixMatches(after, current, bytes, true) then
          if !fault.repairs then (after, WriteError(cursor))
          else
            var repaired := Put(after, after.file.value[..SizeOf(current)]);
            (repaired, WriteError(Cursor(session, cursor.count, IdentityOf(repaired))))
        else (after, ConsistencyError)
  }

  // ---------------------------------------------------------------- cursors along a run

  ghost predicate DiskOk(d: Disk) {
    d.file.Some? ==> d.stamp < |d.past| && d.past[d.stamp] == d.file.value
  }

  /** The bytes the cursor was issued for. */
  function Seen(d: Disk, cursor: Cursor): Bytes {
    if cursor.file.Present? && cursor.file.stamp < |d.past| then d.past[cursor.file.stamp] else []
  }

  /** `later` continues `earlier` without running on from a torn line. */
  ghost predicate Continues(earlier: Bytes, later: Bytes) {
    earlier <= later && (Torn(earlier) && |earlier| < |later| ==> later[|earlier|] == NL)
  }

  lemma ContinuesIsTransitive(a: Bytes, b: Bytes, d: Bytes)
    requires Continues(a, b) && Continues(b, d)
    ensures Continues(a, d)
  {
  }

  /** An issued cursor names bytes that the file still starts with, and counts their rows. */
  ghost predicate CursorOk(c: Codec, d: Disk, cursor: Cursor) {
    && (match cursor.file
        case Absent => true
        case Present(stamp, size, nl) => stamp < |d.past| && size == |d.past[stamp]|
                                         && nl == (d.past[stamp] != [] && !Torn(d.past[stamp])))
    && cursor.count == |Rows(c, Seen(d, cursor))|
    && Continues(Seen(d, cursor), Contents(d))
    && (d.file.None? ==> Seen(d, cursor) == [])
  }

  lemma CursorAtIdentity(c: Codec, d: Disk, cursor: Cursor)
    requires DiskOk(d) && CursorOk(c, d, cursor) && cursor.file == IdentityOf(d)
    ensures Seen(d, cursor) == Contents(d)
  {
  }

  /** Growing the file keeps every cursor that was issued before. */
  lemma CursorSurvives(c: Codec, d: Disk, d': Disk, cursor: Cursor)
    requires CursorOk(c, d, cursor) && d.past <= d'.past && Continues(Contents(d), Contents(d'))
    requires d'.file.None? ==> d.file.None?
    ensures CursorOk(c, d', cursor) && Seen(d', cursor) == Seen(d, cursor)
  {
    ContinuesIsTransitive(Seen(d, cursor), Contents(d), Contents(d'));
  }

  /** A cursor issued for the file as it is. */
  lemma IssuedNow(c: Codec, session: string, d: Disk)
    requires DiskOk(d)
    ensures CursorOk(c, d, Cursor(session, |Rows(c, Contents(d))|, IdentityOf(d)))
  {
    RowsOfNothing(c);
  }

  lemma WriteContinues(before: Bytes, bytes: Bytes, n: nat)
    requires n <= |bytes| && (Torn(before) ==> bytes != [] && bytes[0] == NL)
    ensures Continues(before, before + bytes[..n])
  {
  }

  /** The file grew from one disk to the next, and nothing remembered was lost. */
  ghost predicate Grew(d: Disk, d': Disk) {
    DiskOk(d') && d.past <= d'.past && Continues(Contents(d), Contents(d')) && (d'.file.None? ==> d.file.None?)
  }

  /** A call that finds its own bytes already there: they follow what the cursor had seen, and the
      line they follow was complete. */
  lemma RecognisedRetry(c: Codec, d: Disk, cursor: Cursor, messages: seq<Message>)
    requires ValidCodec(c) && CursorOk(c, d, cursor) && messages != []
    requires AppendedSuffixMatches(d, cursor.file, Separator(Contents(d)) + EncodeAll(c, messages), false)
    ensures !Torn(Seen(d, cursor)) && Contents(d) == Seen(d, cursor) + EncodeAll(c, messages)
  {
    var s, seen, batch := Contents(d), Seen(d, cursor), EncodeAll(c, messages);
    RowsOfBatch(c, messages);
    SuffixIsBatch(s, seen, batch);
  }

  lemma SuffixIsBatch(s: Bytes, seen: Bytes, batch: Bytes)
    requires batch != [] && batch[0] != NL && !Torn(batch) && Continues(seen, s)
    requires s[|seen|..] == Separator(s) + batch
    ensures !Torn(seen) && s == seen + batch
  {
    assert s == seen + s[|seen|..];
    assert s[|s| - 1] == batch[|batch| - 1];
    assert Separator(s) + batch == batch;
    assert s[|seen|] == batch[0];
  }

  lemma WrittenBytes(d: Disk, bytes: Bytes, fault: Fault)
    requires DiskOk(d) && (Torn(Contents(d)) ==> bytes != [] && bytes[0] == NL)
    ensures var after := AfterWrite(d, bytes, fault);
            && Grew(d, after)
            && Contents(after)[..|Contents(d)|] == Contents(d)
            && (AppendedSuffixMatches(after, IdentityOf(d), bytes, false) ==> Contents(after) == Contents(d) + bytes)
  {
    var n := if fault.lands < |bytes| then fault.lands else |bytes|;
    WriteContinues(Contents(d), bytes, n);
    var after := AfterWrite(d, bytes, fault);
    assert Contents(after) == Contents(after)[..|Contents(d)|] + Contents(after)[|Contents(d)|..];
  }

  /** The batch follows what was there, or a repaired failure left the file as it was. */
  ghost predicate FreshRows(c: Codec, d: Disk, cursor: Cursor, messages: seq<Message>, fault: Fault, d': Disk,
                            r: Result) {
    && (r.Appended? ==>
          && Rows(c, Contents(d')) == Rows(c, Contents(d)) + messages
          && r.cursor.file == IdentityOf(d') && r.total == r.cursor.count == cursor.count + |messages|)
    && (r.WriteError? && fault.repairs ==>
          Contents(d') == Contents(d) && r.cursor.file == IdentityOf(d') && r.cursor.count == cursor.count)
    && (r.WriteError? && !fault.repairs ==> r.cursor == cursor)
  }

  lemma FreshWrite(c: Codec, session: string, d: Disk, cursor: Cursor, messages: seq<Message>, fault: Fault)
    requires ValidCodec(c) && DiskOk(d) && CursorOk(c, d, cursor)
    requires messages != [] && cursor.sessionId == session && cursor.file == IdentityOf(d)
    requires (d.file.None? ==> d.indexed)
    ensures var (d', r) := AppendCall(c, session, d, cursor, messages, fault);
            Grew(d, d') && FreshRows(c, d, cursor, messages, fault, d', r)
  {
    FreshBytes(c, session, d, cursor, messages, fault);
    RowsWritten(c, d, messages, AppendCall(c, session, d, cursor, messages, fault).0);
  }

  /** The same on the level of bytes. */
  lemma FreshBytes(c: Codec, session: string, d: Disk, cursor: Cursor, messages: seq<Message>, fault: Fault)
    requires DiskOk(d) && messages != [] && cursor.sessionId == session && cursor.file == IdentityOf(d)
    requires (d.file.None? ==> d.indexed)
    ensures var (d', r) := AppendCall(c, session, d, cursor, messages, fault);
            && Grew(d, d')
            && (r.Appended? ==>
                  && Contents(d') == Contents(d) + (Separator(Contents(d)) + EncodeAll(c, messages))
                  && r.cursor.file == IdentityOf(d') && r.total == r.cursor.count == cursor.count + |messages|)
            && (r.WriteError? && fault.repairs ==> Contents(d') == Contents(d) && r.cursor.file == IdentityOf(d')
                                                   && r.cursor.count == cursor.count)
            && (r.WriteError? && !fault.repairs ==> r.cursor == cursor)
  {
    var bytes := Separator(Contents(d)) + EncodeAll(c, messages);
    var after := AfterWrite(d, bytes, fault);
    WrittenBytes(d, bytes, fault);
    if after.file.Some? {
      RepairedBytes(d, after);
    }
  }

  /** Cutting the file back leaves what was there before the write. */
  lemma RepairedBytes(d: Disk, after: Disk)
    requires Grew(d, after) && after.file.Some?
    ensures SizeOf(IdentityOf(d)) == |Contents(d)| <= |after.file.value|
    ensures var repaired := Put(after, after.file.value[..|Contents(d)|]);
            Grew(d, repaired) && Contents(repaired) == Contents(d)
  {
  }

  lemma RowsWritten(c: Codec, d: Disk, messages: seq<Message>, after: Disk)
    requires ValidCodec(c) && messages != []
    ensures Contents(after) == Contents(d) + (Separator(Contents(d)) + EncodeAll(c, messages)) ==>
              Rows(c, Contents(after)) == Rows(c, Contents(d)) + messages
  {
    if Contents(after) == Contents(d) + (Separator(Contents(d)) + EncodeAll(c, messages)) {
      RowsAfterAppend(c, Contents(d), messages, Contents(after));
    }
  }

  /** A success leaves the rows the cursor had seen followed by the batch, exactly once, and the returned
      cursor is good. */
  ghost predicate ExactCall(c: Codec, d: Disk, cursor: Cursor, messages: seq<Message>, d': Disk, r: Result) {
    && (r.Appended? && messages != [] ==> Rows(c, Contents(d')) == Rows(c, Seen(d, cursor)) + messages)
    && (r.Appended? ==> CursorOk(c, d', r.cursor) && r.total == r.cursor.count)
    && (r.WriteError? ==> CursorOk(c, d', r.cursor))
  }

  lemma FreshIsExact(c: Codec, session: string, d: Disk, cursor: Cursor, messages: seq<Message>, fault: Fault)
    requires ValidCodec(c) && DiskOk(d) && CursorOk(c, d, cursor)
    requires messages != [] && cursor.sessionId == session && cursor.file == IdentityOf(d)
    requires d.file.Some? || d.indexed
    ensures var (d', r) := AppendCall(c, session, d, cursor, messages, fault);
            Grew(d, d') && ExactCall(c, d, cursor, messages, d', r)
  {
    var (d', r) := AppendCall(c, session, d, cursor, messages, fault);
    FreshWrite(c, session, d, cursor, messages, fault);
    FreshCursor(c, d, cursor, messages, fault, d', r);
  }

  lemma FreshCursor(c: Codec, d: Disk, cursor: Cursor, messages: seq<Message>, fault: Fault, d': Disk, r: Result)
    requires DiskOk(d) && CursorOk(c, d, cursor) && cursor.file == IdentityOf(d)
    requires Grew(d, d') && FreshRows(c, d, cursor, messages, fault, d', r)
    ensures ExactCall(c, d, cursor, messages, d', r)
  {
    CursorAtIdentity(c, d, cursor);
    CursorSurvives(c, d, d', cursor);
    if r.Appended? || r.WriteError? {
      IssuedNow(c, r.cursor.sessionId, d');
    }
  }

  /** The main property of one call: it is exact, and every call leaves the file continuing what it was,
      so all cursors stay good. */
  lemma AppendCallIsExact(c: Codec, session: string, d: Disk, cursor: Cursor, messages: seq<Message>, fault: Fault)
    requires ValidCodec(c) && DiskOk(d) && CursorOk(c, d, cursor)
    ensures var (d', r) := AppendCall(c, session, d, cursor, messages, fault);
            Grew(d, d') && ExactCall(c, d, cursor, messages, d', r)
  {
    if messages == [] || cursor.sessionId != session {
    } else if cursor.file != IdentityOf(d) {
      if AppendedSuffixMatches(d, cursor.file, Separator(Contents(d)) + EncodeAll(c, messages), false) {
        RetryIsExact(c, session, d, cursor, messages);
      }
    } else if d.file.Some? || d.indexed {
      FreshIsExact(c, session, d, cursor, messages, fault);
    }
  }

  lemma RetryRows(c: Codec, d: Disk, cursor: Cursor, messages: seq<Message>)
    requires ValidCodec(c) && CursorOk(c, d, cursor) && messages != []
    requires AppendedSuffixMatches(d, cursor.file, Separator(Contents(d)) + EncodeAll(c, messages), false)
    ensures Rows(c, Contents(d)) == Rows(c, Seen(d, cursor)) + messages
  {
    RecognisedRetry(c, d, cursor, messages);
    RowsAfterCompleteLine(c, Seen(d, cursor), EncodeAll(c, messages));
    RowsOfBatch(c, messages);
  }

  lemma RetryIsExact(c: Codec, session: string, d: Disk, cursor: Cursor, messages: seq<Message>)
    requires ValidCodec(c) && DiskOk(d) && CursorOk(c, d, cursor) && messages != []
    requires AppendedSuffixMatches(d, cursor.file, Separator(Contents(d)) + EncodeAll(c, messages), false)
    ensures Rows(c, Contents(d)) == Rows(c, Seen(d, cursor)) + messages
    ensures CursorOk(c, d, Cursor(session, cursor.count + |messages|, IdentityOf(d)))
  {
    RetryRows(c, d, cursor, messages);
    IssuedNow(c, session, d);
  }

  // ---------------------------------------------------------------- retries

  /** Once a call has put anything on disk, its cursor is spent: whatever is sent with it again, the
      file stays as it is. */
  lemma RetryNeverDuplicates(c: Codec, session: string, d: Disk, cursor: Cursor,
                             messages: seq<Message>, fault: Fault, again: seq<Message>, fault': Fault)
    requires DiskOk(d) && cursor.file == IdentityOf(d)
    ensures var d' := AppendCall(c, session, d, cursor, messages, fault).0;
            d' != d ==> AppendCall(c, session, d', cursor, again, fault').0 == d'
  {
    var d' := AppendCall(c, session, d, cursor, messages, fault).0;
    assert d' != d ==> IdentityOf(d') != cursor.file;
  }

  /** When the whole batch landed but the answer was lost, sending it again is recognised as done
      exactly when the file had not been torn before: after a torn line the separator is no longer
      part of the expected bytes, and the caller gets a stale cursor instead. */
  lemma LostAnswerIsRecognisedIff(c: Codec, session: string, d: Disk, cursor: Cursor, messages: seq<Message>,
                                  fault: Fault, fault': Fault)
    requires ValidCodec(c) && DiskOk(d) && cursor.file == IdentityOf(d) && cursor.sessionId == session && messages != []
    requires d.file.Some? || d.indexed
    requires fault.opens && fault.crashes && fault.lands >= |Separator(Contents(d)) + EncodeAll(c, messages)|
    ensures var d' := AppendCall(c, session, d, cursor, messages, fault).0;
            var (d2, r) := AppendCall(c, session, d', cursor, messages, fault');
            d2 == d' && (r.Appended? <==> !Torn(Contents(d))) && (r.StaleCursor? <==> Torn(Contents(d)))
  {
    WholeBatchLands(c, session, d, cursor, messages, fault);
    var d' := AppendCall(c, session, d, cursor, messages, fault).0;
    SentAgain(c, session, d', cursor, messages, fault', Contents(d));
  }

  lemma WholeBatchLands(c: Codec, session: string, d: Disk, cursor: Cursor, messages: seq<Message>, fault: Fault)
    requires DiskOk(d) && cursor.file == IdentityOf(d) && cursor.sessionId == session && messages != []
    requires d.file.Some? || d.indexed
    requires fault.opens && fault.crashes && fault.lands >= |Separator(Contents(d)) + EncodeAll(c, messages)|
    ensures AppendCall(c, session, d, cursor, messages, fault).0
         == Put(d, Contents(d) + (Separator(Contents(d)) + EncodeAll(c, messages)))
  {
    var bytes := Separator(Contents(d)) + EncodeAll(c, messages);
    assert bytes[..|bytes|] == bytes;
  }

  lemma SentAgain(c: Codec, session: string, d: Disk, cursor: Cursor, messages: seq<Message>, fault: Fault, s: Bytes)
    requires ValidCodec(c) && messages != [] && cursor.sessionId == session && SizeOf(cursor.file) == |s|
    requires d.file == Some(s + (Separator(s) + EncodeAll(c, messages))) && cursor.file != IdentityOf(d)
    ensures var (d', r) := AppendCall(c, session, d, cursor, messages, fault);
            d' == d && (r.Appended? <==> !Torn(s)) && (r.StaleCursor? <==> Torn(s))
  {
    var batch := EncodeAll(c, messages);
    RowsOfBatch(c, messages);
    AppendedTail(s, Separator(s), batch);
    SuffixMatchesIff(d, cursor.file, s, batch);
    assert Separator(Contents(d)) == [];
    assert [] + batch == batch;
  }

  lemma SuffixMatchesIff(d: Disk, before: Identity, s: Bytes, batch: Bytes)
    requires batch != [] && SizeOf(before) == |s| && d.file == Some(s + (Separator(s) + batch))
    ensures AppendedSuffixMatches(d, before, batch, false) <==> !Torn(s)
  {
    AppendedTail(s, Separator(s), batch);
    assert batch[..|batch|] == batch && [] + batch == batch;
  }

  lemma AppendedTail(s: Bytes, separator: Bytes, batch: Bytes)
    requires batch != []
    ensures var all := s + (separator + batch);
            all[|s|..] == separator + batch && all[|all| - 1] == batch[|batch| - 1]
  {
  }

  // ---------------------------------------------------------------- whole runs

  /** What may happen to one transcript: somebody loads it, somebody appends with a cursor that was
      issued earlier, or the session is entered in or taken out of the index. */
  datatype Event = Load | Append(k: nat, messages: seq<Message>, fault: Fault) | SetIndexed(indexed: bool)

  datatype World = World(disk: Disk, issued: seq<Cursor>)

  function Issues(r: Result): seq<Cursor> {
    if r.Appended? || r.WriteError? then [r.cursor] else []
  }

  function Next(c: Codec, session: string, w: World, e: Event): World
    requires e.Append? ==> e.k < |w.issued|
  {
    match e
    case Load => w.(issued := w.issued + [Cursor(session, |Rows(c, Contents(w.disk))|, IdentityOf(w.disk))])
    case Append(k, messages, fault) =>
      var (d', r) := AppendCall(c, session, w.disk, w.issued[k], messages, fault);
      World(d', w.issued + Issues(r))
    case SetIndexed(indexed) => w.(disk := w.disk.(indexed := indexed))
  }

  ghost predicate IsRun(c: Codec, session: string, worlds: seq<World>, events: seq<Event>) {
    && |worlds| == |events| + 1
    && DiskOk(worlds[0].disk) && worlds[0].issued == []
    && forall i :: 0 <= i < |events| ==> Follows(c, session, worlds[i], events[i], worlds[i + 1])
  }

  ghost predicate Follows(c: Codec, session: string, w: World, e: Event, w': World) {
    (e.Append? ==> e.k < |w.issued|) && w' == Next(c, session, w, e)
  }

  ghost predicate WorldOk(c: Codec, w: World) {
    DiskOk(w.disk) && forall k :: 0 <= k < |w.issued| ==> CursorOk(c, w.disk, w.issued[k])
  }

  lemma CursorsSurvive(c: Codec, d: Disk, d': Disk, issued: seq<Cursor>)
    requires Grew(d, d') && forall k :: 0 <= k < |issued| ==> CursorOk(c, d, issued[k])
    ensures forall k :: 0 <= k < |issued| ==> CursorOk(c, d', issued[k]) && Seen(d', issued[k]) == Seen(d, issued[k])
  {
    forall k | 0 <= k < |issued|
      ensures CursorOk(c, d', issued[k]) && Seen(d', issued[k]) == Seen(d, issued[k])
    {
      CursorSurvives(c, d, d', issued[k]);
    }
  }

  lemma EventKeepsWorld(c: Codec, session: string, w: World, e: Event)
    requires ValidCodec(c) && WorldOk(c, w) && (e.Append? ==> e.k < |w.issued|)
    ensures WorldOk(c, Next(c, session, w, e))
  {
    match e
    case Load => IssuedNow(c, session, w.disk);
    case Append(k, messages, fault) =>
      AppendCallIsExact(c, session, w.disk, w.issued[k], messages, fault);
      CursorsSurvive(c, w.disk, AppendCall(c, session, w.disk, w.issued[k], messages, fault).0, w.issued);
    case SetIndexed(indexed) => CursorsSurvive(c, w.disk, w.disk.(indexed := indexed), w.issued);
  }

  lemma {:induction false} RunKeepsWorld(c: Codec, session: string, worlds: seq<World>, events: seq<Event>, i: nat)
    requires ValidCodec(c) && IsRun(c, session, worlds, events) && i < |worlds|
    ensures WorldOk(c, worlds[i])
  {
    if i > 0 {
      RunKeepsWorld(c, session, worlds, events, i - 1);
      assert Follows(c, session, worlds[i - 1], events[i - 1], worlds[i - 1 + 1]);
      EventKeepsWorld(c, session, worlds[i - 1], events[i - 1]);
    }
  }

  /** After any finite sequence of loads and appends, with writes landing fully, partly or with the
      answer lost, every successful append leaves the rows its cursor stood for, followed by its batch
      exactly once. */
  lemma EverySuccessIsExact(c: Codec, session: string, worlds: seq<World>, events: seq<Event>, i: nat)
    requires ValidCodec(c) && IsRun(c, session, worlds, events) && i < |events| && events[i].Append?
    requires events[i].messages != []
    ensures events[i].k < |worlds[i].issued|
    ensures var e, cursor := events[i], worlds[i].issued[events[i].k];
            AppendCall(c, session, worlds[i].disk, cursor, e.messages, e.fault).1.Appended? ==>
              && Rows(c, Contents(worlds[i + 1].disk)) == Rows(c, Seen(worlds[i].disk, cursor)) + e.messages
              && |Rows(c, Seen(worlds[i].disk, cursor))| == cursor.count
  {
    RunKeepsWorld(c, session, worlds, events, i);
    assert Follows(c, session, worlds[i], events[i], worlds[i + 1]);
    AppendCallIsExact(c, session, worlds[i].disk, worlds[i].issued[events[i].k], events[i].messages, events[i].fault);
  }

  // ---------------------------------------------------------------- the store object

  /** The transcript file of one session, updated in place under its lock. */
  class TranscriptFile {
    const session: string
    const codec: Codec
    var file: Option<Bytes>
    var stamp: nat
    var past: seq<Bytes>
    var indexed: bool

    constructor (session: string, codec: Codec, indexed: bool)
      ensures this.session == session && this.codec == codec && View() == Disk(None, 0, [], indexed)
    {
      this.session, this.codec, this.indexed := session, codec, indexed;
      file, stamp, past := None, 0, [];
    }

    function View(): Disk
      reads this
    {
      Disk(file, stamp, past, indexed)
    }

    method Store(bytes: Bytes)
      modifies this`file, this`stamp, this`past
      ensures View() == Put(old(View()), bytes)
    {
      file, stamp, past := Some(bytes), |past|, past + [bytes];
    }

    method AppendSessionMessages(cursor: Cursor, messages: seq<Message>, fault: Fault) returns (r: Result)
      modifies this`file, this`stamp, this`past
      ensures (View(), r) == AppendCall(codec, session, old(View()), cursor, messages, fault)
    {
      if messages == [] {
        return Appended(0, cursor.count, cursor);
      }
      if cursor.sessionId != session {
        return StaleCursor;
      }
      var current := IdentityOf(View());
      var before := Contents(View());
      var bytes := Separator(before) + EncodeAll(codec, messages);
      var total := cursor.count + |messages|;
      if cursor.file != current {
        if AppendedSuffixMatches(View(), cursor.file, bytes, false) {
          return Appended(|messages|, total, Cursor(session, total, current));
        }
        return StaleCursor;
      }
      if current.Absent? && !indexed {
        return CreateRefused;
      }
      if fault.opens {
        Store(before + bytes[..if fault.lands < |bytes| then fault.lands else |bytes|]);
      }
      if fault.crashes {
        return Crashed;
      }
      if AppendedSuffixMatches(View(), current, bytes, false) {
        return Appended(|messages|, total, Cursor(session, total, IdentityOf(View())));
      }
      if !fault.throws || !AppendedSuffixMatches(View(), current, bytes, true) {
        return ConsistencyError;
      }
      if !fault.repairs {
        return WriteError(cursor);
      }
      Store(file.value[..SizeOf(current)]);
      r := WriteError(Cursor(session, cursor.count, IdentityOf(View())));
    }
  }
}
