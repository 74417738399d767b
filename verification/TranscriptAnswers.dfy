/** What an append answers and leaves on disk, case by case, from what landed there. */
module TranscriptAnswers {
  import opened Common
  import opened Transcript

  /** What the call tries to write. */
  function Batch(c: Codec, d: Disk, messages: seq<Message>): Bytes {
    Separator(Contents(d)) + EncodeAll(c, messages)
  }

  /** How much of it lands. */
  function Landed(bytes: Bytes, fault: Fault): (n: nat)
    ensures n <= |bytes|
  {
    if !fault.opens then 0 else if fault.lands < |bytes| then fault.lands else |bytes|
  }

  /** The cursor is of this session and for the file as it is, and the file may be created if need be. */
  ghost predicate MayWrite(session: string, d: Disk, cursor: Cursor, messages: seq<Message>) {
    && messages != [] && cursor.sessionId == session && cursor.file == IdentityOf(d)
    && (d.file.Some? || d.indexed)
  }

  lemma BatchIsNotEmpty(c: Codec, d: Disk, messages: seq<Message>)
    requires messages != []
    ensures Batch(c, d, messages) != []
  {
  }

  /** The write leaves the first `Landed` bytes behind what was there. */
  lemma WhatLands(d: Disk, bytes: Bytes, fault: Fault)
    ensures Contents(AfterWrite(d, bytes, fault)) == Contents(d) + bytes[..Landed(bytes, fault)]
  {
    assert Contents(d) + bytes[..0] == Contents(d);
  }

  lemma SuffixMatches(d: Disk, current: Identity, s: Bytes, bytes: Bytes, n: nat, allowPrefix: bool)
    requires SizeOf(current) == |s| && n <= |bytes| && bytes != [] && Contents(d) == s + bytes[..n]
    ensures AppendedSuffixMatches(d, current, bytes, allowPrefix) <==>
            if allowPrefix then 0 < n < |bytes| else n == |bytes|
  {
    assert Contents(d)[|s|..] == bytes[..n];
  }

  /**
   A current cursor: the batch stands whole behind the old bytes, and the call says so; or a part of it
   does and the write reported an error, and the call cuts it off again, or hands the old cursor back if
   it cannot; or the call reports that the file is not what it expected.
   */
  lemma AnswerOfAWrite(c: Codec, session: string, d: Disk, cursor: Cursor, messages: seq<Message>, fault: Fault)
    requires MayWrite(session, d, cursor, messages) && !fault.crashes
    ensures var s, bytes := Contents(d), Batch(c, d, messages);
            var n := Landed(bytes, fault);
            var (d', r) := AppendCall(c, session, d, cursor, messages, fault);
            if n == |bytes| then
              && Contents(d') == s + bytes
              && r == Appended(|messages|, cursor.count + |messages|,
                               Cursor(session, cursor.count + |messages|, IdentityOf(d')))
            else if fault.throws && 0 < n then
              if fault.repairs
              then Contents(d') == s && r == WriteError(Cursor(session, cursor.count, IdentityOf(d')))
              else Contents(d') == s + bytes[..n] && r == WriteError(cursor)
            else Contents(d') == s + bytes[..n] && r == ConsistencyError
  {
    var bytes, current := Batch(c, d, messages), IdentityOf(d);
    var after, n := AfterWrite(d, bytes, fault), Landed(bytes, fault);
    BatchIsNotEmpty(c, d, messages);
    WhatLands(d, bytes, fault);
    SuffixMatches(after, current, Contents(d), bytes, n, false);
    SuffixMatches(after, current, Contents(d), bytes, n, true);
    assert bytes[..|bytes|] == bytes;
    assert (Contents(d) + bytes[..n])[..|Contents(d)|] == Contents(d);
  }

  /** If the process dies, what landed stays. */
  lemma CrashKeepsWhatLanded(c: Codec, session: string, d: Disk, cursor: Cursor, messages: seq<Message>, fault: Fault)
    requires MayWrite(session, d, cursor, messages) && fault.crashes
    ensures var bytes := Batch(c, d, messages);
            var (d', r) := AppendCall(c, session, d, cursor, messages, fault);
            r == Crashed && Contents(d') == Contents(d) + bytes[..Landed(bytes, fault)]
  {
    WhatLands(d, Batch(c, d, messages), fault);
  }

  /** A cursor for other bytes writes nothing. It succeeds exactly when what stands behind the bytes it was
      issued for is the batch. */
  lemma AnswerWithoutAWrite(c: Codec, session: string, d: Disk, cursor: Cursor, messages: seq<Message>, fault: Fault)
    requires messages != [] && cursor.sessionId == session && cursor.file != IdentityOf(d)
    ensures var bytes, size := Batch(c, d, messages), SizeOf(cursor.file);
            var (d', r) := AppendCall(c, session, d, cursor, messages, fault);
            && d' == d
            && r == if size <= |Contents(d)| && Contents(d)[size..] == bytes
                    then Appended(|messages|, cursor.count + |messages|,
                                  Cursor(session, cursor.count + |messages|, IdentityOf(d)))
                    else StaleCursor
  {
    var bytes := Batch(c, d, messages);
    BatchIsNotEmpty(c, d, messages);
    assert bytes[..|bytes|] == bytes;
  }

  /** The cases in which nothing is even looked at. */
  lemma AnswerAtOnce(c: Codec, session: string, d: Disk, cursor: Cursor, messages: seq<Message>, fault: Fault)
    ensures var (d', r) := AppendCall(c, session, d, cursor, messages, fault);
            && (messages == [] ==> d' == d && r == Appended(0, cursor.count, cursor))
            && (messages != [] && cursor.sessionId != session ==> d' == d && r == StaleCursor)
            && (messages != [] && cursor.sessionId == session && cursor.file.Absent? && d.file.None? && !d.indexed ==>
                  d' == d && r == CreateRefused)
  {
  }

  /** Reading goes line by line: a blank line and one that does not parse are passed over. */
  lemma ReadLineByLine(c: Codec, line: Bytes, rest: Bytes)
    requires NL !in line
    ensures Rows(c, line + [NL] + rest) ==
            (if Blank(line) || c.decode(line).None? then [] else [c.decode(line).value]) + Rows(c, rest)
    ensures Rows(c, line) == if Blank(line) || c.decode(line).None? then [] else [c.decode(line).value]
  {
    RowsOfLine(c, line, rest);
    assert line[..|line|] == line;
  }

  // ---------------------------------------------------------------- along a run

  /** Every cursor that was issued names this session. */
  lemma {:induction false} IssuedForTheSession(c: Codec, session: string, worlds: seq<World>, events: seq<Event>,
                                               n: nat, k: nat)
    requires IsRun(c, session, worlds, events) && n < |worlds| && k < |worlds[n].issued|
    ensures worlds[n].issued[k].sessionId == session
  {
    assert Follows(c, session, worlds[n - 1], events[n - 1], worlds[n - 1 + 1]);
    var e := events[n - 1];
    if k < |worlds[n - 1].issued| {
      IssuedForTheSession(c, session, worlds, events, n - 1, k);
    } else if e.Append? {
      IssuedForTheSession(c, session, worlds, events, n - 1, e.k);
    }
  }

  /** A load right before an append that meets no fault: the batch is there, once, behind what was loaded. */
  lemma LoadThenAppend(c: Codec, session: string, worlds: seq<World>, events: seq<Event>, n: nat)
    requires ValidCodec(c) && IsRun(c, session, worlds, events) && n + 1 < |events|
    requires events[n].Load? && events[n + 1].Append? && events[n + 1].k == |worlds[n].issued|
    requires events[n + 1].messages != [] && (worlds[n].disk.file.Some? || worlds[n].disk.indexed)
    requires var f := events[n + 1].fault;
             f.opens && !f.crashes && f.lands >= |Batch(c, worlds[n].disk, events[n + 1].messages)|
    ensures Rows(c, Contents(worlds[n + 2].disk)) == Rows(c, Contents(worlds[n].disk)) + events[n + 1].messages
    ensures |worlds[n + 2].issued| == |worlds[n].issued| + 2
    ensures worlds[n + 2].issued[|worlds[n].issued| + 1].file == IdentityOf(worlds[n + 2].disk)
  {
    assert Follows(c, session, worlds[n], events[n], worlds[n + 1]);
    assert Follows(c, session, worlds[n + 1], events[n + 1], worlds[n + 1 + 1]);
    var d, messages, fault := worlds[n].disk, events[n + 1].messages, events[n + 1].fault;
    var cursor := worlds[n + 1].issued[|worlds[n].issued|];
    AnswerOfAWrite(c, session, d, cursor, messages, fault);
    RowsAfterAppend(c, Contents(d), messages, Contents(worlds[n + 2].disk));
  }
}
