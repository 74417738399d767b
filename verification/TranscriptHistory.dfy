/**
 The transcript over a history in which the session is also deleted and created again: when a success is
 still exact, and how long a used cursor stays used.
 */
module TranscriptHistory {
  import opened Common
  import opened Transcript

  // ---------------------------------------------------------------- histories

  /** Everything that may happen to one transcript, its deletion included. */
  datatype Event = Ordinary(event: Transcript.Event) | Delete

  predicate CanHappen(w: World, e: Event) {
    e.Ordinary? && e.event.Append? ==> e.event.k < |w.issued|
  }

  function After(c: Codec, session: string, w: World, e: Event): World
    requires CanHappen(w, e)
  {
    match e
    case Ordinary(event) => Next(c, session, w, event)
    case Delete => w.(disk := w.disk.(file := None, indexed := false))
  }

  ghost predicate Leads(c: Codec, session: string, w: World, e: Event, w': World) {
    CanHappen(w, e) && w' == After(c, session, w, e)
  }

  ghost predicate IsHistory(c: Codec, session: string, worlds: seq<World>, events: seq<Event>) {
    && |worlds| == |events| + 1
    && DiskOk(worlds[0].disk) && worlds[0].issued == []
    && forall i :: 0 <= i < |events| ==> Leads(c, session, worlds[i], events[i], worlds[i + 1])
  }

  /** The cursor was issued for bytes the file once had. */
  ghost predicate Known(d: Disk, cursor: Cursor) {
    cursor.file.Present? ==>
      && cursor.file.stamp < |d.past| && cursor.file.size == |d.past[cursor.file.stamp]|
  }

  ghost predicate WorldKnown(w: World) {
    DiskOk(w.disk) && forall k :: 0 <= k < |w.issued| ==> Known(w.disk, w.issued[k])
  }

  lemma PutKnows(d: Disk, bytes: Bytes)
    ensures var d' := Put(d, bytes);
            DiskOk(d') && d.past <= d'.past && forall cursor: Cursor :: cursor.file == IdentityOf(d') ==>
              Known(d', cursor)
  {
  }

  lemma AppendKnows(c: Codec, session: string, d: Disk, cursor: Cursor, messages: seq<Message>, fault: Fault)
    requires DiskOk(d) && Known(d, cursor)
    ensures var (d', r) := AppendCall(c, session, d, cursor, messages, fault);
            DiskOk(d') && d.past <= d'.past && (r.Appended? || r.WriteError? ==> Known(d', r.cursor))
  {
    var bytes := Separator(Contents(d)) + EncodeAll(c, messages);
    if cursor.file == IdentityOf(d) && fault.opens {
      var after := AfterWrite(d, bytes, fault);
      PutKnows(d, after.file.value);
      if SizeOf(IdentityOf(d)) <= |after.file.value| {
        PutKnows(after, after.file.value[..SizeOf(IdentityOf(d))]);
      }
    }
  }

  lemma EventKeepsKnown(c: Codec, session: string, w: World, e: Event)
    requires WorldKnown(w) && CanHappen(w, e)
    ensures WorldKnown(After(c, session, w, e)) && w.disk.past <= After(c, session, w, e).disk.past
  {
    if e.Ordinary? && e.event.Append? {
      AppendKnows(c, session, w.disk, w.issued[e.event.k], e.event.messages, e.event.fault);
    }
  }

  lemma {:induction false} HistoryKeepsKnown(c: Codec, session: string, worlds: seq<World>, events: seq<Event>, i: nat)
    requires IsHistory(c, session, worlds, events) && i < |worlds|
    ensures WorldKnown(worlds[i])
  {
    if i > 0 {
      HistoryKeepsKnown(c, session, worlds, events, i - 1);
      assert Leads(c, session, worlds[i - 1], events[i - 1], worlds[i - 1 + 1]);
      EventKeepsKnown(c, session, worlds[i - 1], events[i - 1]);
    }
  }

  // ---------------------------------------------------------------- when a success is exact

  /** The last, unfinished line of some bytes. */
  function LastLine(s: Bytes): (line: Bytes)
    ensures |line| <= |s| && s[|s| - |line|..] == line && NL !in line && !Torn(s[..|s| - |line|])
  {
    if !Torn(s) then []
    else
      var line := LastLine(s[..|s| - 1]) + [s[|s| - 1]];
      assert s == s[..|s| - 1] + [s[|s| - 1]];
      assert s[..|s| - |line|] == s[..|s| - 1][..|s| - |line|];
      line
  }

  /**
   The bytes in front of a batch, joined with the first line of the batch if they end in the middle of
   one, read as the rows of `seen` followed by the first message of the batch.
   */
  ghost predicate ReadsAs(c: Codec, front: Bytes, seen: Bytes, first: Message) {
    if !Torn(front) then Rows(c, front) == Rows(c, seen)
    else
      var line := LastLine(front);
      Rows(c, front[..|front| - |line|]) + Row(c, line + c.encode(first)) == Rows(c, seen) + [first]
  }

  lemma RowsOfOneLine(c: Codec, line: Bytes)
    requires NL !in line
    ensures Rows(c, line) == Row(c, line)
  {
    assert LineEnd(line) == |line|;
  }

  /** The rows of `front` and `messages` when the first message is written on from the unfinished line. */
  function JoinedRows(c: Codec, front: Bytes, messages: seq<Message>): seq<Message>
    requires messages != []
  {
    var line := LastLine(front);
    Rows(c, front[..|front| - |line|]) + Row(c, line + c.encode(messages[0])) + messages[1..]
  }

  lemma JoinedBytes(lines: Bytes, line: Bytes, first: Bytes, rest: Bytes)
    ensures (lines + line) + (first + [NL] + rest) == lines + ((line + first) + [NL] + rest)
  {
    AppendAssociates(lines, line, first + [NL] + rest);
    AppendAssociates(line, first + [NL], rest);
    AppendAssociates(line, first, [NL]);
  }

  /** What a batch adds behind an unfinished line. */
  lemma RowsAfterTornLine(c: Codec, front: Bytes, messages: seq<Message>)
    requires ValidCodec(c) && messages != [] && Torn(front)
    ensures Rows(c, front + EncodeAll(c, messages)) == JoinedRows(c, front, messages)
  {
    var line := LastLine(front);
    var lines, first, rest := front[..|front| - |line|], c.encode(messages[0]), EncodeAll(c, messages[1..]);
    assert front == lines + line;
    JoinedBytes(lines, line, first, rest);
    RowsAfterCompleteLine(c, lines, (line + first) + [NL] + rest);
    JoinedLine(c, line, first, messages[1..]);
    AppendAssociates(Rows(c, lines), Row(c, line + first), messages[1..]);
  }

  lemma JoinedLine(c: Codec, line: Bytes, first: Bytes, messages: seq<Message>)
    requires ValidCodec(c) && NL !in line && NL !in first
    ensures Rows(c, (line + first) + [NL] + EncodeAll(c, messages)) == Row(c, line + first) + messages
  {
    RowsSplitAtNewline(c, line + first, EncodeAll(c, messages));
    RowsOfOneLine(c, line + first);
    RowsOfBatch(c, messages);
  }

  lemma SameFrontIff(a: seq<Message>, b: seq<Message>, tail: seq<Message>)
    ensures a + tail == b + tail <==> a == b
  {
    if a + tail == b + tail {
      assert |a| == |b|;
      assert a == (a + tail)[..|a|] && b == (b + tail)[..|b|];
    }
  }

  lemma BatchReadsIff(c: Codec, front: Bytes, seen: Bytes, messages: seq<Message>)
    requires ValidCodec(c) && messages != []
    ensures Rows(c, front + EncodeAll(c, messages)) == Rows(c, seen) + messages <==>
            ReadsAs(c, front, seen, messages[0])
  {
    if !Torn(front) {
      RowsAfterCompleteLine(c, front, EncodeAll(c, messages));
      RowsOfBatch(c, messages);
      SameFrontIff(Rows(c, front), Rows(c, seen), messages);
    } else {
      RowsAfterTornLine(c, front, messages);
      var line := LastLine(front);
      var read := Rows(c, front[..|front| - |line|]) + Row(c, line + c.encode(messages[0]));
      assert JoinedRows(c, front, messages) == read + messages[1..];
      assert messages == [messages[0]] + messages[1..];
      AppendAssociates(Rows(c, seen), [messages[0]], messages[1..]);
      SameFrontIff(read, Rows(c, seen) + [messages[0]], messages[1..]);
    }
  }

  /** A recognised batch stands behind as many bytes as the cursor had seen. */
  lemma RecognisedBatch(c: Codec, d: Disk, cursor: Cursor, messages: seq<Message>)
    requires ValidCodec(c) && messages != []
    requires AppendedSuffixMatches(d, cursor.file, Separator(Contents(d)) + EncodeAll(c, messages), false)
    ensures Contents(d) == Contents(d)[..SizeOf(cursor.file)] + EncodeAll(c, messages)
  {
    var s, batch := Contents(d), EncodeAll(c, messages);
    var bytes := Separator(s) + batch;
    RowsOfBatch(c, messages);
    assert bytes[..|bytes|] == bytes;
    SuffixIsWholeBatch(s, SizeOf(cursor.file), batch);
  }

  lemma SuffixIsWholeBatch(s: Bytes, n: nat, batch: Bytes)
    requires n <= |s| && batch != [] && !Torn(batch) && s[n..] == Separator(s) + batch
    ensures s == s[..n] + batch
  {
    assert s[|s| - 1] == s[n..][|s[n..]| - 1] == batch[|batch| - 1];
    assert [] + batch == batch;
  }

  /** A success is exact if and only if the cursor was current, or the bytes now standing where the cursor
      had seen others read the same. */
  lemma SuccessIsExactIff(c: Codec, session: string, d: Disk, cursor: Cursor, messages: seq<Message>, fault: Fault)
    requires ValidCodec(c) && DiskOk(d) && Known(d, cursor) && messages != []
    requires AppendCall(c, session, d, cursor, messages, fault).1.Appended?
    ensures SizeOf(cursor.file) <= |Contents(d)|
    ensures var after := AppendCall(c, session, d, cursor, messages, fault).0;
            Rows(c, Contents(after)) == Rows(c, Seen(d, cursor)) + messages <==>
            cursor.file == IdentityOf(d) || ReadsAs(c, Contents(d)[..SizeOf(cursor.file)], Seen(d, cursor), messages[0])
  {
    if cursor.file == IdentityOf(d) {
      CurrentSuccess(c, session, d, cursor, messages, fault);
    } else {
      RecognisedBatch(c, d, cursor, messages);
      BatchReadsIff(c, Contents(d)[..SizeOf(cursor.file)], Seen(d, cursor), messages);
    }
  }

  lemma CurrentSuccess(c: Codec, session: string, d: Disk, cursor: Cursor, messages: seq<Message>, fault: Fault)
    requires ValidCodec(c) && DiskOk(d) && Known(d, cursor) && messages != [] && cursor.file == IdentityOf(d)
    requires AppendCall(c, session, d, cursor, messages, fault).1.Appended?
    ensures SizeOf(cursor.file) == |Contents(d)|
    ensures Rows(c, Contents(AppendCall(c, session, d, cursor, messages, fault).0))
         == Rows(c, Seen(d, cursor)) + messages
  {
    var counted := cursor.(count := |Rows(c, Contents(d))|);
    IssuedNow(c, session, d);
    assert Seen(d, counted) == Contents(d) == Seen(d, cursor);
    FreshWrite(c, session, d, counted, messages, fault);
    assert AppendCall(c, session, d, counted, messages, fault).0
        == AppendCall(c, session, d, cursor, messages, fault).0;
  }

  /** The same in every history, with any number of deletions. */
  lemma EverySuccessIsExactIff(c: Codec, session: string, worlds: seq<World>, events: seq<Event>, i: nat,
                               k: nat, messages: seq<Message>, fault: Fault)
    requires ValidCodec(c) && IsHistory(c, session, worlds, events) && i < |events| && messages != []
    requires events[i] == Ordinary(Append(k, messages, fault)) && k < |worlds[i].issued|
    requires AppendCall(c, session, worlds[i].disk, worlds[i].issued[k], messages, fault).1.Appended?
    ensures var d, cursor := worlds[i].disk, worlds[i].issued[k];
            && SizeOf(cursor.file) <= |Contents(d)|
            && (Rows(c, Contents(worlds[i + 1].disk)) == Rows(c, Seen(d, cursor)) + messages <==>
                cursor.file == IdentityOf(d)
                || ReadsAs(c, Contents(d)[..SizeOf(cursor.file)], Seen(d, cursor), messages[0]))
  {
    HistoryKeepsKnown(c, session, worlds, events, i);
    assert Leads(c, session, worlds[i], events[i], worlds[i + 1]);
    SuccessIsExactIff(c, session, worlds[i].disk, worlds[i].issued[k], messages, fault);
  }

  // ---------------------------------------------------------------- cursors since the last deletion

  /** The cursor with the count its bytes really have. */
  function Recounted(c: Codec, d: Disk, cursor: Cursor): Cursor {
    cursor.(count := |Rows(c, Seen(d, cursor))|)
  }

  /** The file still starts with what the cursor was issued for. */
  ghost predicate Good(c: Codec, d: Disk, cursor: Cursor) {
    CursorOk(c, d, Recounted(c, d, cursor))
  }

  /** What a call does to the file, and whether it succeeds, does not depend on the cursor's count. */
  lemma CountDoesNotMatter(c: Codec, session: string, d: Disk, cursor: Cursor, count: nat, messages: seq<Message>,
                           fault: Fault)
    ensures var (d1, r1) := AppendCall(c, session, d, cursor, messages, fault);
            var (d2, r2) := AppendCall(c, session, d, cursor.(count := count), messages, fault);
            && d1 == d2 && (r1.Appended? <==> r2.Appended?) && (r1.WriteError? <==> r2.WriteError?)
            && (r1.Appended? || r1.WriteError? ==> r1.cursor.file == r2.cursor.file)
  {
  }

  lemma CurrentIsGood(c: Codec, d: Disk, cursor: Cursor)
    requires DiskOk(d) && cursor.file == IdentityOf(d)
    ensures Good(c, d, cursor) && Seen(d, cursor) == Contents(d)
  {
    IssuedNow(c, cursor.sessionId, d);
  }

  lemma GoodSurvives(c: Codec, d: Disk, d': Disk, cursor: Cursor)
    requires Good(c, d, cursor) && Grew(d, d')
    ensures Good(c, d', cursor) && Seen(d', cursor) == Seen(d, cursor)
  {
    CursorSurvives(c, d, d', Recounted(c, d, cursor));
  }

  /** Whatever cursor it comes with, a call only ever makes the file grow. */
  lemma EveryCallGrows(c: Codec, session: string, d: Disk, cursor: Cursor, messages: seq<Message>, fault: Fault)
    requires ValidCodec(c) && DiskOk(d)
    ensures Grew(d, AppendCall(c, session, d, cursor, messages, fault).0)
  {
    if cursor.file == IdentityOf(d) {
      CurrentIsGood(c, d, cursor);
      AppendCallIsExact(c, session, d, Recounted(c, d, cursor), messages, fault);
      CountDoesNotMatter(c, session, d, cursor, Recounted(c, d, cursor).count, messages, fault);
    }
  }

  lemma OrdinaryEventsGrow(c: Codec, session: string, w: World, e: Event)
    requires ValidCodec(c) && WorldKnown(w) && CanHappen(w, e) && !e.Delete?
    ensures Grew(w.disk, After(c, session, w, e).disk)
  {
    if e.event.Append? {
      EveryCallGrows(c, session, w.disk, w.issued[e.event.k], e.event.messages, e.event.fault);
    }
  }

  /** A load, or an append of something, issues a cursor for the file as it then is. */
  predicate Issuing(e: Event) {
    e.Ordinary? && (e.event.Load? || (e.event.Append? && e.event.messages != []))
  }

  lemma AppendIssuesGood(c: Codec, session: string, d: Disk, cursor: Cursor, messages: seq<Message>, fault: Fault)
    requires ValidCodec(c) && DiskOk(d) && messages != []
    ensures var (d', r) := AppendCall(c, session, d, cursor, messages, fault);
            r.Appended? || r.WriteError? ==> Good(c, d', r.cursor)
  {
    var (d', r) := AppendCall(c, session, d, cursor, messages, fault);
    EveryCallGrows(c, session, d, cursor, messages, fault);
    if r.Appended? || r.WriteError? {
      if r.cursor.file == IdentityOf(d') {
        CurrentIsGood(c, d', r.cursor);
      } else {
        CurrentIsGood(c, d, cursor);
        GoodSurvives(c, d, d', cursor);
      }
    }
  }

  lemma IssuedIsGood(c: Codec, session: string, w: World, e: Event)
    requires ValidCodec(c) && WorldKnown(w) && CanHappen(w, e) && Issuing(e)
    ensures var w' := After(c, session, w, e);
            |w'.issued| > |w.issued| ==> Good(c, w'.disk, w'.issued[|w.issued|])
  {
    var w' := After(c, session, w, e);
    if e.event.Load? {
      CurrentIsGood(c, w'.disk, w'.issued[|w.issued|]);
    } else {
      AppendIssuesGood(c, session, w.disk, w.issued[e.event.k], e.event.messages, e.event.fault);
    }
  }

  lemma {:induction false} IssuedGrows(c: Codec, session: string, worlds: seq<World>, events: seq<Event>,
                                       a: nat, i: nat)
    requires IsHistory(c, session, worlds, events) && a <= i < |worlds|
    ensures worlds[a].issued <= worlds[i].issued
  {
    if a < i {
      IssuedGrows(c, session, worlds, events, a, i - 1);
      assert Leads(c, session, worlds[i - 1], events[i - 1], worlds[i - 1 + 1]);
    }
  }

  lemma GoodAfterEvent(c: Codec, session: string, worlds: seq<World>, events: seq<Event>, i: nat, n: nat)
    requires ValidCodec(c) && IsHistory(c, session, worlds, events) && i < |events| && !events[i].Delete?
    requires n < |worlds[i].issued| && Good(c, worlds[i].disk, worlds[i].issued[n])
    ensures n < |worlds[i + 1].issued| && Good(c, worlds[i + 1].disk, worlds[i + 1].issued[n])
  {
    HistoryKeepsKnown(c, session, worlds, events, i);
    IssuedGrows(c, session, worlds, events, i, i + 1);
    assert Leads(c, session, worlds[i], events[i], worlds[i + 1]);
    OrdinaryEventsGrow(c, session, worlds[i], events[i]);
    GoodSurvives(c, worlds[i].disk, worlds[i + 1].disk, worlds[i].issued[n]);
  }

  lemma GoodWhenIssued(c: Codec, session: string, worlds: seq<World>, events: seq<Event>, a: nat)
    requires ValidCodec(c) && IsHistory(c, session, worlds, events) && a < |events|
    requires Issuing(events[a]) && |worlds[a + 1].issued| > |worlds[a].issued|
    ensures Good(c, worlds[a + 1].disk, worlds[a + 1].issued[|worlds[a].issued|])
  {
    HistoryKeepsKnown(c, session, worlds, events, a);
    assert Leads(c, session, worlds[a], events[a], worlds[a + 1]);
    IssuedIsGood(c, session, worlds[a], events[a]);
  }

  /** A cursor issued by event `a` stays good until the next deletion. */
  lemma StaysGood(c: Codec, session: string, worlds: seq<World>, events: seq<Event>, a: nat, i: nat)
    requires ValidCodec(c) && IsHistory(c, session, worlds, events) && a < i < |worlds|
    requires Issuing(events[a]) && |worlds[a + 1].issued| > |worlds[a].issued|
    requires forall k :: a < k < i ==> !events[k].Delete?
    ensures |worlds[i].issued| > |worlds[a].issued| && Good(c, worlds[i].disk, worlds[i].issued[|worlds[a].issued|])
  {
    var n := |worlds[a].issued|;
    GoodWhenIssued(c, session, worlds, events, a);
    for k := a + 1 to i
      invariant n < |worlds[k].issued| && Good(c, worlds[k].disk, worlds[k].issued[n])
    {
      GoodAfterEvent(c, session, worlds, events, k, n);
    }
  }

  /**
   A cursor that came from a load, or from an append of something, gets only exact successes as long as the
   transcript has not been deleted since, whatever happened before and whoever else appends.
   */
  lemma CursorSinceDeletionIsExact(c: Codec, session: string, worlds: seq<World>, events: seq<Event>, a: nat, i: nat,
                                   messages: seq<Message>, fault: Fault)
    requires ValidCodec(c) && IsHistory(c, session, worlds, events) && a < i < |worlds|
    requires Issuing(events[a]) && |worlds[a + 1].issued| > |worlds[a].issued| && messages != []
    requires forall k :: a < k < i ==> !events[k].Delete?
    ensures |worlds[i].issued| > |worlds[a].issued|
    ensures var d, cursor := worlds[i].disk, worlds[i].issued[|worlds[a].issued|];
            var (d', r) := AppendCall(c, session, d, cursor, messages, fault);
            r.Appended? ==> Rows(c, Contents(d')) == Rows(c, Seen(d, cursor)) + messages
  {
    StaysGood(c, session, worlds, events, a, i);
    HistoryKeepsKnown(c, session, worlds, events, i);
    var d, cursor := worlds[i].disk, worlds[i].issued[|worlds[a].issued|];
    AppendCallIsExact(c, session, d, Recounted(c, d, cursor), messages, fault);
    CountDoesNotMatter(c, session, d, cursor, Recounted(c, d, cursor).count, messages, fault);
  }

  // ---------------------------------------------------------------- a success that is not exact

  ghost predicate Reachable(c: Codec, session: string, w: World) {
    exists worlds, events :: IsHistory(c, session, worlds, events) && worlds[|worlds| - 1] == w
  }

  lemma ReachableOn(c: Codec, session: string, w: World, e: Event, w': World)
    requires Reachable(c, session, w) && Leads(c, session, w, e, w')
    ensures Reachable(c, session, w')
  {
    var worlds, events :| IsHistory(c, session, worlds, events) && worlds[|worlds| - 1] == w;
    var worlds', events' := worlds + [w'], events + [e];
    forall i | 0 <= i < |events'|
      ensures Leads(c, session, worlds'[i], events'[i], worlds'[i + 1])
    {
      if i < |events| {
        assert Leads(c, session, worlds[i], events[i], worlds[i + 1]);
      }
    }
    assert IsHistory(c, session, worlds', events');
  }

  function Line(c: Codec, m: Message): Bytes {
    c.encode(m) + [NL]
  }

  lemma OneMessage(c: Codec, m: Message)
    requires ValidCodec(c)
    ensures EncodeAll(c, [m]) == Line(c, m) && !Torn(Line(c, m)) && Line(c, m) != []
    ensures Rows(c, Line(c, m)) == [m]
  {
    assert [m][1..] == [] && Line(c, m) + [] == Line(c, m);
    RowsOfBatch(c, [m]);
  }

  /** A write that lands whole. */
  function Fine(n: nat): Fault {
    Fault(true, n, false, true, false)
  }

  lemma WholeWrite(d: Disk, s: Bytes, line: Bytes)
    requires s == Contents(d) && line != []
    ensures AfterWrite(d, line, Fine(|line|)) == Put(d, s + line)
    ensures AppendedSuffixMatches(Put(d, s + line), IdentityOf(d), line, false)
  {
    assert line[..|line|] == line;
    assert (s + line)[|s|..] == line;
    assert |s| == SizeOf(IdentityOf(d));
  }

  lemma WholeCall(c: Codec, session: string, d: Disk, cursor: Cursor, messages: seq<Message>, fault: Fault,
                  bytes: Bytes)
    requires messages != [] && cursor.file == IdentityOf(d) && cursor.sessionId == session && d.indexed
    requires !fault.crashes
    requires bytes == Separator(Contents(d)) + EncodeAll(c, messages)
    requires AppendedSuffixMatches(AfterWrite(d, bytes, fault), IdentityOf(d), bytes, false)
    ensures var (d', r) := AppendCall(c, session, d, cursor, messages, fault);
            && d' == AfterWrite(d, bytes, fault) && r.Appended?
            && r.cursor == Cursor(session, cursor.count + |messages|, IdentityOf(d'))
  {
  }

  lemma PlainCall(c: Codec, session: string, d: Disk, cursor: Cursor, m: Message, s: Bytes)
    requires ValidCodec(c) && cursor.file == IdentityOf(d) && cursor.sessionId == session && d.indexed
    requires s == Contents(d) && !Torn(s)
    ensures var (d', r) := AppendCall(c, session, d, cursor, [m], Fine(|Line(c, m)|));
            d' == Put(d, s + Line(c, m)) && r.Appended? && r.cursor == Cursor(session, cursor.count + 1, IdentityOf(d'))
  {
    var line := Line(c, m);
    OneMessage(c, m);
    assert [] + line == line;
    WholeWrite(d, s, line);
    WholeCall(c, session, d, cursor, [m], Fine(|line|), line);
  }

  /** Appending one message, with a current cursor and nothing in the way, to a file that is not torn. */
  lemma PlainAppend(c: Codec, session: string, w: World, k: nat, m: Message, s: Bytes) returns (e: Event, w': World)
    requires ValidCodec(c) && k < |w.issued| && w.issued[k].file == IdentityOf(w.disk)
    requires w.issued[k].sessionId == session && w.disk.indexed && s == Contents(w.disk) && !Torn(s)
    ensures Leads(c, session, w, e, w') && w'.disk == Put(w.disk, s + Line(c, m))
    ensures |w'.issued| == |w.issued| + 1 && w.issued <= w'.issued
    ensures w'.issued[|w.issued|].file == IdentityOf(w'.disk) && w'.issued[|w.issued|].sessionId == session
  {
    PlainCall(c, session, w.disk, w.issued[k], m, s);
    e := Ordinary(Append(k, [m], Fine(|Line(c, m)|)));
    w' := After(c, session, w, e);
  }

  /** Loading a transcript that does not exist yet. */
  lemma LoadNothing(c: Codec, session: string, w: World) returns (w': World)
    requires Reachable(c, session, w) && w.disk.file.None?
    ensures Reachable(c, session, w') && w'.disk == w.disk.(indexed := true)
    ensures |w'.issued| == |w.issued| + 1 && w.issued <= w'.issued
    ensures w'.issued[|w.issued|].file == Absent && w'.issued[|w.issued|].sessionId == session
  {
    var w1 := w.(disk := w.disk.(indexed := true));
    ReachableOn(c, session, w, Ordinary(SetIndexed(true)), w1);
    w' := After(c, session, w1, Ordinary(Load));
    ReachableOn(c, session, w1, Ordinary(Load), w');
  }

  lemma StartIsReachable(c: Codec, session: string)
    ensures Reachable(c, session, World(Disk(None, 0, [], false), []))
  {
    assert IsHistory(c, session, [World(Disk(None, 0, [], false), [])], []);
  }

  /** A first transcript of one message, and a cursor issued for it. */
  lemma FirstLife(c: Codec, session: string, a: Message) returns (w: World)
    requires ValidCodec(c)
    ensures Reachable(c, session, w) && w.disk == Disk(Some(Line(c, a)), 0, [Line(c, a)], true)
    ensures |w.issued| == 2 && w.issued[1].file == IdentityOf(w.disk) && w.issued[1].sessionId == session
  {
    StartIsReachable(c, session);
    var w1 := LoadNothing(c, session, World(Disk(None, 0, [], false), []));
    var e, w2 := PlainAppend(c, session, w1, 0, a, []);
    ReachableOn(c, session, w1, e, w2);
    assert [] + Line(c, a) == Line(c, a) && [] + [Line(c, a)] == [Line(c, a)];
    w := w2;
  }

  /** Deleted, created again with another message of the same length, and continued with a third. */
  lemma SecondLife(c: Codec, session: string, a: Message, x: Message, b: Message) returns (w: World)
    requires ValidCodec(c)
    ensures Reachable(c, session, w) && |w.issued| > 1 && w.issued[1].sessionId == session
    ensures w.disk.file == Some(Line(c, x) + Line(c, b)) && w.disk.stamp == 2 && |w.disk.past| == 3
    ensures w.disk.past[0] == Line(c, a)
    ensures w.issued[1].file == Present(0, |Line(c, a)|, true)
  {
    var w1 := FirstLife(c, session, a);
    OneMessage(c, a);
    OneMessage(c, x);
    var w2 := After(c, session, w1, Delete);
    ReachableOn(c, session, w1, Delete, w2);
    var w3 := LoadNothing(c, session, w2);
    var e3, w4 := PlainAppend(c, session, w3, 2, x, []);
    ReachableOn(c, session, w3, e3, w4);
    assert [] + Line(c, x) == Line(c, x);
    var e4, w5 := PlainAppend(c, session, w4, 3, b, Line(c, x));
    ReachableOn(c, session, w4, e4, w5);
    w := w5;
  }

  /** After a deletion an old cursor can be told that its batch was appended over rows it never saw. */
  lemma StaleSuccessCanBeWrong(c: Codec, session: string, a: Message, x: Message, b: Message, fault: Fault)
    returns (w: World)
    requires ValidCodec(c) && a != x && |c.encode(a)| == |c.encode(x)|
    ensures Reachable(c, session, w) && |w.issued| > 1 && DiskOk(w.disk) && Known(w.disk, w.issued[1])
    ensures Rows(c, Seen(w.disk, w.issued[1])) == [a] && Rows(c, Contents(w.disk)) == [x] + [b]
    ensures AppendCall(c, session, w.disk, w.issued[1], [b], fault).0 == w.disk
    ensures AppendCall(c, session, w.disk, w.issued[1], [b], fault).1.Appended?
  {
    w := SecondLife(c, session, a, x, b);
    var worlds, events :| IsHistory(c, session, worlds, events) && worlds[|worlds| - 1] == w;
    HistoryKeepsKnown(c, session, worlds, events, |worlds| - 1);
    OneMessage(c, a);
    OneMessage(c, x);
    OneMessage(c, b);
    RowsAfterCompleteLine(c, Line(c, x), Line(c, b));
    StaleIsRecognised(c, session, w.disk, w.issued[1], a, x, b, fault);
  }

  lemma StaleIsRecognised(c: Codec, session: string, d: Disk, cursor: Cursor, a: Message, x: Message, b: Message,
                          fault: Fault)
    requires ValidCodec(c) && |Line(c, a)| == |Line(c, x)| && d.file == Some(Line(c, x) + Line(c, b)) && d.stamp == 2
    requires cursor.file == Present(0, |Line(c, a)|, true) && cursor.sessionId == session
    ensures AppendCall(c, session, d, cursor, [b], fault).0 == d
    ensures AppendCall(c, session, d, cursor, [b], fault).1.Appended?
  {
    OneMessage(c, b);
    SuffixStands(d, cursor.file, Line(c, x), Line(c, b));
    assert [] + Line(c, b) == Line(c, b);
  }

  lemma SuffixStands(d: Disk, before: Identity, front: Bytes, line: Bytes)
    requires line != [] && !Torn(line) && d.file == Some(front + line) && SizeOf(before) == |front|
    ensures Separator(Contents(d)) == [] && AppendedSuffixMatches(d, before, line, false)
  {
    assert (front + line)[|front + line| - 1] == line[|line| - 1];
    assert (front + line)[|front|..] == line && line[..|line|] == line;
  }

  // ---------------------------------------------------------------- a used cursor stays used

  /** The file is not the one the cursor was issued for, and never will be again. */
  ghost predicate Spent(d: Disk, cursor: Cursor) {
    match cursor.file
    case Absent => d.file.Some?
    case Present(stamp, _, _) => stamp < |d.past| && (d.file.Some? ==> d.stamp > stamp)
  }

  lemma SpentChangesNothing(c: Codec, session: string, d: Disk, cursor: Cursor, messages: seq<Message>, fault: Fault)
    requires Spent(d, cursor)
    ensures AppendCall(c, session, d, cursor, messages, fault).0 == d
  {
  }

  lemma WritingSpends(c: Codec, session: string, d: Disk, cursor: Cursor, messages: seq<Message>, fault: Fault)
    requires DiskOk(d) && AppendCall(c, session, d, cursor, messages, fault).0 != d
    ensures Spent(AppendCall(c, session, d, cursor, messages, fault).0, cursor)
  {
  }

  lemma EventKeepsSpent(c: Codec, session: string, w: World, e: Event, cursor: Cursor)
    requires CanHappen(w, e) && Spent(w.disk, cursor) && (e.Delete? ==> cursor.file.Present?)
    ensures Spent(After(c, session, w, e).disk, cursor)
  {
  }

  /**
   Once a call has put anything on disk, its cursor is used up for the rest of the history: whatever is
   sent with it again changes nothing. A cursor for no file at all is used up until the next deletion.
   */
  lemma {:induction false} UsedCursorStaysUsed(c: Codec, session: string, worlds: seq<World>, events: seq<Event>,
                                               i: nat, j: nat,
                                               cursor: Cursor, messages: seq<Message>, fault: Fault)
    requires IsHistory(c, session, worlds, events) && i < j < |worlds|
    requires events[i].Ordinary? && events[i].event.Append? && events[i].event.k < |worlds[i].issued|
    requires worlds[i].issued[events[i].event.k] == cursor && worlds[i + 1].disk != worlds[i].disk
    requires cursor.file.Absent? ==> forall k :: i < k < j ==> !events[k].Delete?
    ensures Spent(worlds[j].disk, cursor)
    ensures AppendCall(c, session, worlds[j].disk, cursor, messages, fault).0 == worlds[j].disk
    decreases j
  {
    HistoryKeepsKnown(c, session, worlds, events, i);
    assert Leads(c, session, worlds[j - 1], events[j - 1], worlds[j - 1 + 1]);
    if i + 1 == j {
      WritingSpends(c, session, worlds[i].disk, cursor, events[i].event.messages, events[i].event.fault);
    } else {
      UsedCursorStaysUsed(c, session, worlds, events, i, j - 1, cursor, messages, fault);
      EventKeepsSpent(c, session, worlds[j - 1], events[j - 1], cursor);
    }
    SpentChangesNothing(c, session, worlds[j].disk, cursor, messages, fault);
  }
}
