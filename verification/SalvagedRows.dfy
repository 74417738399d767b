/**
 Which rows a salvage returns: the session rows among those found, for each id the last one in the place
 of the first, and a byte order mark in front makes no difference.
 */
module SalvagedRows {
  import opened Common
  import opened IndexSalvage

  // ---------------------------------------------------------------- session rows

  /** Some field of that name is a string, and no later one of that name is there. */
  ghost predicate ShowsString(v: Json, key: string) {
    v.Obj? && exists i :: 0 <= i < |v.fields| && v.fields[i].key == key && v.fields[i].value.Str?
                          && forall j :: i < j < |v.fields| ==> v.fields[j].key != key
  }

  /** Of repeated keys the last counts. */
  lemma {:induction false} LookupIsLast(fields: seq<Field>, n: nat, i: nat)
    requires i < n <= |fields| && forall j :: i < j < n ==> fields[j].key != fields[i].key
    ensures Lookup(fields, n, fields[i].key) == Some(fields[i].value)
    decreases n
  {
    if i < n - 1 {
      LookupIsLast(fields, n - 1, i);
    }
  }

  lemma {:induction false} LastOfKey(fields: seq<Field>, n: nat, key: string) returns (i: nat)
    requires n <= |fields| && Lookup(fields, n, key).Some?
    ensures i < n && fields[i].key == key && Lookup(fields, n, key) == Some(fields[i].value)
    ensures forall j :: i < j < n ==> fields[j].key != key
  {
    if fields[n - 1].key == key {
      i := n - 1;
    } else {
      i := LastOfKey(fields, n - 1, key);
    }
  }

  lemma HasStringIff(v: Json, key: string)
    ensures HasString(v, key) <==> ShowsString(v, key)
  {
    if HasString(v, key) {
      var i := LastOfKey(v.fields, |v.fields|, key);
    }
    if ShowsString(v, key) {
      var i :| 0 <= i < |v.fields| && v.fields[i].key == key && v.fields[i].value.Str?
               && forall j :: i < j < |v.fields| ==> v.fields[j].key != key;
      LookupIsLast(v.fields, |v.fields|, i);
    }
  }

  /** The id of a row is the string it shows under that name. */
  lemma IdIsTheShownString(v: Json, i: nat)
    requires v.Obj? && i < |v.fields| && v.fields[i].key == "id" && v.fields[i].value.Str?
    requires forall j :: i < j < |v.fields| ==> v.fields[j].key != "id"
    ensures IdOf(v) == v.fields[i].value.text
  {
    LookupIsLast(v.fields, |v.fields|, i);
  }

  /** A row is kept exactly when it shows these five strings. */
  lemma SessionRowIff(v: Json)
    ensures IsMetadata(v) <==>
            && ShowsString(v, "id") && ShowsString(v, "workspacePath") && ShowsString(v, "title")
            && ShowsString(v, "createdAt") && ShowsString(v, "lastActiveAt")
  {
    HasStringIff(v, "id");
    HasStringIff(v, "workspacePath");
    HasStringIff(v, "title");
    HasStringIff(v, "createdAt");
    HasStringIff(v, "lastActiveAt");
  }

  /** Filtering goes row by row, in order. */
  lemma {:induction false} OnlyMetadataSplits(items: seq<Json>, n: nat, row: Json)
    requires n <= |items|
    ensures row in OnlyMetadata(items, n) <==> row in items[..n] && IsMetadata(row)
    ensures n < |items| ==>
              OnlyMetadata(items, n + 1) == OnlyMetadata(items, n) + if IsMetadata(items[n]) then [items[n]] else []
  {
    if n > 0 {
      OnlyMetadataSplits(items, n - 1, row);
      TakeSnoc(items, n);
    }
  }

  // ---------------------------------------------------------------- one row per id

  function IdsOf(rows: seq<Json>): seq<string> {
    seq(|rows|, i requires 0 <= i < |rows| => IdOf(rows[i]))
  }

  /** The ids in the order in which they first occur. */
  function FirstOccurrences(ids: seq<string>): seq<string> {
    if ids == [] then []
    else
      var before, last := FirstOccurrences(ids[..|ids| - 1]), ids[|ids| - 1];
      if last in before then before else before + [last]
  }

  /** A row put under an id already present takes that row's place, another one goes to the end. */
  lemma {:induction false} IdsOfPut(rows: seq<Json>, row: Json)
    ensures IdsOf(Put(rows, row)) == if IdOf(row) in IdsOf(rows) then IdsOf(rows) else IdsOf(rows) + [IdOf(row)]
  {
    if rows != [] {
      var first, rest := rows[0], rows[1..];
      assert rows == [first] + rest;
      IdsOfCons(first, rest);
      if IdOf(first) == IdOf(row) {
        IdsOfCons(row, rest);
      } else {
        IdsOfPut(rest, row);
        IdsOfCons(first, Put(rest, row));
        AppendAssociates([IdOf(first)], IdsOf(rest), [IdOf(row)]);
      }
    }
  }

  lemma IdsOfCons(first: Json, rest: seq<Json>)
    ensures IdsOf([first] + rest) == [IdOf(first)] + IdsOf(rest)
  {
  }

  /** The salvaged ids are the found ones, each in the place where it first occurs. */
  lemma {:induction false} IdsKeepTheirPlaces(rows: seq<Json>)
    ensures IdsOf(ById(rows)) == FirstOccurrences(IdsOf(rows))
  {
    if rows != [] {
      var init, last := rows[..|rows| - 1], rows[|rows| - 1];
      IdsKeepTheirPlaces(init);
      IdsOfPut(ById(init), last);
      assert IdsOf(rows)[..|rows| - 1] == IdsOf(init);
    }
  }

  lemma {:induction false} PutHolds(rows: seq<Json>, row: Json, r: Json)
    requires DistinctIds(rows)
    ensures r in Put(rows, row) <==> r == row || (r in rows && IdOf(r) != IdOf(row))
  {
    if rows != [] {
      var rest := rows[1..];
      assert rows == [rows[0]] + rest;
      if IdOf(rows[0]) == IdOf(row) {
        assert forall q :: q in rest ==> IdOf(q) != IdOf(row);
      } else {
        PutHolds(rest, row, r);
      }
    }
  }

  ghost predicate IsLastOfItsId(rows: seq<Json>, i: nat) {
    i < |rows| && forall j :: i < j < |rows| ==> IdOf(rows[j]) != IdOf(rows[i])
  }

  /** What is salvaged for an id is the last row found with it. */
  lemma {:induction false} LastOfAnIdIsKept(rows: seq<Json>, r: Json)
    ensures r in ById(rows) <==> IsLastWithItsId(rows, r)
  {
    if rows != [] {
      var init, last := rows[..|rows| - 1], rows[|rows| - 1];
      LastOfAnIdIsKept(init, r);
      ByIdIsDistinct(init);
      PutHolds(ById(init), last, r);
      LastAfterOneMore(init, last, r);
      assert rows == init + [last];
    }
  }

  ghost predicate IsLastWithItsId(rows: seq<Json>, r: Json) {
    exists i: nat :: IsLastOfItsId(rows, i) && rows[i] == r
  }

  lemma LastAfterOneMore(rows: seq<Json>, last: Json, r: Json)
    ensures IsLastWithItsId(rows + [last], r) <==> r == last || (IsLastWithItsId(rows, r) && IdOf(r) != IdOf(last))
  {
    var more := rows + [last];
    if i: nat :| IsLastOfItsId(more, i) && more[i] == r {
      if i < |rows| {
        assert more[|rows|] == last;
        assert forall j :: 0 <= j < |rows| ==> more[j] == rows[j];
        assert IsLastOfItsId(rows, i);
      }
    }
    assert IsLastOfItsId(more, |rows|) && more[|rows|] == last;
    if i: nat :| IsLastOfItsId(rows, i) && rows[i] == r && IdOf(r) != IdOf(last) {
      assert IsLastOfItsId(more, i) && more[i] == r;
    }
  }

  // ---------------------------------------------------------------- whole indexes

  const BOM := ['\U{FEFF}']

  /** An index that can be read is returned without what is no session row, byte order mark or not. */
  lemma WholeIndexIsRead(parse: Parser, rows: seq<Json>)
    requires ReadsBack(parse, rows)
    ensures Salvage(parse, IndexText(rows)) == OnlyMetadata(rows, |rows|)
    ensures Salvage(parse, BOM + IndexText(rows)) == OnlyMetadata(rows, |rows|)
  {
    IndexBeginsWithBracket(rows);
    StripsTheMark(IndexText(rows));
    WholeIsRead(parse, IndexText(rows), rows);
    WholeIsRead(parse, BOM + IndexText(rows), rows);
  }

  lemma IndexBeginsWithBracket(rows: seq<Json>)
    ensures IndexText(rows) != [] && IndexText(rows)[0] == '['
  {
  }

  lemma StripsTheMark(text: string)
    requires text != [] && text[0] == '['
    ensures StripBom(text) == text && StripBom(BOM + text) == text
  {
  }

  lemma WholeIsRead(parse: Parser, content: string, rows: seq<Json>)
    requires parse(StripBom(content)) == Some(Arr(rows))
    ensures Salvage(parse, content) == OnlyMetadata(rows, |rows|)
  {
  }
}
