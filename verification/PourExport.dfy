/** The paged newest-first export (`iter_pours`), read from a table that may
    grow between pages. */
module PourExport {
  import opened Common

  /** A pour's place in the export: the ranks of its end time and of its id. */
  datatype Key = Key(ended: nat, id: nat)

  predicate Less(a: Key, b: Key) {
    a.ended < b.ended || (a.ended == b.ended && a.id < b.id)
  }

  /** Strictly newest first, so also without repetition. */
  predicate NewestFirst(keys: seq<Key>) {
    forall i, j :: 0 <= i < j < |keys| ==> Less(keys[j], keys[i])
  }

  predicate Beyond(key: Key, cursor: Option<Key>) {
    cursor.Some? ==> Less(key, cursor.value)
  }

  /** The rows past the cursor, in the table's order. */
  function Past(table: seq<Key>, cursor: Option<Key>): (past: seq<Key>)
    ensures forall key :: key in past <==> key in table && Beyond(key, cursor)
    decreases |table|
  {
    if table == [] then []
    else
      var rest := Past(table[1..], cursor);
      assert forall key :: key in table <==> key == table[0] || key in table[1..];
      if Beyond(table[0], cursor) then [table[0]] + rest else rest
  }

  lemma {:induction false} PastOrdered(table: seq<Key>, cursor: Option<Key>)
    requires NewestFirst(table)
    ensures NewestFirst(Past(table, cursor))
    decreases |table|
  {
    if table != [] {
      PastOrdered(table[1..], cursor);
      var rest := Past(table[1..], cursor);
      forall key | key in rest ensures Less(key, table[0]) {
        var i :| 0 <= i < |table[1..]| && table[1..][i] == key;
        assert table[i + 1] == key;
      }
    }
  }

  lemma {:induction false} PastShrinks(table: seq<Key>, cursor: Option<Key>, next: Key)
    requires Beyond(next, cursor)
    ensures |Past(table, Some(next))| <= |Past(table, cursor)|
    ensures next in table ==> |Past(table, Some(next))| < |Past(table, cursor)|
    decreases |table|
  {
    if table != [] {
      PastShrinks(table[1..], cursor, next);
    }
  }

  /** Rows are only ever inserted. */
  predicate Grows(tables: seq<seq<Key>>) {
    forall i, j, key :: 0 <= i <= j < |tables| && key in tables[i] ==> key in tables[j]
  }

  /** What the pages read so far amount to. */
  ghost predicate Exported(tables: seq<seq<Key>>, pages: seq<Key>, cursor: Option<Key>)
    requires tables != []
  {
    && NewestFirst(pages)
    && (cursor == if pages == [] then None else Some(pages[|pages| - 1]))
    && (forall key :: key in pages ==> key in tables[|tables| - 1])
    && (forall key :: key in tables[0] && !Beyond(key, cursor) ==> key in pages)
  }

  lemma PagesOrdered(pages: seq<Key>, rows: seq<Key>)
    requires NewestFirst(pages) && NewestFirst(rows)
    requires pages != [] ==> forall key :: key in rows ==> Less(key, pages[|pages| - 1])
    ensures NewestFirst(pages + rows)
  {
    var all := pages + rows;
    forall i, j | 0 <= i < j < |all| ensures Less(all[j], all[i]) {
      if i < |pages| && j >= |pages| {
        assert all[j] in rows;
        assert i < |pages| - 1 ==> Less(pages[|pages| - 1], pages[i]);
      }
    }
  }

  /** Rows of a sorted list at or before its `limit`-th are among its first `limit`. */
  lemma PrefixCovers(past: seq<Key>, limit: nat, key: Key)
    requires NewestFirst(past) && 0 < limit <= |past| && key in past && !Less(key, past[limit - 1])
    ensures key in past[..limit]
  {
    var i :| 0 <= i < |past| && past[i] == key;
    assert i < limit;
    assert key == past[..limit][i];
  }

  lemma PrefixOrdered(past: seq<Key>, limit: nat)
    requires NewestFirst(past) && limit <= |past|
    ensures NewestFirst(past[..limit])
  {
  }

  lemma PageExported(tables: seq<seq<Key>>, pages: seq<Key>, cursor: Option<Key>, now: nat, limit: nat)
    requires tables != [] && now < |tables| && Grows(tables) && NewestFirst(tables[now]) && Exported(tables, pages, cursor)
    requires 0 < limit <= |Past(tables[now], cursor)|
    ensures var rows := Past(tables[now], cursor)[..limit];
            && Beyond(rows[limit - 1], cursor)
            && rows[limit - 1] in tables[|tables| - 1]
            && Exported(tables, pages + rows, Some(rows[limit - 1]))
  {
    hide NewestFirst;
    var past := Past(tables[now], cursor);
    var rows := past[..limit];
    PastOrdered(tables[now], cursor);
    PrefixOrdered(past, limit);
    assert forall key :: key in rows ==> key in past;
    assert rows[limit - 1] in rows;
    PagesOrdered(pages, rows);
    forall key | key in tables[0] && !Beyond(key, Some(rows[limit - 1])) ensures key in pages + rows {
      if Beyond(key, cursor) {
        PrefixCovers(past, limit, key);
      }
    }
  }

  lemma LastPage(tables: seq<seq<Key>>, pages: seq<Key>, cursor: Option<Key>, now: nat)
    requires tables != [] && now < |tables| && Grows(tables) && Exported(tables, pages, cursor)
    requires Past(tables[now], cursor) == []
    ensures forall key :: key in tables[0] ==> key in pages
  {
    forall key | key in tables[0] ensures key in pages {
      assert key !in Past(tables[now], cursor);
    }
  }

  /** A stable, complete export: read `k` sees `tables[k]`, the last of which
      stands for every later read. Whatever is inserted between pages, the
      export is strictly newest first, holds every pour that was there at the
      start, and nothing that was never there. */
  method IterPours(tables: seq<seq<Key>>, pageSize: int) returns (pages: seq<Key>)
    requires tables != [] && Grows(tables)
    requires forall i :: 0 <= i < |tables| ==> NewestFirst(tables[i])
    ensures NewestFirst(pages)
    ensures forall key :: key in tables[0] ==> key in pages
    ensures forall key :: key in pages ==> key in tables[|tables| - 1]
  {
    var bounded := pageSize;
    if bounded > 500 {
      bounded := 500;
    }
    if bounded < 1 {
      bounded := 1;
    }
    var cursor := None;
    var now := 0;
    pages := [];
    while true
      invariant now < |tables|
      invariant Exported(tables, pages, cursor)
      decreases |Past(tables[|tables| - 1], cursor)|
    {
      var past := Past(tables[now], cursor);
      var rows := if |past| <= bounded then past else past[..bounded];
      if rows == [] {
        LastPage(tables, pages, cursor, now);
        return;
      }
      assert rows == past[..|rows|];
      PageExported(tables, pages, cursor, now, |rows|);
      PastShrinks(tables[|tables| - 1], cursor, rows[|rows| - 1]);
      pages := pages + rows;
      cursor := Some(rows[|rows| - 1]);
      now := if now + 1 < |tables| then now + 1 else now;
    }
  }
}
