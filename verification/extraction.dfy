/**
 * The extraction side of the `Ghauri` class: once an injection is confirmed,
 * each extraction is one fetch through the injection, and dumps chain those
 * fetches (tables, then columns of each table, then the records of the
 * columns found), abandoning a chain as soon as one of its fetches fails.
 *
 * The remote side (`target.*` and `target_adv.*`) is the function `server`
 * from a fetch to its response, fixed when the object is built.
 */
module Extraction {
  import opened Wrappers
  import opened Text

  /** What every fetch returns: whether it succeeded, and the values it read. */
  datatype Response = Response(ok: bool, result: seq<string>)

  /** The fetches, with the arguments that vary from one call to the next. */
  datatype Fetch =
    | CurrentDb
    | Dbs(start: int, stop: Option<int>)
    | Tables(db: string, start: int, stop: Option<int>)
    | Columns(db: string, table: string, start: int, stop: Option<int>)
    | Records(db: string, table: string, columns: string, start: int, stop: Option<int>)

  /** The list of databases, or the current database when that list cannot be read. */
  function DbsPlan(start: int, stop: Option<int>, server: Fetch -> Response): seq<Fetch> {
    [Dbs(start, stop)] + (if server(Dbs(start, stop)).ok then [] else [CurrentDb])
  }

  /** Dumping one table: its columns, then, if they were read, its records for those columns joined by `,`. */
  function TablePlan(db: string, table: string, start: int, stop: Option<int>, server: Fetch -> Response): seq<Fetch> {
    var c := Columns(db, table, start, stop);
    [c] + (if server(c).ok then [Records(db, table, Join(server(c).result, ','), start, stop)] else [])
  }

  /** Dumping the given tables one after another, in order. */
  function TablesPlan(db: string, tables: seq<string>, start: int, stop: Option<int>, server: Fetch -> Response): seq<Fetch> {
    if tables == [] then []
    else TablesPlan(db, tables[..|tables| - 1], start, stop, server) + TablePlan(db, tables[|tables| - 1], start, stop, server)
  }

  /** Dumping a database: its tables, then, if they were read, each of them. */
  function DatabasePlan(db: string, start: int, stop: Option<int>, server: Fetch -> Response): seq<Fetch> {
    var t := Tables(db, start, stop);
    [t] + (if server(t).ok then TablesPlan(db, server(t).result, start, stop, server) else [])
  }

  /** The tables whose columns a sequence of fetches asks for, in order. */
  function ColumnTables(fs: seq<Fetch>): seq<string> {
    if fs == [] then []
    else ColumnTables(fs[..|fs| - 1]) + (if fs[|fs| - 1].Columns? then [fs[|fs| - 1].table] else [])
  }

  /** A fetch inside the dump of database `db` with window `start`..`stop`. */
  predicate Scoped(f: Fetch, db: string, start: int, stop: Option<int>) {
    (f.Tables? || f.Columns? || f.Records?) && f.db == db && f.start == start && f.stop == stop
  }

  /** Records are only asked for right after a successful column fetch of the same table, with exactly those columns. */
  predicate RecordsFollowColumns(fs: seq<Fetch>, server: Fetch -> Response) {
    forall k :: 0 <= k < |fs| && fs[k].Records? ==>
      && k > 0
      && fs[k - 1] == Columns(fs[k].db, fs[k].table, fs[k].start, fs[k].stop)
      && server(fs[k - 1]).ok
      && fs[k].columns == Join(server(fs[k - 1]).result, ',')
  }

  /**
   * A column fetch that succeeds is followed at once by the records fetch of
   * its table, carrying the columns read joined by `,`; one that fails is
   * followed by the next table's column fetch, or by nothing.
   */
  predicate ColumnsLeadToRecords(fs: seq<Fetch>, server: Fetch -> Response) {
    forall k :: 0 <= k < |fs| && fs[k].Columns? ==>
      && (server(fs[k]).ok ==>
            After(fs, k) == Some(Records(fs[k].db, fs[k].table, Join(server(fs[k]).result, ','), fs[k].start, fs[k].stop)))
      && (!server(fs[k]).ok ==> After(fs, k).None? || After(fs, k).value.Columns?)
  }

  /** The fetch sent right after the `k`-th one, if any. */
  function After(fs: seq<Fetch>, k: nat): Option<Fetch>
    requires k < |fs|
  {
    if k + 1 < |fs| then Some(fs[k + 1]) else None
  }

  lemma ColumnTablesAppend(a: seq<Fetch>, b: seq<Fetch>)
    ensures ColumnTables(a + b) == ColumnTables(a) + ColumnTables(b)
    decreases |b|
  {
    if b == [] {
      assert a + b == a;
    } else {
      var init := b[..|b| - 1];
      assert (a + b)[..|a + b| - 1] == a + init;
      ColumnTablesAppend(a, init);
    }
  }

  /** The columns of every listed table are asked for, once each, in the listed order. */
  lemma {:induction false} TablesVisitedInOrder(db: string, tables: seq<string>, start: int, stop: Option<int>, server: Fetch -> Response)
    ensures ColumnTables(TablesPlan(db, tables, start, stop, server)) == tables
  {
    if tables != [] {
      var init := tables[..|tables| - 1];
      var last := tables[|tables| - 1];
      TablesVisitedInOrder(db, init, start, stop, server);
      ColumnTablesAppend(TablesPlan(db, init, start, stop, server), TablePlan(db, last, start, stop, server));
      var tp := TablePlan(db, last, start, stop, server);
      assert ColumnTables(tp) == [last] by {
        assert ColumnTables([tp[0]]) == [last] by {
          assert [tp[0]][..0] == [];
        }
        if |tp| == 2 {
          assert tp[..1] == [tp[0]];
        }
      }
      assert init + [last] == tables;
    }
  }

  lemma RecordsFollowColumnsAppend(a: seq<Fetch>, b: seq<Fetch>, server: Fetch -> Response)
    requires RecordsFollowColumns(a, server) && RecordsFollowColumns(b, server)
    requires b != [] ==> !b[0].Records?
    ensures RecordsFollowColumns(a + b, server)
  {
    forall k | 0 <= k < |a + b| && (a + b)[k].Records?
      ensures k > 0 && (a + b)[k - 1] == Columns((a + b)[k].db, (a + b)[k].table, (a + b)[k].start, (a + b)[k].stop)
      ensures server((a + b)[k - 1]).ok && (a + b)[k].columns == Join(server((a + b)[k - 1]).result, ',')
    {
      if k < |a| {
        assert (a + b)[k] == a[k] && (a + b)[k - 1] == a[k - 1];
      } else {
        assert (a + b)[k] == b[k - |a|];
        assert k - |a| > 0;
        assert (a + b)[k - 1] == b[k - 1 - |a|];
      }
    }
  }

  /** In the dump of a list of tables, records are fetched only after their table's columns were read. */
  lemma {:induction false} TablesRecordsFollowColumns(
    db: string, tables: seq<string>, start: int, stop: Option<int>, server: Fetch -> Response)
    ensures RecordsFollowColumns(TablesPlan(db, tables, start, stop, server), server)
  {
    if tables != [] {
      var init := tables[..|tables| - 1];
      TablesRecordsFollowColumns(db, init, start, stop, server);
      var tp := TablePlan(db, tables[|tables| - 1], start, stop, server);
      assert RecordsFollowColumns(tp, server) by {
        forall k | 0 <= k < |tp| && tp[k].Records?
          ensures k > 0
        {
        }
      }
      RecordsFollowColumnsAppend(TablesPlan(db, init, start, stop, server), tp, server);
    }
  }

  lemma ColumnsLeadToRecordsAppend(a: seq<Fetch>, b: seq<Fetch>, server: Fetch -> Response)
    requires ColumnsLeadToRecords(a, server) && ColumnsLeadToRecords(b, server)
    requires a != [] && a[|a| - 1].Columns? && b != [] ==> b[0].Columns?
    ensures ColumnsLeadToRecords(a + b, server)
  {
    var ab := a + b;
    forall k | 0 <= k < |ab| && ab[k].Columns?
      ensures server(ab[k]).ok ==>
        After(ab, k) == Some(Records(ab[k].db, ab[k].table, Join(server(ab[k]).result, ','), ab[k].start, ab[k].stop))
      ensures !server(ab[k]).ok ==> After(ab, k).None? || After(ab, k).value.Columns?
    {
      if k < |a| {
        assert ab[k] == a[k];
        if k + 1 < |a| {
          assert After(ab, k) == After(a, k);
        } else if b != [] {
          assert After(ab, k) == Some(b[0]);
        }
      } else {
        assert ab[k] == b[k - |a|];
        assert After(ab, k) == After(b, k - |a|);
      }
    }
  }

  /** In the dump of a list of tables, the records of every table whose columns were read are fetched right after them. */
  lemma {:induction false} TablesColumnsLeadToRecords(
    db: string, tables: seq<string>, start: int, stop: Option<int>, server: Fetch -> Response)
    ensures ColumnsLeadToRecords(TablesPlan(db, tables, start, stop, server), server)
  {
    if tables != [] {
      var init := tables[..|tables| - 1];
      TablesColumnsLeadToRecords(db, init, start, stop, server);
      var tp := TablePlan(db, tables[|tables| - 1], start, stop, server);
      assert ColumnsLeadToRecords(tp, server) by {
        forall k | 0 <= k < |tp| && tp[k].Columns?
          ensures k == 0
        {
        }
      }
      ColumnsLeadToRecordsAppend(TablesPlan(db, init, start, stop, server), tp, server);
    }
  }

  /** Dumping a list of tables only fetches columns and records, in that database and that window. */
  lemma {:induction false} TablesPlanScoped(
    db: string, tables: seq<string>, start: int, stop: Option<int>, server: Fetch -> Response)
    ensures forall f :: f in TablesPlan(db, tables, start, stop, server) ==> Scoped(f, db, start, stop)
    ensures forall f :: f in TablesPlan(db, tables, start, stop, server) ==> f.Columns? || f.Records?
  {
    if tables != [] {
      TablesPlanScoped(db, tables[..|tables| - 1], start, stop, server);
    }
  }

  /**
   * The dump of a database: the table list comes first; when it cannot be
   * read nothing else is fetched; otherwise only column and records fetches
   * follow, its tables are visited in order,
   * a table's records are fetched exactly when its columns were read, right
   * after them and with those columns, and every fetch stays in that database
   * and window.
   */
  lemma DatabaseDumpShape(db: string, start: int, stop: Option<int>, server: Fetch -> Response)
    ensures DatabasePlan(db, start, stop, server)[0] == Tables(db, start, stop)
    ensures !server(Tables(db, start, stop)).ok ==> DatabasePlan(db, start, stop, server) == [Tables(db, start, stop)]
    ensures server(Tables(db, start, stop)).ok ==>
      ColumnTables(DatabasePlan(db, start, stop, server)) == server(Tables(db, start, stop)).result
    ensures RecordsFollowColumns(DatabasePlan(db, start, stop, server), server)
    ensures ColumnsLeadToRecords(DatabasePlan(db, start, stop, server), server)
    ensures forall f :: f in DatabasePlan(db, start, stop, server) ==> Scoped(f, db, start, stop)
    ensures forall k :: 0 < k < |DatabasePlan(db, start, stop, server)| ==>
      DatabasePlan(db, start, stop, server)[k].Columns? || DatabasePlan(db, start, stop, server)[k].Records?
  {
    var t := Tables(db, start, stop);
    var rest := if server(t).ok then TablesPlan(db, server(t).result, start, stop, server) else [];
    TablesRecordsFollowColumns(db, server(t).result, start, stop, server);
    TablesPlanScoped(db, server(t).result, start, stop, server);
    assert RecordsFollowColumns([t], server);
    RecordsFollowColumnsAppend([t], rest, server);
    TablesColumnsLeadToRecords(db, server(t).result, start, stop, server);
    assert ColumnsLeadToRecords([t], server);
    ColumnsLeadToRecordsAppend([t], rest, server);
    forall k | 0 < k < |[t] + rest|
      ensures ([t] + rest)[k].Columns? || ([t] + rest)[k].Records?
    {
      assert ([t] + rest)[k] == rest[k - 1];
    }
    if server(t).ok {
      TablesVisitedInOrder(db, server(t).result, start, stop, server);
      ColumnTablesAppend([t], rest);
      assert ColumnTables([t]) == [];
    }
  }

  /**
   * The column list handed to the records fetch gives back the columns read,
   * provided at least one was read and no column name holds a `,`.
   */
  lemma RecordsColumnsRecoverable(db: string, table: string, start: int, stop: Option<int>, server: Fetch -> Response)
    requires var cols := server(Columns(db, table, start, stop)).result;
      |cols| >= 1 && forall i :: 0 <= i < |cols| ==> ',' !in cols[i]
    ensures var plan := TablePlan(db, table, start, stop, server);
      |plan| == 2 ==> Split(plan[1].columns, ',') == server(plan[0]).result
  {
    SplitJoin(server(Columns(db, table, start, stop)).result, ',');
  }

  /**
   * The object `Ghauri` builds from a confirmed injection, and the fetches it
   * has sent. The injection it was built from (URL, body, vector, backend,
   * parameter, base, status code, text-only flag and the rest) is only passed
   * along with every fetch, so it is part of `server`.
   */
  class Ghauri {
    /** The target as reached through this injection: the answer to each fetch. */
    const server: Fetch -> Response
    /** Every fetch sent so far, oldest first. */
    var issued: seq<Fetch>

    constructor(server: Fetch -> Response)
      ensures this.server == server
      ensures issued == []
    {
      this.server := server;
      issued := [];
    }

    /** Send one fetch through the injection. */
    method Send(f: Fetch) returns (r: Response)
      modifies this
      ensures issued == old(issued) + [f]
      ensures r == server(f)
    {
      issued := issued + [f];
      r := server(f);
    }

    method ExtractCurrentDb() returns (r: Response)
      modifies this
      ensures issued == old(issued) + [CurrentDb]
      ensures r == server(CurrentDb)
    {
      r := Send(CurrentDb);
    }

    /** The database names; when they cannot be read, the current database instead. */
    method ExtractDbs(start: int, stop: Option<int>) returns (r: Response)
      modifies this
      ensures issued == old(issued) + DbsPlan(start, stop, server)
      ensures r == if server(Dbs(start, stop)).ok then server(Dbs(start, stop)) else server(CurrentDb)
    {
      r := Send(Dbs(start, stop));
      var fetched := r.ok;
      if !fetched {
        r := ExtractCurrentDb();
      }
    }

    method ExtractTables(db: string, start: int, stop: Option<int>) returns (r: Response)
      modifies this
      ensures issued == old(issued) + [Tables(db, start, stop)]
      ensures r == server(Tables(db, start, stop))
    {
      r := Send(Tables(db, start, stop));
    }

    method ExtractColumns(db: string, table: string, start: int, stop: Option<int>) returns (r: Response)
      modifies this
      ensures issued == old(issued) + [Columns(db, table, start, stop)]
      ensures r == server(Columns(db, table, start, stop))
    {
      r := Send(Columns(db, table, start, stop));
    }

    method ExtractRecords(db: string, table: string, columns: string, start: int, stop: Option<int>) returns (r: Response)
      modifies this
      ensures issued == old(issued) + [Records(db, table, columns, start, stop)]
      ensures r == server(Records(db, table, columns, start, stop))
    {
      r := Send(Records(db, table, columns, start, stop));
    }

    /** The columns of a table, then its records for the columns read. */
    method DumpTable(db: string, table: string, start: int, stop: Option<int>)
      modifies this
      ensures issued == old(issued) + TablePlan(db, table, start, stop, server)
    {
      var columns := ExtractColumns(db, table, start, stop);
      if columns.ok {
        var records := ExtractRecords(db, table, Join(columns.result, ','), start, stop);
      }
    }

    /** The tables of a database, then the columns and records of each, in order. */
    method DumpDatabase(db: string, start: int, stop: Option<int>)
      modifies this
      ensures issued == old(issued) + DatabasePlan(db, start, stop, server)
    {
      var tables := ExtractTables(db, start, stop);
      ghost var before := issued;
      if tables.ok {
        var names := tables.result;
        for i := 0 to |names|
          invariant issued == before + TablesPlan(db, names[..i], start, stop, server)
        {
          assert names[..i + 1][..i] == names[..i];
          var columns := ExtractColumns(db, names[i], start, stop);
          if columns.ok {
            var records := ExtractRecords(db, names[i], Join(columns.result, ','), start, stop);
          }
        }
        assert names[..|names|] == names;
      } else {
        assert TablesPlan(db, [], start, stop, server) == [];
      }
    }
  }
}
