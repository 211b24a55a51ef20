/** The Ebean engine as this layer sees it. The engine itself (SQL generation,
    the database) is not modelled: a query carries the rows it matches, in
    result order, and the engine's fetch operations are functions of those rows
    and of the query's firstRow and maxRows. The server keeps a log of the
    beans it was asked to delete and of the update statements it ran. */
module Engine {
  import opened Common

  /** The parameter state of a live query: positional slots (1-based) and named slots. */
  datatype Bindings = Bindings(positional: map<int, Value>, named: map<string, Value>)

  const NoBindings := Bindings(map[], map[])

  /** A snapshot of a live query. */
  datatype QueryState = QueryState(
    variant: Variant, rows: seq<Row>, bindings: Bindings, firstRow: int, maxRows: int)

  /** The state of a query as createQuery builds it, before any binding. */
  function Initial(variant: Variant, rows: seq<Row>): (s: QueryState)
    ensures s.variant == variant && s.rows == rows
    ensures s.bindings == NoBindings && s.firstRow == 0 && s.maxRows == 0
  {
    QueryState(variant, rows, NoBindings, 0, 0)
  }

  /** The EbeanServer: it deletes beans one at a time and runs update statements.
      The beans in `refused` are those whose delete the database rejects (a constraint
      violation, a lost row); deleting one of them throws and deletes nothing. */
  class EbeanServer {
    const refused: set<Row>
    /** Every bean deleted, in call order. */
    var deleted: seq<Row>
    /** The row count of every update statement run, in order. */
    var updates: seq<nat>

    constructor (refused: set<Row>)
      ensures this.refused == refused && deleted == [] && updates == []
    {
      this.refused := refused;
      deleted, updates := [], [];
    }

    /** ebeanServer.delete(bean): deletes the bean, or throws when the database refuses it. */
    method Delete(row: Row) returns (r: Outcome<Error>)
      modifies this
      ensures row in refused ==> r == Fail(PersistenceFailure) && deleted == old(deleted)
      ensures row !in refused ==> r == Pass && deleted == old(deleted) + [row]
      ensures updates == old(updates)
    {
      if row in refused {
        return Fail(PersistenceFailure);
      }
      deleted := deleted + [row];
      return Pass;
    }

    /** Records one executed update statement that touched `count` rows. */
    method RecordUpdate(count: nat)
      modifies this
      ensures updates == old(updates) + [count]
      ensures deleted == old(deleted)
    {
      updates := updates + [count];
    }
  }

  /** A live Ebean Query or SqlQuery (or another object, when `variant` is Other). */
  class Query {
    const variant: Variant
    const rows: seq<Row>
    const server: EbeanServer
    var positional: map<int, Value>
    var named: map<string, Value>
    var firstRow: int
    var maxRows: int

    constructor (variant: Variant, rows: seq<Row>, server: EbeanServer)
      ensures State() == Initial(variant, rows) && this.server == server
    {
      this.variant, this.rows, this.server := variant, rows, server;
      positional, named := map[], map[];
      firstRow, maxRows := 0, 0;
    }

    function Params(): Bindings
      reads this
    {
      Bindings(positional, named)
    }

    function State(): QueryState
      reads this
    {
      QueryState(variant, rows, Params(), firstRow, maxRows)
    }

    /** setParameter(int position, Object value) */
    method SetParameter(position: int, value: Value)
      modifies this
      ensures State() == old(State()).(bindings := old(Params()).(positional := old(positional)[position := value]))
    {
      positional := positional[position := value];
    }

    /** setParameter(String name, Object value) */
    method SetNamedParameter(name: string, value: Value)
      modifies this
      ensures State() == old(State()).(bindings := old(Params()).(named := old(named)[name := value]))
    {
      named := named[name := value];
    }

    /** setFirstRow(int firstRow) */
    method SetFirstRow(n: int)
      modifies this
      ensures State() == old(State()).(firstRow := n)
    {
      firstRow := n;
    }

    /** setMaxRows(int maxRows) */
    method SetMaxRows(n: int)
      modifies this
      ensures State() == old(State()).(maxRows := n)
    {
      maxRows := n;
    }

    /** update(): runs the query as an update statement on its server and returns the row count. */
    method Update() returns (count: nat)
      modifies server
      ensures count == UpdateCount(State())
      ensures server.updates == old(server.updates) + [count]
      ensures server.deleted == old(server.deleted)
    {
      count := |rows|;
      server.RecordUpdate(count);
    }
  }

  /** Where the fetched window starts: firstRow, clamped to the rows there are. */
  function Skip(rows: seq<Row>, firstRow: int): (from: nat)
    ensures from <= |rows|
    ensures 0 < firstRow <= |rows| ==> from == firstRow
  {
    if firstRow <= 0 then 0 else if firstRow > |rows| then |rows| else firstRow
  }

  /** The rows a fetch returns: skip firstRow rows, then keep at most maxRows
      of them (a maxRows of zero or less means no limit). */
  function Window(rows: seq<Row>, firstRow: int, maxRows: int): seq<Row>
  {
    var rest := rows[Skip(rows, firstRow)..];
    if 0 < maxRows < |rest| then rest[..maxRows] else rest
  }

  /** The window is the contiguous run of matching rows starting at Skip, as long
      as maxRows allows and the rows last. */
  lemma {:induction false} WindowShape(rows: seq<Row>, firstRow: int, maxRows: int)
    ensures var from := Skip(rows, firstRow);
            var n := if 0 < maxRows < |rows| - from then maxRows else |rows| - from;
            Window(rows, firstRow, maxRows) == rows[from..from + n]
  {
  }

  /** findList() */
  function FindList(s: QueryState): seq<Row>
  {
    Window(s.rows, s.firstRow, s.maxRows)
  }

  /** findOne(): no row gives null, one row gives that row, more than one is an error. */
  function FindOne(s: QueryState): Result<Option<Row>, Error>
  {
    var list := FindList(s);
    if |list| == 0 then Ok(None)
    else if |list| == 1 then Ok(Some(list[0]))
    else Err(NonUniqueResult)
  }

  /** findCount(): the number of matching rows, whatever the window. */
  function FindCount(s: QueryState): nat
  {
    |s.rows|
  }

  /** The result of findPagedList(): the current page and the total row count. */
  datatype PagedList = PagedList(list: seq<Row>, totalCount: nat)

  function FindPagedList(s: QueryState): PagedList
  {
    PagedList(FindList(s), FindCount(s))
  }

  /** The number of rows an update statement built from the query touches. */
  function UpdateCount(s: QueryState): nat
  {
    |s.rows|
  }
}
