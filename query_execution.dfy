/** EbeanQueryExecution: the execution strategies a repository query method runs
    with, chosen by its declared return shape. Each one materialises the query
    once (createQuery), branches on whether it is a Query or a SqlQuery, and
    shapes the engine's answer into the result the caller declared. */
module QueryExecution {
  import opened Common
  import opened Engine
  import opened ParameterBinding

  /** A method's declared return type, as far as the modifying strategy looks at it. */
  datatype ReturnType = VoidPrimitive | VoidClass | IntPrimitive | IntegerClass | OtherType(name: string)

  /** What an execution returns to the repository method. */
  datatype ExecResult =
    | ListResult(rows: seq<Row>)
    | SliceResult(content: seq<Row>, pageable: Pageable, hasNext: bool)
    | PageResult(content: seq<Row>, pageRequest: Option<Pageable>, total: nat)
    | SingleResult(row: Option<Row>)
    | IntResult(count: int)
    | BoolResult(exists_: bool)
    | StreamResult(items: seq<Row>)

  /** The eight strategies, with the state their Java objects hold. */
  datatype Execution =
    | CollectionExecution
    | SlicedExecution(parameters: seq<Parameter>)
    | PagedExecution(parameters: seq<Parameter>)
    | SingleEntityExecution
    | ModifyingExecution(server: EbeanServer)
    | DeleteExecution(server: EbeanServer)
    | ExistsExecution
    | StreamExecution

  /** new ModifyingExecution(method, ebeanServer): only void, Void, int and Integer are
      accepted as the method's return type. */
  function NewModifyingExecution(returnType: ReturnType, server: EbeanServer): (r: Result<Execution, Error>)
    ensures r.Ok? <==> !returnType.OtherType?
    ensures r.Ok? ==> r.value == ModifyingExecution(server)
    ensures r.Err? ==> r.error == IllegalArgument(InvalidReturnType)
  {
    var isVoid := returnType == VoidPrimitive || returnType == VoidClass;
    var isInt := returnType == IntPrimitive || returnType == IntegerClass;
    if isInt || isVoid then Ok(ModifyingExecution(server)) else Err(IllegalArgument(InvalidReturnType))
  }

  /** The repository query (AbstractEbeanQuery) as the strategies use it: it builds a live
      query from the arguments and says whether its method returns a collection. */
  class QueryPlan {
    /** Whether createQuery builds a Query, a SqlQuery or something else. */
    const variant: Variant
    /** The rows the built query matches, in result order. */
    const rows: seq<Row>
    /** The declared parameters of the query method. */
    const parameters: seq<Parameter>
    /** getQueryMethod().isCollectionQuery() */
    const isCollectionQuery: bool
    /** The server the built queries run on. */
    const server: EbeanServer
    /** The number of createQuery calls so far. */
    var created: nat

    constructor (variant: Variant, rows: seq<Row>, parameters: seq<Parameter>, isCollectionQuery: bool, server: EbeanServer)
      ensures this.variant == variant && this.rows == rows && this.parameters == parameters
      ensures this.isCollectionQuery == isCollectionQuery && this.server == server && created == 0
    {
      this.variant, this.rows, this.parameters := variant, rows, parameters;
      this.isCollectionQuery, this.server := isCollectionQuery, server;
      created := 0;
    }

    /** createQuery(values): a fresh query of the plan's variant over its rows, with the
        arguments bound and the pagination applied by a ParameterBinder. */
    method CreateQuery(values: array<Value>) returns (r: Result<Query, Error>)
      modifies this
      ensures created == old(created) + 1
      ensures match Materialize(this, values[..])
              case Err(e) => r == Err(e)
              case Ok(s) => r.Ok? && fresh(r.value) && r.value.State() == s && r.value.server == server
    {
      created := created + 1;
      var binder :- NewParameterBinder(parameters, values);
      var q := new Query(variant, rows, server);
      r := binder.BindAndPrepare(q);
    }
  }

  /** The state of the query createQuery(values) builds, or the exception it throws. */
  function Materialize(plan: QueryPlan, values: seq<Value>): (r: Result<QueryState, Error>)
    ensures r.Ok? ==> r.value.variant == plan.variant && r.value.rows == plan.rows
    ensures r.Err? ==> r.error.IllegalArgument? || r.error == NullPointer
  {
    if |plan.parameters| != |values| then Err(IllegalArgument(ArityMismatch))
    else
      var (s, err) := PrepareOutcome(Initial(plan.variant, plan.rows), plan.parameters, values);
      if err.Some? then Err(err.value) else Ok(s)
  }

  /** createQuery succeeds exactly when the arity matches, every bindable parameter can be
      bound (checked only when there is one), and a Query or SqlQuery with a Pageable
      parameter receives a non-null Pageable argument. */
  lemma {:induction false} MaterializeSucceeds(plan: QueryPlan, values: seq<Value>)
    ensures Materialize(plan, values).Ok? <==>
            && |plan.parameters| == |values|
            && (forall i :: 0 <= i < |plan.parameters| && CanBindParameter(plan.parameters[i]) ==>
                  Binds(plan.variant, plan.parameters[i]))
            && (HasPageableParameter(plan.parameters) && plan.variant != Other ==>
                  PageableOf(plan.parameters, values).Some?)
  {
    if |plan.parameters| == |values| {
      BindAllSucceeds(plan.variant, plan.parameters, values, |plan.parameters|, NoBindings);
    }
  }

  // The doExecute of each strategy, once createQuery has produced the query state s.

  /** CollectionExecution: findList() on a Query or a SqlQuery. */
  function CollectionOf(s: QueryState): (r: Result<ExecResult, Error>)
    ensures r.Ok? <==> s.variant != Other
    ensures r.Ok? ==> r.value == ListResult(FindList(s))
    ensures r.Err? ==> r.error == InvalidEbeanQueryMethod(QueryOrSqlQuery)
  {
    if s.variant.Structured? then Ok(ListResult(FindList(s)))
    else if s.variant.Raw? then Ok(ListResult(FindList(s)))
    else Err(InvalidEbeanQueryMethod(QueryOrSqlQuery))
  }

  /** The query a sliced execution runs: at most one row more than a page. */
  function SliceQuery(s: QueryState, p: Pageable): (r: QueryState)
    ensures r == s.(maxRows := r.maxRows)
    ensures p.pageSize < INT_MAX ==> r.maxRows == p.pageSize + 1
    ensures p.pageSize == INT_MAX ==> r.maxRows == INT_MIN
  {
    s.(maxRows := ToInt(p.pageSize + 1))
  }

  /** SlicedExecution as the source writes it: findList()'s result is dropped and
      `resultList` stays null, so `resultList.size()` always dereferences null. */
  function SliceAsWritten(s: QueryState, pageable: Option<Pageable>): (r: Result<ExecResult, Error>)
    ensures r.Err?
    ensures r.error == NullPointer <==> pageable.None? || s.variant != Other
  {
    if pageable.None? then Err(NullPointer)   // pageable.getPageSize()
    else if s.variant.Structured? || s.variant.Raw? then Err(NullPointer)   // resultList.size()
    else Err(InvalidEbeanQueryMethod(QueryOrSqlQuery))
  }

  /** SlicedExecution as evidently intended: `resultList` is findList()'s result on the
      query limited to pageSize + 1 rows; one row beyond the page means there is a next slice. */
  function SliceOf(s: QueryState, pageable: Option<Pageable>): (r: Result<ExecResult, Error>)
    ensures r.Ok? <==> pageable.Some? && s.variant != Other
    ensures pageable.None? ==> r == Err(NullPointer)
    ensures r.Ok? ==> r.value.SliceResult? && r.value.pageable == pageable.value && |r.value.content| <= pageable.value.pageSize
  {
    if pageable.None? then Err(NullPointer)
    else if s.variant.Structured? || s.variant.Raw? then
      var pageSize := pageable.value.pageSize;
      var resultList := FindList(SliceQuery(s, pageable.value));
      var hasNext := |resultList| > pageSize;
      Ok(SliceResult(if hasNext then resultList[..pageSize] else resultList, pageable.value, hasNext))
    else Err(InvalidEbeanQueryMethod(QueryOrSqlQuery))
  }

  /** PagedExecution: a Query gives a page of findPagedList()'s items with its total count;
      a SqlQuery gives the plain findList(). */
  function PagedOf(s: QueryState, pageable: Option<Pageable>): (r: Result<ExecResult, Error>)
    ensures r.Ok? <==> s.variant != Other
    ensures s.variant == Structured ==> r == Ok(PageResult(FindList(s), pageable, |s.rows|))
    ensures s.variant == Raw ==> r == Ok(ListResult(FindList(s)))
  {
    match s.variant
    case Structured =>
      var pagedList := FindPagedList(s);
      Ok(PageResult(pagedList.list, pageable, pagedList.totalCount))
    case Raw => Ok(ListResult(FindList(s)))
    case Other => Err(InvalidEbeanQueryMethod(QueryOrSqlQuery))
  }

  /** SingleEntityExecution: findOne() on a Query or a SqlQuery. */
  function SingleEntityOf(s: QueryState): (r: Result<ExecResult, Error>)
    ensures r.Ok? <==> s.variant != Other && |FindList(s)| <= 1
    ensures r.Ok? ==> r.value.SingleResult? && (r.value.row.None? <==> FindList(s) == [])
    ensures r.Ok? && r.value.row.Some? ==> FindList(s) == [r.value.row.value]
    ensures r == Err(NonUniqueResult) <==> s.variant != Other && |FindList(s)| > 1
  {
    if s.variant.Structured? || s.variant.Raw? then
      var one :- FindOne(s);
      Ok(SingleResult(one))
    else Err(InvalidEbeanQueryMethod(QueryOrSqlQuery))
  }

  /** ModifyingExecution: update() on a Query; a SqlQuery is refused. */
  function ModifyingOf(s: QueryState): (r: Result<ExecResult, Error>)
    ensures r.Ok? <==> s.variant == Structured
    ensures r.Ok? ==> r.value == IntResult(|s.rows|)
    ensures s.variant == Raw ==> r == Err(InvalidEbeanQueryMethod(QueryOnly))
  {
    match s.variant
    case Structured => Ok(IntResult(UpdateCount(s)))
    case Raw => Err(InvalidEbeanQueryMethod(QueryOnly))
    case Other => Err(InvalidEbeanQueryMethod(QueryOrSqlQuery))
  }

  /** How many rows of `list` a delete loop gets through: the index of the first refused
      row, or the whole list when none is refused. */
  function DeletablePrefix(list: seq<Row>, refused: set<Row>): (k: nat)
    ensures k <= |list|
    ensures forall i :: 0 <= i < k ==> list[i] !in refused
    ensures k < |list| ==> list[k] in refused
  {
    if list == [] || list[0] in refused then 0
    else 1 + DeletablePrefix(list[1..], refused)
  }

  /** DeleteExecution's result: the fetched rows for a collection method, their number
      otherwise; the server's exception when it refuses one of them. */
  function DeleteOf(s: QueryState, isCollectionQuery: bool, refused: set<Row>): (r: Result<ExecResult, Error>)
    ensures r.Ok? <==> s.variant != Other && forall i :: 0 <= i < |FindList(s)| ==> FindList(s)[i] !in refused
    ensures r.Ok? ==> (r.value.ListResult? <==> isCollectionQuery)
    ensures r.Err? && s.variant != Other ==> r.error == PersistenceFailure
  {
    if s.variant.Structured? || s.variant.Raw? then
      var resultList := FindList(s);
      if DeletablePrefix(resultList, refused) < |resultList| then Err(PersistenceFailure)
      else Ok(if isCollectionQuery then ListResult(resultList) else IntResult(|resultList|))
    else Err(InvalidEbeanQueryMethod(QueryOrSqlQuery))
  }

  /** The rows DeleteExecution gets ebeanServer.delete to remove, in order: the fetched rows
      up to the first one the server refuses. */
  function DeletedRows(s: QueryState, refused: set<Row>): (r: seq<Row>)
    ensures r <= FindList(s)
    ensures forall i :: 0 <= i < |r| ==> r[i] !in refused
    ensures s.variant != Other && |r| < |FindList(s)| ==> FindList(s)[|r|] in refused
    ensures s.variant == Other ==> r == []
  {
    if s.variant.Structured? || s.variant.Raw? then
      var resultList := FindList(s);
      resultList[..DeletablePrefix(resultList, refused)]
    else []
  }

  /** ExistsExecution: findCount() > 0 on a Query; on a SqlQuery, the "c" column of
      findOne()'s row, which must be there (a missing row or column is a null). */
  function ExistsOf(s: QueryState): (r: Result<ExecResult, Error>)
    ensures s.variant == Structured ==> r == Ok(BoolResult(|s.rows| > 0))
    ensures s.variant == Raw && |FindList(s)| == 1 && "c" in FindList(s)[0].columns ==>
              r == Ok(BoolResult(FindList(s)[0].columns["c"] > 0))
    ensures s.variant == Raw && |FindList(s)| == 1 && "c" !in FindList(s)[0].columns ==> r == Err(NullPointer)
    ensures s.variant == Raw && |FindList(s)| == 0 ==> r == Err(NullPointer)
    ensures s.variant == Raw && |FindList(s)| > 1 ==> r == Err(NonUniqueResult)
  {
    match s.variant
    case Structured => Ok(BoolResult(FindCount(s) > 0))
    case Raw =>
      var one :- FindOne(s);
      if one.None? then Err(NullPointer)
      else if "c" !in one.value.columns then Err(NullPointer)
      else Ok(BoolResult(one.value.columns["c"] > 0))
    case Other => Err(InvalidEbeanQueryMethod(QueryOrSqlQuery))
  }

  /** StreamExecution, past its transaction check: findIterate() on a Query; a SqlQuery is refused. */
  function StreamOf(s: QueryState): (r: Result<ExecResult, Error>)
    ensures r.Ok? <==> s.variant == Structured
    ensures r.Ok? ==> r.value == StreamResult(FindList(s))
    ensures s.variant == Raw ==> r == Err(InvalidEbeanQueryMethod(QueryOnly))
  {
    match s.variant
    case Structured => Ok(StreamResult(FindList(s)))
    case Raw => Err(InvalidEbeanQueryMethod(QueryOnly))
    case Other => Err(InvalidEbeanQueryMethod(QueryOrSqlQuery))
  }

  /** What execute(query, values) returns for non-null arguments. */
  function ExecuteSpec(execution: Execution, plan: QueryPlan, values: seq<Value>, transactionActive: bool): (r: Result<ExecResult, Error>)
    ensures execution.StreamExecution? && !transactionActive ==> r == Err(InvalidDataAccessApiUsage)
    ensures r.Ok? ==> Materialize(plan, values).Ok?
    ensures Materialize(plan, values).Err? && !(execution.StreamExecution? && !transactionActive) ==>
              r == Err(Materialize(plan, values).error)
  {
    match execution
    case CollectionExecution =>
      var s :- Materialize(plan, values); CollectionOf(s)
    case SlicedExecution(ps) =>
      var s :- Materialize(plan, values); SliceOf(s, PageableOf(ps, values))
    case PagedExecution(ps) =>
      var s :- Materialize(plan, values); PagedOf(s, PageableOf(ps, values))
    case SingleEntityExecution =>
      var s :- Materialize(plan, values); SingleEntityOf(s)
    case ModifyingExecution(_) =>
      var s :- Materialize(plan, values); ModifyingOf(s)
    case DeleteExecution(server) =>
      var s :- Materialize(plan, values); DeleteOf(s, plan.isCollectionQuery, server.refused)
    case ExistsExecution =>
      var s :- Materialize(plan, values); ExistsOf(s)
    case StreamExecution =>
      if !transactionActive then Err(InvalidDataAccessApiUsage)
      else var s :- Materialize(plan, values); StreamOf(s)
  }

  /** The rows an execution deletes through its server. */
  function DeleteEffect(server: EbeanServer, plan: QueryPlan, values: seq<Value>): seq<Row>
  {
    match Materialize(plan, values)
    case Ok(s) => DeletedRows(s, server.refused)
    case Err(_) => []
  }

  /** The update statements an execution runs on the plan's server. */
  function UpdateEffect(plan: QueryPlan, values: seq<Value>): seq<nat>
  {
    match Materialize(plan, values)
    case Ok(s) => if s.variant == Structured then [UpdateCount(s)] else []
    case Err(_) => []
  }

  // Properties of the strategies.

  /** The intended slice: past the query's first row, the content is the next pageSize
      matching rows (or all that remain), and hasNext holds exactly when more rows remain. */
  lemma {:induction false} SliceContents(s: QueryState, p: Pageable)
    requires s.variant != Other
    ensures var from := Skip(s.rows, s.firstRow);
            var remaining := |s.rows| - from;
            var n := if remaining < p.pageSize then remaining else p.pageSize;
            SliceOf(s, Some(p)) == Ok(SliceResult(s.rows[from..from + n], p, remaining > p.pageSize))
  {
    var q := SliceQuery(s, p);
    WindowShape(q.rows, q.firstRow, q.maxRows);
    var from := Skip(s.rows, s.firstRow);
    var remaining := |s.rows| - from;
    var n := if remaining < p.pageSize then remaining else p.pageSize;
    var resultList := FindList(q);
    if remaining > p.pageSize {
      assert |resultList| > p.pageSize;
      assert resultList[..p.pageSize] == s.rows[from..from + n];
    } else {
      assert resultList == s.rows[from..from + n];
    }
  }

  /** Page size 2 over three matching rows: the first two rows, and a next slice. */
  lemma {:induction false} SliceOfThreeRows(r1: Row, r2: Row, r3: Row, b: Bindings)
    ensures SliceOf(QueryState(Structured, [r1, r2, r3], b, 0, 2), Some(PageRequest(0, 2))) ==
            Ok(SliceResult([r1, r2], PageRequest(0, 2), true))
  {
    var s := QueryState(Structured, [r1, r2, r3], b, 0, 2);
    SliceContents(s, PageRequest(0, 2));
    assert Skip(s.rows, s.firstRow) == 0;
    assert s.rows[0..2] == [r1, r2];
  }

  /** As written, a sliced execution never produces a slice: every Query or SqlQuery ends
      in a null dereference after maxRows is set, where the intended code returns one. */
  lemma {:induction false} SliceAsWrittenNeverSlices(s: QueryState, p: Pageable)
    requires s.variant != Other
    ensures SliceAsWritten(s, Some(p)) == Err(NullPointer)
    ensures SliceOf(s, Some(p)).Ok? && SliceOf(s, Some(p)).value.SliceResult?
  {
  }

  /** A page of a Query reports the number of all matching rows as its total, whatever
      page it holds; its content is never longer than that total. */
  lemma {:induction false} PageTotalCountsAllRows(ps: seq<Parameter>, plan: QueryPlan, values: seq<Value>, transactionActive: bool)
    requires plan.variant == Structured
    requires ExecuteSpec(PagedExecution(ps), plan, values, transactionActive).Ok?
    ensures var r := ExecuteSpec(PagedExecution(ps), plan, values, transactionActive).value;
            r.PageResult? && r.total == |plan.rows| && |r.content| <= r.total
  {
    var s := Materialize(plan, values).value;
    WindowShape(s.rows, s.firstRow, s.maxRows);
  }

  /** Two pages of the same query, with the same arguments except the Pageable one and so
      whatever their offsets and sizes, report the same total. */
  lemma {:induction false} PageTotalIgnoresPage(ps: seq<Parameter>, plan: QueryPlan, first: seq<Value>, second: seq<Value>)
    requires plan.variant == Structured
    requires |first| == |second| && forall i :: 0 <= i < |first| && i != PageableIndex(ps) ==> first[i] == second[i]
    requires ExecuteSpec(PagedExecution(ps), plan, first, true).Ok?
    requires ExecuteSpec(PagedExecution(ps), plan, second, true).Ok?
    ensures ExecuteSpec(PagedExecution(ps), plan, first, true).value.total ==
            ExecuteSpec(PagedExecution(ps), plan, second, true).value.total
  {
    PageTotalCountsAllRows(ps, plan, first, true);
    PageTotalCountsAllRows(ps, plan, second, true);
  }

  /** A paged execution of a SqlQuery returns the unpaged list, not a page. */
  lemma {:induction false} RawPagedIsPlainList(ps: seq<Parameter>, plan: QueryPlan, values: seq<Value>)
    requires plan.variant == Raw && Materialize(plan, values).Ok?
    ensures ExecuteSpec(PagedExecution(ps), plan, values, true) == Ok(ListResult(FindList(Materialize(plan, values).value)))
  {
  }

  /** Counts 0 and 1, on a Query and on a SqlQuery. */
  lemma {:induction false} ExistsExamples(row: Row, b: Bindings)
    ensures ExistsOf(QueryState(Structured, [], b, 0, 0)) == Ok(BoolResult(false))
    ensures ExistsOf(QueryState(Structured, [row], b, 0, 0)) == Ok(BoolResult(true))
    ensures ExistsOf(QueryState(Raw, [Row(0, map["c" := 0])], b, 0, 0)) == Ok(BoolResult(false))
    ensures ExistsOf(QueryState(Raw, [Row(0, map["c" := 1])], b, 0, 0)) == Ok(BoolResult(true))
  {
    assert FindList(QueryState(Raw, [Row(0, map["c" := 1])], b, 0, 0)) == [Row(0, map["c" := 1])];
    assert FindList(QueryState(Raw, [Row(0, map["c" := 0])], b, 0, 0)) == [Row(0, map["c" := 0])];
  }

  /** A delete execution that returns has deleted every fetched row, and returns exactly
      those rows, or how many there were. */
  lemma {:induction false} DeleteReturnsDeleted(server: EbeanServer, plan: QueryPlan, values: seq<Value>, transactionActive: bool)
    requires ExecuteSpec(DeleteExecution(server), plan, values, transactionActive).Ok?
    ensures DeleteEffect(server, plan, values) == FindList(Materialize(plan, values).value)
    ensures ExecuteSpec(DeleteExecution(server), plan, values, transactionActive).value ==
            if plan.isCollectionQuery then ListResult(DeleteEffect(server, plan, values)) else IntResult(|DeleteEffect(server, plan, values)|)
  {
    var list := FindList(Materialize(plan, values).value);
    assert list[..DeletablePrefix(list, server.refused)] == list;
  }

  /** A delete execution that throws while deleting has removed exactly the fetched rows
      before the first refused one, and passes the server's exception on; one that throws
      before anything is fetched has deleted nothing. */
  lemma {:induction false} FailedDeleteKeepsEarlierDeletes(server: EbeanServer, plan: QueryPlan, values: seq<Value>, transactionActive: bool)
    requires ExecuteSpec(DeleteExecution(server), plan, values, transactionActive).Err?
    ensures ExecuteSpec(DeleteExecution(server), plan, values, transactionActive).error == PersistenceFailure ==>
              && Materialize(plan, values).Ok? && plan.variant != Other
              && var list := FindList(Materialize(plan, values).value);
                 var k := |DeleteEffect(server, plan, values)|;
                 k < |list| && DeleteEffect(server, plan, values) == list[..k] && list[k] in server.refused
    ensures ExecuteSpec(DeleteExecution(server), plan, values, transactionActive).error != PersistenceFailure ==>
              DeleteEffect(server, plan, values) == []
  {
    if Materialize(plan, values).Ok? && plan.variant != Other {
      var list := FindList(Materialize(plan, values).value);
      assert DeleteEffect(server, plan, values) == list[..|DeleteEffect(server, plan, values)|];
    }
  }

  /** Three fetched rows of which the server refuses the second: the first is deleted and
      the server's exception propagates. */
  lemma {:induction false} SecondRowRefused(r1: Row, r2: Row, r3: Row, b: Bindings)
    requires r1 != r2
    ensures var s := QueryState(Structured, [r1, r2, r3], b, 0, 0);
            DeleteOf(s, true, {r2}) == Err(PersistenceFailure) && DeletedRows(s, {r2}) == [r1]
  {
    var s := QueryState(Structured, [r1, r2, r3], b, 0, 0);
    assert FindList(s) == [r1, r2, r3];
    assert DeletablePrefix([r2, r3], {r2}) == 0;
    assert DeletablePrefix([r1, r2, r3], {r2}) == 1 by {
      assert [r1, r2, r3][1..] == [r2, r3];
    }
  }

  /** A collection execution returns the plan's matching rows: all of them without a
      Pageable parameter, and with one exactly the requested page (for an offset that
      fits in an int). */
  lemma {:induction false} CollectionReturnsPage(plan: QueryPlan, values: seq<Value>, transactionActive: bool)
    requires ExecuteSpec(CollectionExecution, plan, values, transactionActive).Ok?
    ensures var r := ExecuteSpec(CollectionExecution, plan, values, transactionActive).value;
            && r.ListResult?
            && (!HasPageableParameter(plan.parameters) ==> r.rows == plan.rows)
            && (HasPageableParameter(plan.parameters) ==>
                  && PageableOf(plan.parameters, values).Some?
                  && (PageableOf(plan.parameters, values).value.offset <= INT_MAX ==>
                        r.rows == PageRows(plan.rows, PageableOf(plan.parameters, values).value)))
  {
    var init := Initial(plan.variant, plan.rows);
    MaterializeSucceeds(plan, values);
    if HasPageableParameter(plan.parameters) {
      PreparedQueryFetchesPage(init, plan.parameters, values, PageableOf(plan.parameters, values).value);
    } else {
      PrepareWithoutPageable(init, plan.parameters, values);
      assert Materialize(plan, values).value.firstRow == 0 && Materialize(plan, values).value.maxRows == 0;
    }
  }

  /** A single-entity execution on a built Query or SqlQuery looks at the rows a collection
      execution would return: none gives an empty result, one gives that row, more throw. */
  lemma {:induction false} SingleEntityCases(plan: QueryPlan, values: seq<Value>, transactionActive: bool, row: Row)
    requires Materialize(plan, values).Ok? && plan.variant != Other
    ensures var w := FindList(Materialize(plan, values).value);
            var r := ExecuteSpec(SingleEntityExecution, plan, values, transactionActive);
            && ExecuteSpec(CollectionExecution, plan, values, transactionActive) == Ok(ListResult(w))
            && (r == Ok(SingleResult(None)) <==> |w| == 0)
            && (r == Ok(SingleResult(Some(row))) <==> w == [row])
            && (r == Err(NonUniqueResult) <==> |w| > 1)
  {
  }

  /** Every strategy refuses a built query that is neither a Query nor a SqlQuery (a sliced
      one once its Pageable is there, a stream once a transaction is). */
  lemma {:induction false} OtherQueryRefused(execution: Execution, plan: QueryPlan, values: seq<Value>, transactionActive: bool)
    requires Materialize(plan, values).Ok? && plan.variant == Other
    requires execution.SlicedExecution? ==> PageableOf(execution.parameters, values).Some?
    requires execution.StreamExecution? ==> transactionActive
    ensures ExecuteSpec(execution, plan, values, transactionActive) == Err(InvalidEbeanQueryMethod(QueryOrSqlQuery))
  {
  }

  /** A modifying execution succeeds only on a Query, and then reports the update's row
      count, the one the server records. */
  lemma {:induction false} ModifyingReportsUpdate(server: EbeanServer, plan: QueryPlan, values: seq<Value>, transactionActive: bool)
    ensures ExecuteSpec(ModifyingExecution(server), plan, values, transactionActive).Ok? <==>
            plan.variant == Structured && Materialize(plan, values).Ok?
    ensures ExecuteSpec(ModifyingExecution(server), plan, values, transactionActive).Ok? ==>
            UpdateEffect(plan, values) == [ExecuteSpec(ModifyingExecution(server), plan, values, transactionActive).value.count]
  {
  }

  /** A String return type is refused when the modifying execution is constructed. */
  lemma {:induction false} ModifyingRejectsString(server: EbeanServer)
    ensures NewModifyingExecution(OtherType("String"), server) == Err(IllegalArgument(InvalidReturnType))
  {
  }

  // The strategies' doExecute methods.

  method DoCollection(plan: QueryPlan, values: array<Value>) returns (r: Result<ExecResult, Error>)
    modifies plan
    ensures plan.created == old(plan.created) + 1
    ensures r == ExecuteSpec(CollectionExecution, plan, values[..], true)
  {
    var q :- plan.CreateQuery(values);
    if q.variant == Structured {
      return Ok(ListResult(FindList(q.State())));
    } else if q.variant == Raw {
      return Ok(ListResult(FindList(q.State())));
    } else {
      return Err(InvalidEbeanQueryMethod(QueryOrSqlQuery));
    }
  }

  /** The evident intent of SlicedExecution.doExecute. The source keeps `resultList` null
      and drops findList()'s result (see SliceAsWritten); here resultList is that result. */
  method DoSliced(parameters: seq<Parameter>, plan: QueryPlan, values: array<Value>) returns (r: Result<ExecResult, Error>)
    modifies plan
    ensures plan.created == old(plan.created) + 1
    ensures r == ExecuteSpec(SlicedExecution(parameters), plan, values[..], true)
  {
    var pageable := PageableOf(parameters, values[..]);
    var q :- plan.CreateQuery(values);
    if pageable.None? {
      return Err(NullPointer);
    }
    ghost var created := q.State();
    assert Materialize(plan, values[..]) == Ok(created);
    var pageSize := pageable.value.pageSize;
    var resultList: seq<Row>;
    if q.variant == Structured {
      q.SetMaxRows(ToInt(pageSize + 1));
      assert q.State() == SliceQuery(created, pageable.value);
      resultList := FindList(q.State());
    } else if q.variant == Raw {
      q.SetMaxRows(ToInt(pageSize + 1));
      assert q.State() == SliceQuery(created, pageable.value);
      resultList := FindList(q.State());
    } else {
      return Err(InvalidEbeanQueryMethod(QueryOrSqlQuery));
    }
    var hasNext := |resultList| > pageSize;
    return Ok(SliceResult(if hasNext then resultList[..pageSize] else resultList, pageable.value, hasNext));
  }

  method DoPaged(parameters: seq<Parameter>, plan: QueryPlan, values: array<Value>) returns (r: Result<ExecResult, Error>)
    modifies plan
    ensures plan.created == old(plan.created) + 1
    ensures r == ExecuteSpec(PagedExecution(parameters), plan, values[..], true)
  {
    var pageable := PageableOf(parameters, values[..]);
    var q :- plan.CreateQuery(values);
    r := PagedOf(q.State(), pageable);
  }

  method DoSingleEntity(plan: QueryPlan, values: array<Value>) returns (r: Result<ExecResult, Error>)
    modifies plan
    ensures plan.created == old(plan.created) + 1
    ensures r == ExecuteSpec(SingleEntityExecution, plan, values[..], true)
  {
    var q :- plan.CreateQuery(values);
    r := SingleEntityOf(q.State());
  }

  /** ModifyingExecution.doExecute: the update runs on the server of the query. */
  method DoModifying(plan: QueryPlan, values: array<Value>) returns (r: Result<ExecResult, Error>)
    modifies plan, plan.server
    ensures plan.created == old(plan.created) + 1
    ensures r == ExecuteSpec(ModifyingExecution(plan.server), plan, values[..], true)
    ensures plan.server.updates == old(plan.server.updates) + UpdateEffect(plan, values[..])
    ensures plan.server.deleted == old(plan.server.deleted)
  {
    var q :- plan.CreateQuery(values);
    if q.variant == Structured {
      var result := q.Update();
      return Ok(IntResult(result));
    } else if q.variant == Raw {
      return Err(InvalidEbeanQueryMethod(QueryOnly));
    } else {
      return Err(InvalidEbeanQueryMethod(QueryOrSqlQuery));
    }
  }

  /** Deletes each fetched row in order through the server, stopping at the first one
      it refuses and passing its exception on. */
  method DeleteEach(server: EbeanServer, resultList: seq<Row>) returns (r: Outcome<Error>)
    modifies server
    ensures var k := DeletablePrefix(resultList, server.refused);
            && server.deleted == old(server.deleted) + resultList[..k]
            && r == (if k < |resultList| then Fail(PersistenceFailure) else Pass)
    ensures server.updates == old(server.updates)
  {
    var i := 0;
    while i < |resultList|
      invariant 0 <= i <= |resultList|
      invariant forall j :: 0 <= j < i ==> resultList[j] !in server.refused
      invariant server.deleted == old(server.deleted) + resultList[..i]
      invariant server.updates == old(server.updates)
    {
      var outcome := server.Delete(resultList[i]);
      if outcome.Fail? {
        return outcome;
      }
      i := i + 1;
    }
    assert resultList[..i] == resultList;
    return Pass;
  }

  /** DeleteExecution.doExecute: fetch, delete each fetched row through the server in
      order, then return the rows or their number; a refused row ends it with the
      server's exception, the rows before it deleted. */
  method DoDelete(server: EbeanServer, plan: QueryPlan, values: array<Value>) returns (r: Result<ExecResult, Error>)
    modifies plan, server
    ensures plan.created == old(plan.created) + 1
    ensures r == ExecuteSpec(DeleteExecution(server), plan, values[..], true)
    ensures server.deleted == old(server.deleted) + DeleteEffect(server, plan, values[..])
    ensures server.updates == old(server.updates)
  {
    var q :- plan.CreateQuery(values);
    if q.variant == Structured {
      var resultList := FindList(q.State());
      var deletes := DeleteEach(server, resultList);
      if deletes.Fail? {
        return Err(deletes.error);
      }
      return Ok(if plan.isCollectionQuery then ListResult(resultList) else IntResult(|resultList|));
    } else if q.variant == Raw {
      var resultList := FindList(q.State());
      var deletes := DeleteEach(server, resultList);
      if deletes.Fail? {
        return Err(deletes.error);
      }
      return Ok(if plan.isCollectionQuery then ListResult(resultList) else IntResult(|resultList|));
    } else {
      return Err(InvalidEbeanQueryMethod(QueryOrSqlQuery));
    }
  }

  method DoExists(plan: QueryPlan, values: array<Value>) returns (r: Result<ExecResult, Error>)
    modifies plan
    ensures plan.created == old(plan.created) + 1
    ensures r == ExecuteSpec(ExistsExecution, plan, values[..], true)
  {
    var q :- plan.CreateQuery(values);
    r := ExistsOf(q.State());
  }

  /** StreamExecution.doExecute: without a surrounding transaction it throws before
      createQuery is called. */
  method DoStream(plan: QueryPlan, values: array<Value>, transactionActive: bool) returns (r: Result<ExecResult, Error>)
    modifies plan
    ensures plan.created == old(plan.created) + (if transactionActive then 1 else 0)
    ensures r == ExecuteSpec(StreamExecution, plan, values[..], transactionActive)
  {
    if !transactionActive {
      return Err(InvalidDataAccessApiUsage);
    }
    var q :- plan.CreateQuery(values);
    if q.variant == Structured {
      return Ok(StreamResult(FindList(q.State())));
    } else if q.variant == Raw {
      return Err(InvalidEbeanQueryMethod(QueryOnly));
    } else {
      return Err(InvalidEbeanQueryMethod(QueryOrSqlQuery));
    }
  }

  /** execute(query, values): rejects a null query or null values, then runs the
      strategy's doExecute with the arguments unchanged. */
  method Execute(execution: Execution, plan: QueryPlan?, values: array?<Value>, transactionActive: bool)
    returns (r: Result<ExecResult, Error>)
    modifies if plan == null then {} else {plan, plan.server}
    modifies if execution.DeleteExecution? then {execution.server} else {}
    ensures plan == null ==> r == Err(IllegalArgument(NullQuery))
    ensures plan != null && values == null ==> r == Err(IllegalArgument(NullValues))
    ensures plan != null && values != null ==> r == ExecuteSpec(execution, plan, values[..], transactionActive)
    ensures plan != null && values != null ==>
              plan.created == old(plan.created) + (if execution.StreamExecution? && !transactionActive then 0 else 1)
    ensures plan != null && values != null && execution.ModifyingExecution? ==>
              plan.server.updates == old(plan.server.updates) + UpdateEffect(plan, values[..])
              && plan.server.deleted == old(plan.server.deleted)
    ensures plan != null && values != null && execution.DeleteExecution? ==>
              execution.server.deleted == old(execution.server.deleted) + DeleteEffect(execution.server, plan, values[..])
              && execution.server.updates == old(execution.server.updates)
              && (plan.server != execution.server ==> unchanged(plan.server))
    ensures plan != null && !execution.ModifyingExecution? && !execution.DeleteExecution? ==> unchanged(plan.server)
    ensures plan != null && values == null ==> unchanged(plan) && unchanged(plan.server)
    ensures (plan == null || values == null) && execution.DeleteExecution? ==> unchanged(execution.server)
  {
    if plan == null {
      return Err(IllegalArgument(NullQuery));
    }
    if values == null {
      return Err(IllegalArgument(NullValues));
    }
    match execution
    case CollectionExecution => r := DoCollection(plan, values);
    case SlicedExecution(ps) => r := DoSliced(ps, plan, values);
    case PagedExecution(ps) => r := DoPaged(ps, plan, values);
    case SingleEntityExecution => r := DoSingleEntity(plan, values);
    case ModifyingExecution(_) => r := DoModifying(plan, values);
    case DeleteExecution(server) => r := DoDelete(server, plan, values);
    case ExistsExecution => r := DoExists(plan, values);
    case StreamExecution => r := DoStream(plan, values, transactionActive);
  }
}
