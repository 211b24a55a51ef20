# spring-data-ebean: parameter binding and query execution strategies

This project models two classes of the spring-data-ebean repository layer in Dafny and proves what they do:

- `ParameterBinder` binds the arguments of a repository method call to a live Ebean query, by name or by 1-based position. It then applies a `Pageable` argument as the query's first row and its maximum row count.
- `EbeanQueryExecution` and its eight strategies each build the live query once (`createQuery`) and branch on whether it is an Ebean `Query` or `SqlQuery`. Each then shapes the engine's answer into what the method declared: a list, a slice, a page, one entity, an update count, deleted rows or their number, an exists flag, or a stream.

The model has four modules:

- `Common` holds results and exceptions, argument values, page requests, rows, and Java's `(int)` cast.
- `Engine` is the Ebean engine as this layer sees it:
  - a `Query` class with its positional and named parameter maps, `firstRow` and `maxRows`;
  - an `EbeanServer` class that logs deletes and updates;
  - fetch functions over the rows a query matches.
- `ParameterBinding` has the `ParameterBinder` class and the pure binding specification `BindAll` that its loop is proved against.
- `QueryExecution` has the strategies as a datatype, the query plan (`AbstractEbeanQuery.createQuery`) as a class, one `doExecute` method per strategy, and `Execute`. Each of these methods is proved equal to the specification function `ExecuteSpec`. It also proves the effects on the server's logs and how many times `createQuery` is called.

Three behaviours of the code a reader might not expect:

- **Named parameters use up a position.** In `bind(query)` the position counter goes up for every bindable parameter, named ones included. So with parameters `[named, positional, Pageable, positional]`, the two positional arguments are bound at positions 2 and 3. `ParameterBinding.NamedParameterConsumesPosition` proves this case.
- **Pagination applies to both query kinds.** The private `bindAndPrepare` sets first row and maximum rows on a `SqlQuery` as well as on a `Query`.
- **The slice strategy cannot work as written.** The evidently intended slicing takes `resultList` to be `findList()`'s result. The code never stores it, so it always dereferences null (see Findings). The rest of the model uses the intended behaviour.

## Model

| member | source | states |
|---|---|---|
| Common.ToInt | src/main/java/org/springframework/data/ebean/repository/query/ParameterBinder.java:172 | Java's `(int)` of a long offset: equal to it modulo 2^32, and equal to it whenever it fits in an int |
| ParameterBinding.BindableIndices | src/main/java/org/springframework/data/ebean/repository/query/ParameterBinder.java:93-101 | the indices of the bindable parameters: all in range and bindable, strictly increasing, and none left out |
| ParameterBinding.CanBindParameter | src/main/java/org/springframework/data/ebean/repository/query/ParameterBinder.java:112-114 | a parameter is bound exactly when it is neither a Pageable nor a Sort carrier |
| ParameterBinding.PositionStep | src/main/java/org/springframework/data/ebean/repository/query/ParameterBinder.java:91-99 | the query position starts at 1 and goes up by one exactly at each bindable parameter |
| ParameterBinding.BindableIndicesPrefix | src/main/java/org/springframework/data/ebean/repository/query/ParameterBinder.java:93-101 | the bindable indices of a prefix of the parameters are a prefix of those of the whole list |
| ParameterBinding.KthBindable | src/main/java/org/springframework/data/ebean/repository/query/ParameterBinder.java:95-99 | a bindable parameter at index i is bindable parameter number Position - 1, counting from 0 |
| ParameterBinding.PositionOfKth | src/main/java/org/springframework/data/ebean/repository/query/ParameterBinder.java:97-99 | bindable parameter k, counting from 0, is bound at query position k + 1 |
| ParameterBinding.BindableValueAt | src/main/java/org/springframework/data/ebean/repository/query/ParameterBinder.java:97 | `getBindableValue(bindableParameterIndex)` gives the current parameter's own argument |
| ParameterBinding.PositionsIncrease | src/main/java/org/springframework/data/ebean/repository/query/ParameterBinder.java:98 | a bindable parameter gets a smaller position than any later parameter, so no two bindable parameters share one |
| ParameterBinding.BindOne | src/main/java/org/springframework/data/ebean/repository/query/ParameterBinder.java:124-150 | one bind completes exactly when the query is a Query or SqlQuery and a named parameter has a name, and then writes the argument into the name's slot or the position's slot, adding that one key and leaving the other map and every other slot as they were; otherwise it throws the query kind's exception |
| ParameterBinding.BindAll | src/main/java/org/springframework/data/ebean/repository/query/ParameterBinder.java:86-104 | the loop over the first n parameters; the only exception it can end with is the query kind's bind exception |
| ParameterBinding.BindAllErrorSticks | src/main/java/org/springframework/data/ebean/repository/query/ParameterBinder.java:93-101 | once a bind throws, the later parameters change nothing |
| ParameterBinding.BindAllSucceeds | src/main/java/org/springframework/data/ebean/repository/query/ParameterBinder.java:124-150 | binding finishes without an exception exactly when every bindable parameter can be bound: the query is a Query or SqlQuery and every named one has a name |
| ParameterBinding.BindAllFirstFailure | src/main/java/org/springframework/data/ebean/repository/query/ParameterBinder.java:129-147 | binding stops at the first parameter that cannot be bound, with that parameter's exception and the state the earlier parameters produced |
| ParameterBinding.BindAllNothingToBind | src/main/java/org/springframework/data/ebean/repository/query/ParameterBinder.java:93-103 | with no bindable parameter the query is left alone, whatever its class |
| ParameterBinding.BindAllLast | src/main/java/org/springframework/data/ebean/repository/query/ParameterBinder.java:125-148 | one loop step: a skipped parameter changes nothing, a named one sets its name, a positional one sets its position |
| ParameterBinding.BoundPositionalValues | src/main/java/org/springframework/data/ebean/repository/query/ParameterBinder.java:140-145 | after binding, each positional argument sits at its parameter's position |
| ParameterBinding.BoundPositionalKeys | src/main/java/org/springframework/data/ebean/repository/query/ParameterBinder.java:125-145 | binding adds positional slots only at the positions of positional parameters, never for named ones |
| ParameterBinding.BoundPositionalKept | src/main/java/org/springframework/data/ebean/repository/query/ParameterBinder.java:140-145 | positional slots that no parameter reaches keep their earlier values |
| ParameterBinding.BoundNamedValues | src/main/java/org/springframework/data/ebean/repository/query/ParameterBinder.java:125-135 | after binding, each named argument sits under its name; if names repeat, the last one wins |
| ParameterBinding.BoundNamedKeys | src/main/java/org/springframework/data/ebean/repository/query/ParameterBinder.java:125-145 | binding adds named slots only under the names of named parameters, never for positional ones |
| ParameterBinding.BoundNamedKept | src/main/java/org/springframework/data/ebean/repository/query/ParameterBinder.java:125-135 | names that no named parameter uses keep their earlier values |
| ParameterBinding.NamedParameterConsumesPosition | src/main/java/org/springframework/data/ebean/repository/query/ParameterBinder.java:91-99 | `[named "a", positional, Pageable, positional]` binds "a" by name and the two positional arguments at positions 2 and 3 |
| ParameterBinding.BindableValue | src/main/java/org/springframework/data/ebean/repository/query/ParameterBinder.java:97 | the argument fetched for bindable index k is the argument of the bindable parameter that bind passes at query position k + 1 |
| ParameterBinding.HasPageableParameter | src/main/java/org/springframework/data/ebean/repository/query/ParameterBinder.java:167 | true exactly when some declared parameter is a Pageable one |
| ParameterBinding.PageableIndex | src/main/java/org/springframework/data/ebean/repository/query/ParameterBinder.java:167 | the index of the first Pageable parameter, or -1 exactly when there is none |
| ParameterBinding.PageableOf | src/main/java/org/springframework/data/ebean/repository/query/ParameterBinder.java:66-68 | the Pageable argument: none without a Pageable parameter, otherwise exactly the argument at the first Pageable parameter's index when that argument is a Pageable, and none when it is not |
| ParameterBinding.PrepareOutcome | src/main/java/org/springframework/data/ebean/repository/query/ParameterBinder.java:163-181 | bindAndPrepare on a query state: keeps its class and rows, holds the bindings bind produced, passes bind's exception on, and throws only IllegalArgument or NullPointer |
| ParameterBinding.PageRows | src/main/java/org/springframework/data/ebean/repository/query/ParameterBinder.java:170-177 | the requested page: at most page-size rows, each the matching row at offset + i, and full unless the rows run out |
| ParameterBinding.PrepareWithoutPageable | src/main/java/org/springframework/data/ebean/repository/query/ParameterBinder.java:163-169 | with no Pageable parameter, bindAndPrepare is bind: first row and maximum rows are left alone |
| ParameterBinding.PreparedQueryFetchesPage | src/main/java/org/springframework/data/ebean/repository/query/ParameterBinder.java:163-181 | with a Pageable argument, bindAndPrepare on a Query or SqlQuery completes once binding does and sets firstRow to the offset cast to int and maxRows to the page size; for an offset that fits in an int the query then fetches exactly the requested page (PageRows) |
| ParameterBinding.ParameterBinder.BindParameter | src/main/java/org/springframework/data/ebean/repository/query/ParameterBinder.java:124-150 | named parameters are bound by name and need one; others are bound by position; only a Query or SqlQuery accepts them; a throw leaves the query as it was |
| ParameterBinding.ParameterBinder.GetPageable | src/main/java/org/springframework/data/ebean/repository/query/ParameterBinder.java:66-68 | none without a Pageable parameter; otherwise exactly the binder's own argument at the Pageable parameter's index when that argument is a Pageable, and none when it is not |
| ParameterBinding.ParameterBinder.Bind | src/main/java/org/springframework/data/ebean/repository/query/ParameterBinder.java:86-104 | a null query is refused; otherwise the loop reaches BindAll's state and exception and returns the same query |
| ParameterBinding.ParameterBinder.BindAndPrepare | src/main/java/org/springframework/data/ebean/repository/query/ParameterBinder.java:158-161 | a null query is refused; otherwise the query ends in PrepareOutcome's state |
| ParameterBinding.ParameterBinder.BindAndPrepareQuery | src/main/java/org/springframework/data/ebean/repository/query/ParameterBinder.java:163-181 | bind, then for a Pageable parameter set first row (offset cast to int) and maximum rows on Query and SqlQuery alike |
| ParameterBinding.ParameterBinder.constructor | src/main/java/org/springframework/data/ebean/repository/query/ParameterBinder.java:45-55 | keeps the parameters and a fresh copy of the arguments |
| ParameterBinding.NewParameterBinder | src/main/java/org/springframework/data/ebean/repository/query/ParameterBinder.java:45-55 | null arguments and an arity mismatch are refused; otherwise a new binder with a fresh, equal copy of the arguments |
| ParameterBinding.CallerChangesAreInvisible | src/main/java/org/springframework/data/ebean/repository/query/ParameterBinder.java:53 | the caller changing its argument array after construction does not change the binder's arguments |
| QueryExecution.NewModifyingExecution | src/main/java/org/springframework/data/ebean/repository/query/EbeanQueryExecution.java:204-214 | the constructor accepts exactly void, Void, int and Integer return types, and refuses every other one with an IllegalArgumentException |
| QueryExecution.ModifyingRejectsString | src/main/java/org/springframework/data/ebean/repository/query/EbeanQueryExecution.java:206-211 | a String return type is refused |
| QueryExecution.QueryPlan.CreateQuery | src/main/java/org/springframework/data/ebean/repository/query/ParameterBinder.java:158-161 | `createQuery(values)` (its own body is not part of this model) as a new ParameterBinder followed by `bindAndPrepare`: counts the call; gives a fresh live query in Materialize's state, or Materialize's exception |
| QueryExecution.Materialize | src/main/java/org/springframework/data/ebean/repository/query/ParameterBinder.java:45-181 | the query createQuery builds keeps the plan's class and rows; building it throws only IllegalArgument (arity, binding) or NullPointer (a null Pageable) |
| QueryExecution.MaterializeSucceeds | src/main/java/org/springframework/data/ebean/repository/query/ParameterBinder.java:45-181 | building the query succeeds exactly when the arity matches, every bindable parameter can be bound, and a Query or SqlQuery with a Pageable parameter gets a non-null Pageable |
| QueryExecution.CollectionOf | src/main/java/org/springframework/data/ebean/repository/query/EbeanQueryExecution.java:72-81 | findList on a Query and on a SqlQuery alike; any other query is refused as neither |
| QueryExecution.SliceQuery | src/main/java/org/springframework/data/ebean/repository/query/EbeanQueryExecution.java:116-125 | the sliced query differs only in maxRows, which is pageSize + 1, or the wrapped int minimum when the page size is the int maximum |
| QueryExecution.SliceAsWritten | src/main/java/org/springframework/data/ebean/repository/query/EbeanQueryExecution.java:111-132 | as written, a sliced execution never returns; it dereferences null whenever the Pageable is null or the query is a Query or SqlQuery |
| QueryExecution.SliceOf | src/main/java/org/springframework/data/ebean/repository/query/EbeanQueryExecution.java:111-134 | the intended slice: it is returned exactly for a Query or SqlQuery with a Pageable, holds that Pageable, and never more rows than its page size; a null Pageable dereferences null |
| QueryExecution.PagedOf | src/main/java/org/springframework/data/ebean/repository/query/EbeanQueryExecution.java:157-166 | a Query gives a page of the fetched rows with every matching row counted in the total; a SqlQuery gives the plain list; anything else is refused |
| QueryExecution.SingleEntityOf | src/main/java/org/springframework/data/ebean/repository/query/EbeanQueryExecution.java:178-187 | findOne on a Query or SqlQuery: empty for no row, the row for one, NonUniqueResult for more |
| QueryExecution.ModifyingOf | src/main/java/org/springframework/data/ebean/repository/query/EbeanQueryExecution.java:218-227 | only a Query runs, and it returns the count of matching rows it updates; a SqlQuery is refused as not a Query |
| QueryExecution.DeletablePrefix | src/main/java/org/springframework/data/ebean/repository/query/EbeanQueryExecution.java:255-257 | how far the delete loop gets: every earlier row is accepted by the server, and the row it stops at, if any, is refused |
| QueryExecution.DeleteOf | src/main/java/org/springframework/data/ebean/repository/query/EbeanQueryExecution.java:250-271 | the delete result exists exactly for a Query or SqlQuery whose fetched rows the server all accepts, and is a list exactly for a collection method; a refused row gives the server's exception |
| QueryExecution.DeletedRows | src/main/java/org/springframework/data/ebean/repository/query/EbeanQueryExecution.java:255-266 | the rows deleted are a prefix of the fetched rows, none of them refused, stopping just before a refused row; nothing for other queries |
| QueryExecution.ExistsOf | src/main/java/org/springframework/data/ebean/repository/query/EbeanQueryExecution.java:285-290 | on a Query, true exactly when some row matches; on a SqlQuery, the single row's "c" count is positive, and no row or no "c" column dereferences null, more than one row throws |
| QueryExecution.StreamOf | src/main/java/org/springframework/data/ebean/repository/query/EbeanQueryExecution.java:317-326 | only a Query is streamed, over its fetched rows; a SqlQuery is refused as not a Query |
| QueryExecution.ExecuteSpec | src/main/java/org/springframework/data/ebean/repository/query/EbeanQueryExecution.java:49-54 | a stream without a transaction is refused first; any result needs a query createQuery could build, and createQuery's exception propagates unchanged |
| QueryExecution.CollectionReturnsPage | src/main/java/org/springframework/data/ebean/repository/query/EbeanQueryExecution.java:71-82 | a collection result holds all the plan's matching rows without a Pageable parameter, and exactly the requested page with one (offset within int range) |
| QueryExecution.SingleEntityCases | src/main/java/org/springframework/data/ebean/repository/query/EbeanQueryExecution.java:177-188 | a single-entity execution looks at the rows a collection execution returns: none gives empty, exactly [row] gives row, more than one throws NonUniqueResult |
| QueryExecution.OtherQueryRefused | src/main/java/org/springframework/data/ebean/repository/query/EbeanQueryExecution.java:79-80 | every strategy refuses a built query that is neither a Query nor a SqlQuery |
| QueryExecution.SliceContents | src/main/java/org/springframework/data/ebean/repository/query/EbeanQueryExecution.java:116-134 | the intended slice: from the first row on, the next page-size rows (or all that remain), and hasNext exactly when more remain, whatever the int cast of pageSize + 1 does |
| QueryExecution.SliceOfThreeRows | src/main/java/org/springframework/data/ebean/repository/query/EbeanQueryExecution.java:116-134 | page size 2 over three rows gives the first two rows and hasNext |
| QueryExecution.SliceAsWrittenNeverSlices | src/main/java/org/springframework/data/ebean/repository/query/EbeanQueryExecution.java:115-132 | as written, every Query or SqlQuery slice ends in a null dereference, where the intended version returns a slice |
| QueryExecution.PageTotalCountsAllRows | src/main/java/org/springframework/data/ebean/repository/query/EbeanQueryExecution.java:157-160 | a page of a Query reports every matching row in its total, and its content is no longer than that total |
| QueryExecution.PageTotalIgnoresPage | src/main/java/org/springframework/data/ebean/repository/query/EbeanQueryExecution.java:159-160 | two pages of the same query, whose arguments differ at most in the Pageable one, report the same total |
| QueryExecution.RawPagedIsPlainList | src/main/java/org/springframework/data/ebean/repository/query/EbeanQueryExecution.java:161-163 | a paged SqlQuery returns the plain fetched list, not a page |
| QueryExecution.ExistsExamples | src/main/java/org/springframework/data/ebean/repository/query/EbeanQueryExecution.java:285-290 | counts 0 and 1 give false and true on both query kinds |
| QueryExecution.DeleteReturnsDeleted | src/main/java/org/springframework/data/ebean/repository/query/EbeanQueryExecution.java:253-268 | a delete that returns has deleted every fetched row, and returns exactly those rows for a collection method, how many there were otherwise |
| QueryExecution.FailedDeleteKeepsEarlierDeletes | src/main/java/org/springframework/data/ebean/repository/query/EbeanQueryExecution.java:250-271 | a delete that throws on a refused row has deleted exactly the fetched rows before it and passes the server's exception on; one that throws before fetching deletes nothing |
| QueryExecution.SecondRowRefused | src/main/java/org/springframework/data/ebean/repository/query/EbeanQueryExecution.java:255-257 | three fetched rows with the second refused: the first is deleted and the exception propagates |
| QueryExecution.ModifyingReportsUpdate | src/main/java/org/springframework/data/ebean/repository/query/EbeanQueryExecution.java:218-227 | a modifying execution succeeds exactly on a Query that can be built, and returns the row count of the one update it runs |
| QueryExecution.DoCollection | src/main/java/org/springframework/data/ebean/repository/query/EbeanQueryExecution.java:71-82 | one createQuery; findList on a Query or SqlQuery, refused for anything else |
| QueryExecution.DoSliced | src/main/java/org/springframework/data/ebean/repository/query/EbeanQueryExecution.java:109-135 | one createQuery; maximum rows set to pageSize + 1; the intended slice (see Findings) |
| QueryExecution.DoPaged | src/main/java/org/springframework/data/ebean/repository/query/EbeanQueryExecution.java:153-167 | one createQuery; a page with the total count for a Query, the plain list for a SqlQuery |
| QueryExecution.DoSingleEntity | src/main/java/org/springframework/data/ebean/repository/query/EbeanQueryExecution.java:177-188 | one createQuery; findOne: no row gives none, one row gives it, more than one throws |
| QueryExecution.DoModifying | src/main/java/org/springframework/data/ebean/repository/query/EbeanQueryExecution.java:217-228 | one createQuery; a Query runs one update on its server and returns its count; a SqlQuery is refused; nothing is deleted |
| QueryExecution.DeleteEach | src/main/java/org/springframework/data/ebean/repository/query/EbeanQueryExecution.java:255-257 | the fetched rows are deleted in order up to the first one the server refuses, whose exception is passed on; with none refused, every row is deleted once, and nothing else changes |
| QueryExecution.DoDelete | src/main/java/org/springframework/data/ebean/repository/query/EbeanQueryExecution.java:249-272 | one createQuery; the fetched rows are deleted in order through the strategy's server, up to a refused one that ends the call with the server's exception; otherwise the rows or their number are returned |
| QueryExecution.DoExists | src/main/java/org/springframework/data/ebean/repository/query/EbeanQueryExecution.java:283-294 | one createQuery; the exists flag as ExistsOf describes it |
| QueryExecution.DoStream | src/main/java/org/springframework/data/ebean/repository/query/EbeanQueryExecution.java:311-327 | without a transaction it throws before createQuery is called; otherwise it iterates a Query and refuses a SqlQuery |
| QueryExecution.Execute | src/main/java/org/springframework/data/ebean/repository/query/EbeanQueryExecution.java:49-54 | a null query or null values are refused and change neither the plan nor any server; otherwise the strategy's result and effects, with the arguments passed through unchanged |

## Left out

- The strategy factory and the query derivation layer that picks a strategy and builds the query are not modelled. `AbstractEbeanQuery.createQuery` is not part of this model. Its effect is modelled as building a ParameterBinder (with the constructor's checks), then a fresh query of the plan's kind over the rows it matches, then `bindAndPrepare`.
- The Ebean engine is not modelled: SQL, sorting, the database, what a bound parameter means. A query carries the rows it matches. `findList` is the slice from `firstRow` of at most `maxRows` rows, where a value of zero or less means no limit. `findCount` and `update` count all matching rows.
- The `QueryIterator` behind a stream, the stream's life cycle and its closing are not modelled. A stream result is the list of rows it would produce.
- The transaction detector singleton is read in one place. It is modelled as a boolean parameter of each execution.
- ParametersParameterAccessor's own checks on the arguments are not modelled (for example its arity assertion in the slice and page strategies). Its `getPageable` is modelled as the argument of the first Pageable parameter, or none when there is no Pageable parameter or its argument is not a Pageable (null or any other object).
- QueryExecution.DoPaged: `PageableExecutionUtils.getPage` is modelled as a page of the fetched rows with the total count. Its shortcut of computing the total from the offset and the content size is not modelled, and neither is its treatment of a null Pageable.
- `getSort` and Sort parameters are not modelled, beyond being skipped by `bind`.
- The one-argument constructor `ParameterBinder(parameters)` is not modelled. It delegates with an empty argument array.
- The null assertion on the parameters object in the ParameterBinder constructor is not modelled, because a parameter list is a value here.
- Runtime `instanceof` checks are modelled by the three-way `Variant` of the built query: Query, SqlQuery, or anything else.
- The integer width of the position counter is not modelled: a method cannot declare 2^31 parameters.
- Database failures of fetches and of the update statement are not modelled: `findList`, `findOne`, `findCount`, `findPagedList`, `findIterate` and `update` always answer. The one failure modelled is the server refusing a row delete, the case the delete loop has no guard for.
- Concurrency and the exception messages are not modelled. Exceptions are distinguished by class and cause.

## Findings

| source | as written | input that shows it | evidently intended | confidence | as-written member | corrected member |
|---|---|---|---|---|---|---|
| src/main/java/org/springframework/data/ebean/repository/query/EbeanQueryExecution.java:115-132 | `resultList` is set to null and never assigned; both `findList()` results are dropped, so `resultList.size()` dereferences null | any sliced method whose query is a Query or SqlQuery, with a Pageable argument, e.g. page size 2 over three matching rows (lemma QueryExecution.SliceAsWrittenNeverSlices) | `resultList` is the `findList()` result: the first pageSize rows, with hasNext when more than pageSize rows came back (lemmas QueryExecution.SliceContents and QueryExecution.SliceOfThreeRows) | not executed | QueryExecution.SliceAsWritten | QueryExecution.SliceOf |
