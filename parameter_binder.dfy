/** ParameterBinder: binds the arguments of a repository method call to the
    parameters of a live query, by name or by 1-based position, and applies a
    Pageable argument as the query's first row and maximum row count. */
module ParameterBinding {
  import opened Common
  import opened Engine

  /** Ordinary parameters are bindable; Pageable and Sort carriers are not. */
  datatype ParameterKind = Bindable | PageableParameter | SortParameter

  /** One declared method parameter: its kind, whether it is a named parameter, and its name. */
  datatype Parameter = Parameter(kind: ParameterKind, isNamed: bool, name: Option<string>)

  /** canBindParameter(parameter) */
  predicate CanBindParameter(p: Parameter)
    ensures CanBindParameter(p) <==> !p.kind.PageableParameter? && !p.kind.SortParameter?
  {
    p.kind == Bindable
  }

  predicate IsPositional(p: Parameter)
  {
    CanBindParameter(p) && !p.isNamed
  }

  predicate IsNamed(p: Parameter)
  {
    CanBindParameter(p) && p.isNamed
  }

  /** The indices of the bindable parameters, in declaration order. */
  function BindableIndices(ps: seq<Parameter>): (r: seq<nat>)
    ensures forall j :: 0 <= j < |r| ==> r[j] < |ps| && CanBindParameter(ps[r[j]])
    ensures forall j, k :: 0 <= j < k < |r| ==> r[j] < r[k]
    ensures forall i :: 0 <= i < |ps| && CanBindParameter(ps[i]) ==> i in r
  {
    if ps == [] then []
    else
      var front := ps[..|ps| - 1];
      assert forall i :: 0 <= i < |front| ==> front[i] == ps[i];
      BindableIndices(front) + (if CanBindParameter(ps[|ps| - 1]) then [|ps| - 1] else [])
  }

  /** The query position bind passes for the parameter at index i: one more
      than the number of bindable parameters declared before it. */
  function Position(ps: seq<Parameter>, i: nat): nat
    requires i <= |ps|
  {
    |BindableIndices(ps[..i])| + 1
  }

  /** accessor.getBindableValue(k): the argument of the k-th bindable parameter, which is
      the one bind passes at query position k + 1. */
  function BindableValue(ps: seq<Parameter>, vs: seq<Value>, k: nat): (r: Value)
    requires |ps| == |vs| && k < |BindableIndices(ps)|
    ensures exists i :: 0 <= i < |ps| && CanBindParameter(ps[i]) && Position(ps, i) == k + 1 && r == vs[i]
  {
    PositionOfKth(ps, k);
    vs[BindableIndices(ps)[k]]
  }

  lemma {:induction false} BindableIndicesStep(ps: seq<Parameter>, i: nat)
    requires i < |ps|
    ensures BindableIndices(ps[..i + 1]) == BindableIndices(ps[..i]) + (if CanBindParameter(ps[i]) then [i] else [])
  {
    assert ps[..i + 1][..i] == ps[..i];
  }

  /** Counting the bindable parameters of a prefix gives a prefix of the count of the whole list. */
  lemma {:induction false} BindableIndicesPrefix(ps: seq<Parameter>, m: nat)
    requires m <= |ps|
    ensures BindableIndices(ps[..m]) <= BindableIndices(ps)
    decreases |ps| - m
  {
    if m < |ps| {
      var front := ps[..|ps| - 1];
      assert front[..m] == ps[..m];
      BindableIndicesPrefix(front, m);
    } else {
      assert ps[..m] == ps;
    }
  }

  /** The position counter: it starts at 1 and advances by one exactly at each bindable parameter. */
  lemma {:induction false} PositionStep(ps: seq<Parameter>, i: nat)
    requires i < |ps|
    ensures Position(ps, 0) == 1
    ensures Position(ps, i + 1) == Position(ps, i) + (if CanBindParameter(ps[i]) then 1 else 0)
  {
    BindableIndicesStep(ps, i);
  }

  /** A bindable parameter at index i is the (Position - 1)-th bindable one (0-based). */
  lemma {:induction false} KthBindable(ps: seq<Parameter>, i: nat)
    requires i < |ps| && CanBindParameter(ps[i])
    ensures Position(ps, i) <= |BindableIndices(ps)|
    ensures BindableIndices(ps)[Position(ps, i) - 1] == i
  {
    BindableIndicesStep(ps, i);
    BindableIndicesPrefix(ps, i + 1);
  }

  /** The k-th bindable parameter (0-based) is bound at query position k + 1. */
  lemma {:induction false} PositionOfKth(ps: seq<Parameter>, k: nat)
    requires k < |BindableIndices(ps)|
    ensures Position(ps, BindableIndices(ps)[k]) == k + 1
  {
    var i := BindableIndices(ps)[k];
    KthBindable(ps, i);
  }

  /** The value fetched for the parameter at index i is that parameter's own argument. */
  lemma {:induction false} BindableValueAt(ps: seq<Parameter>, vs: seq<Value>, i: nat)
    requires |ps| == |vs| && i < |ps| && CanBindParameter(ps[i])
    ensures Position(ps, i) - 1 < |BindableIndices(ps)|
    ensures BindableValue(ps, vs, Position(ps, i) - 1) == vs[i]
  {
    KthBindable(ps, i);
  }

  /** Positions strictly increase from a bindable parameter to any later one. */
  lemma {:induction false} PositionsIncrease(ps: seq<Parameter>, i: nat, j: nat)
    requires i < j <= |ps| && CanBindParameter(ps[i])
    ensures Position(ps, i) < Position(ps, j)
  {
    BindableIndicesStep(ps, i);
    assert ps[..j][..i + 1] == ps[..i + 1];
    BindableIndicesPrefix(ps[..j], i + 1);
  }

  /** Whether bind(query, parameter, value, position) completes for a bindable parameter. */
  predicate Binds(variant: Variant, p: Parameter)
  {
    variant != Other && (p.isNamed ==> p.name.Some?)
  }

  /** The exception bind(query, parameter, value, position) throws when it does not complete. */
  function BindError(variant: Variant): Error
  {
    if variant == Other then IllegalArgument(UnsupportedQueryType) else IllegalArgument(UnnamedParameter)
  }

  /** bind(query, parameter, value, position) on the parameter state of a query of the given variant. */
  function BindOne(variant: Variant, b: Bindings, p: Parameter, value: Value, position: int): (r: Result<Bindings, Error>)
    ensures r.Ok? <==> Binds(variant, p)
    ensures r.Err? ==> r.error == BindError(variant)
    ensures r.Ok? && p.isNamed ==>
              r.value.positional == b.positional && p.name.value in r.value.named && r.value.named[p.name.value] == value
    ensures r.Ok? && p.isNamed ==>
              r.value.named.Keys == b.named.Keys + {p.name.value} &&
              forall x :: x in b.named && x != p.name.value ==> r.value.named[x] == b.named[x]
    ensures r.Ok? && !p.isNamed ==>
              r.value.named == b.named && position in r.value.positional && r.value.positional[position] == value
    ensures r.Ok? && !p.isNamed ==>
              r.value.positional.Keys == b.positional.Keys + {position} &&
              forall x :: x in b.positional && x != position ==> r.value.positional[x] == b.positional[x]
  {
    if p.isNamed then
      if variant == Other then Err(IllegalArgument(UnsupportedQueryType))
      else if p.name.None? then Err(IllegalArgument(UnnamedParameter))
      else Ok(b.(named := b.named[p.name.value := value]))
    else if variant == Other then Err(IllegalArgument(UnsupportedQueryType))
    else Ok(b.(positional := b.positional[position := value]))
  }

  /** The bind(query) loop run over the first n parameters, starting from `init`:
      the parameter state reached and the exception that stopped the loop, if any. */
  function BindAll(variant: Variant, ps: seq<Parameter>, vs: seq<Value>, n: nat, init: Bindings): (r: (Bindings, Option<Error>))
    requires n <= |ps| == |vs|
    ensures r.1.Some? ==> r.1.value == BindError(variant)
  {
    if n == 0 then (init, None)
    else
      var (b, err) := BindAll(variant, ps, vs, n - 1, init);
      if err.Some? || !CanBindParameter(ps[n - 1]) then (b, err)
      else match BindOne(variant, b, ps[n - 1], vs[n - 1], Position(ps, n - 1))
        case Ok(b') => (b', None)
        case Err(e) => (b, Some(e))
  }

  /** Once a bind throws, the rest of the parameters change nothing. */
  lemma {:induction false} BindAllErrorSticks(variant: Variant, ps: seq<Parameter>, vs: seq<Value>, n: nat, m: nat, init: Bindings)
    requires n <= m <= |ps| == |vs|
    requires BindAll(variant, ps, vs, n, init).1.Some?
    ensures BindAll(variant, ps, vs, m, init) == BindAll(variant, ps, vs, n, init)
    decreases m
  {
    if m > n {
      BindAllErrorSticks(variant, ps, vs, n, m - 1, init);
    }
  }

  /** Binding completes exactly when the query is a Query or SqlQuery, or there is
      nothing to bind, and every bindable named parameter has a name. */
  lemma {:induction false} BindAllSucceeds(variant: Variant, ps: seq<Parameter>, vs: seq<Value>, n: nat, init: Bindings)
    requires n <= |ps| == |vs|
    ensures BindAll(variant, ps, vs, n, init).1.None? <==>
            forall i :: 0 <= i < n && CanBindParameter(ps[i]) ==> Binds(variant, ps[i])
  {
    if n > 0 {
      BindAllSucceeds(variant, ps, vs, n - 1, init);
    }
  }

  /** Binding stops at the first bindable parameter that cannot be bound, with that
      parameter's exception and the state the parameters before it produced. */
  lemma {:induction false} BindAllFirstFailure(variant: Variant, ps: seq<Parameter>, vs: seq<Value>, n: nat, i: nat, init: Bindings)
    requires i < n <= |ps| == |vs|
    requires CanBindParameter(ps[i]) && !Binds(variant, ps[i])
    requires forall j :: 0 <= j < i && CanBindParameter(ps[j]) ==> Binds(variant, ps[j])
    ensures BindAll(variant, ps, vs, n, init) == (BindAll(variant, ps, vs, i, init).0, Some(BindError(variant)))
  {
    BindAllSucceeds(variant, ps, vs, i, init);
    BindAllErrorSticks(variant, ps, vs, i + 1, n, init);
  }

  /** With no bindable parameter, binding leaves the query as it was, whatever its class. */
  lemma {:induction false} BindAllNothingToBind(variant: Variant, ps: seq<Parameter>, vs: seq<Value>, n: nat, init: Bindings)
    requires n <= |ps| == |vs|
    requires forall i :: 0 <= i < n ==> !CanBindParameter(ps[i])
    ensures BindAll(variant, ps, vs, n, init) == (init, None)
  {
    if n > 0 {
      BindAllNothingToBind(variant, ps, vs, n - 1, init);
    }
  }

  /** One completed step of the loop: a skipped parameter changes nothing, a named one
      sets its name, an unnamed one sets its position. */
  lemma {:induction false} BindAllLast(variant: Variant, ps: seq<Parameter>, vs: seq<Value>, n: nat, init: Bindings)
    requires 0 < n <= |ps| == |vs|
    requires BindAll(variant, ps, vs, n, init).1 == None
    ensures BindAll(variant, ps, vs, n - 1, init).1 == None
    ensures var prev := BindAll(variant, ps, vs, n - 1, init).0;
            var p := ps[n - 1];
            BindAll(variant, ps, vs, n, init).0 ==
              if !CanBindParameter(p) then prev
              else if p.isNamed then prev.(named := prev.named[p.name.value := vs[n - 1]])
              else prev.(positional := prev.positional[Position(ps, n - 1) := vs[n - 1]])
  {
  }

  /** After a complete bind, each unnamed bindable parameter's argument sits at its position. */
  lemma {:induction false} BoundPositionalValues(variant: Variant, ps: seq<Parameter>, vs: seq<Value>, n: nat, init: Bindings)
    requires n <= |ps| == |vs|
    requires BindAll(variant, ps, vs, n, init).1 == None
    ensures var b := BindAll(variant, ps, vs, n, init).0;
            forall i :: 0 <= i < n && IsPositional(ps[i]) ==>
              Position(ps, i) in b.positional && b.positional[Position(ps, i)] == vs[i]
  {
    if n > 0 {
      BindAllLast(variant, ps, vs, n, init);
      BoundPositionalValues(variant, ps, vs, n - 1, init);
      if CanBindParameter(ps[n - 1]) {
        forall i | 0 <= i < n - 1 && IsPositional(ps[i])
          ensures Position(ps, i) < Position(ps, n - 1)
        {
          PositionsIncrease(ps, i, n - 1);
        }
      }
    }
  }

  /** Binding adds positional slots only at the positions of unnamed bindable
      parameters; named parameters never add one. */
  lemma {:induction false} BoundPositionalKeys(variant: Variant, ps: seq<Parameter>, vs: seq<Value>, n: nat, init: Bindings)
    requires n <= |ps| == |vs|
    requires BindAll(variant, ps, vs, n, init).1 == None
    ensures var b := BindAll(variant, ps, vs, n, init).0;
            forall k :: k in b.positional ==>
              k in init.positional || exists i :: 0 <= i < n && IsPositional(ps[i]) && Position(ps, i) == k
  {
    if n > 0 {
      BindAllLast(variant, ps, vs, n, init);
      BoundPositionalKeys(variant, ps, vs, n - 1, init);
    }
  }

  /** Positional slots that no unnamed bindable parameter reaches keep their old values. */
  lemma {:induction false} BoundPositionalKept(variant: Variant, ps: seq<Parameter>, vs: seq<Value>, n: nat, init: Bindings)
    requires n <= |ps| == |vs|
    requires BindAll(variant, ps, vs, n, init).1 == None
    ensures var b := BindAll(variant, ps, vs, n, init).0;
            forall k :: k in init.positional && (forall i :: 0 <= i < n && IsPositional(ps[i]) ==> Position(ps, i) != k) ==>
              k in b.positional && b.positional[k] == init.positional[k]
  {
    if n > 0 {
      BindAllLast(variant, ps, vs, n, init);
      BoundPositionalKept(variant, ps, vs, n - 1, init);
    }
  }
  /** No later named parameter among the first n carries the name of the one at index i. */
  predicate LastWithName(ps: seq<Parameter>, n: nat, i: nat)
    requires i < n <= |ps|
  {
    forall j :: i < j < n && IsNamed(ps[j]) ==> ps[j].name != ps[i].name
  }

  /** After a complete bind, each bindable named parameter's argument sits under its
      name; when names repeat, the last such parameter wins. */
  lemma {:induction false} BoundNamedValues(variant: Variant, ps: seq<Parameter>, vs: seq<Value>, n: nat, init: Bindings)
    requires n <= |ps| == |vs|
    requires BindAll(variant, ps, vs, n, init).1 == None
    ensures var b := BindAll(variant, ps, vs, n, init).0;
            forall i :: 0 <= i < n && IsNamed(ps[i]) && ps[i].name.Some? && LastWithName(ps, n, i) ==>
              ps[i].name.value in b.named && b.named[ps[i].name.value] == vs[i]
  {
    if n > 0 {
      BindAllLast(variant, ps, vs, n, init);
      BoundNamedValues(variant, ps, vs, n - 1, init);
      forall i | 0 <= i < n - 1 && IsNamed(ps[i]) && ps[i].name.Some? && LastWithName(ps, n, i)
        ensures LastWithName(ps, n - 1, i)
      {
      }
    }
  }

  /** Binding adds named slots only under the names of named bindable parameters;
      unnamed parameters never add one. */
  lemma {:induction false} BoundNamedKeys(variant: Variant, ps: seq<Parameter>, vs: seq<Value>, n: nat, init: Bindings)
    requires n <= |ps| == |vs|
    requires BindAll(variant, ps, vs, n, init).1 == None
    ensures var b := BindAll(variant, ps, vs, n, init).0;
            forall x :: x in b.named ==>
              x in init.named || exists i :: 0 <= i < n && IsNamed(ps[i]) && ps[i].name == Some(x)
  {
    if n > 0 {
      BindAllLast(variant, ps, vs, n, init);
      BoundNamedKeys(variant, ps, vs, n - 1, init);
    }
  }

  /** Names no named bindable parameter uses keep their old values. */
  lemma {:induction false} BoundNamedKept(variant: Variant, ps: seq<Parameter>, vs: seq<Value>, n: nat, init: Bindings)
    requires n <= |ps| == |vs|
    requires BindAll(variant, ps, vs, n, init).1 == None
    ensures var b := BindAll(variant, ps, vs, n, init).0;
            forall x :: x in init.named && (forall i :: 0 <= i < n && IsNamed(ps[i]) ==> ps[i].name != Some(x)) ==>
              x in b.named && b.named[x] == init.named[x]
  {
    if n > 0 {
      BindAllLast(variant, ps, vs, n, init);
      BoundNamedKept(variant, ps, vs, n - 1, init);
    }
  }

  /** [named "a", unnamed, Pageable, unnamed]: the named parameter consumes position 1,
      so the unnamed arguments land at positions 2 and 3. */
  lemma {:induction false} NamedParameterConsumesPosition(a: Value, x: Value, p: Pageable, y: Value)
    ensures var ps := [Parameter(Bindable, true, Some("a")), Parameter(Bindable, false, None),
                       Parameter(PageableParameter, false, None), Parameter(Bindable, false, None)];
            BindAll(Structured, ps, [a, x, Paging(p), y], 4, NoBindings) == (Bindings(map[2 := x, 3 := y], map["a" := a]), None)
  {
    var ps := [Parameter(Bindable, true, Some("a")), Parameter(Bindable, false, None),
               Parameter(PageableParameter, false, None), Parameter(Bindable, false, None)];
    PositionStep(ps, 0);
    PositionStep(ps, 1);
    PositionStep(ps, 2);
    var vs := [a, x, Paging(p), y];
    assert Position(ps, 0) == 1 && Position(ps, 1) == 2 && Position(ps, 3) == 3;
    assert BindAll(Structured, ps, vs, 1, NoBindings) == (Bindings(map[], map["a" := a]), None);
    assert BindAll(Structured, ps, vs, 2, NoBindings) == (Bindings(map[2 := x], map["a" := a]), None);
    assert BindAll(Structured, ps, vs, 3, NoBindings) == (Bindings(map[2 := x], map["a" := a]), None);
    assert map[2 := x][3 := y] == map[2 := x, 3 := y];
  }

  /** Parameters.getPageableIndex(): the index of the first Pageable parameter, or -1. */
  function PageableIndex(ps: seq<Parameter>): (r: int)
    ensures -1 <= r < |ps|
    ensures r == -1 <==> forall i :: 0 <= i < |ps| ==> !ps[i].kind.PageableParameter?
    ensures r >= 0 ==> ps[r].kind.PageableParameter? && forall i :: 0 <= i < r ==> !ps[i].kind.PageableParameter?
  {
    if ps == [] then -1
    else if ps[0].kind.PageableParameter? then 0
    else
      var r := PageableIndex(ps[1..]);
      if r == -1 then -1 else r + 1
  }

  /** Parameters.hasPageableParameter() */
  predicate HasPageableParameter(ps: seq<Parameter>)
    ensures HasPageableParameter(ps) <==> exists i :: 0 <= i < |ps| && ps[i].kind.PageableParameter?
  {
    PageableIndex(ps) != -1
  }

  /** accessor.getPageable(): the Pageable argument, or None when there is no
      Pageable parameter or its argument is not a Pageable (null or any other object). */
  function PageableOf(ps: seq<Parameter>, vs: seq<Value>): (r: Option<Pageable>)
    ensures !HasPageableParameter(ps) ==> r == None
    ensures r.Some? ==> PageableIndex(ps) < |vs| && vs[PageableIndex(ps)] == Paging(r.value)
    ensures HasPageableParameter(ps) && PageableIndex(ps) < |vs| && vs[PageableIndex(ps)].Paging? ==>
              r == Some(vs[PageableIndex(ps)].pageable)
  {
    var i := PageableIndex(ps);
    if 0 <= i < |vs| && vs[i].Paging? then Some(vs[i].pageable) else None
  }

  /** bindAndPrepare(query): bind, then, when a Pageable parameter is declared and the
      query is a Query or SqlQuery, set firstRow to the offset cast to int and maxRows to
      the page size. Gives the state reached and the exception thrown, if any. */
  function PrepareOutcome(s: QueryState, ps: seq<Parameter>, vs: seq<Value>): (r: (QueryState, Option<Error>))
    requires |ps| == |vs|
    ensures r.0.variant == s.variant && r.0.rows == s.rows
    ensures r.0.bindings == BindAll(s.variant, ps, vs, |ps|, s.bindings).0
    ensures BindAll(s.variant, ps, vs, |ps|, s.bindings).1.Some? ==> r.1 == BindAll(s.variant, ps, vs, |ps|, s.bindings).1
    ensures r.1.Some? ==> r.1.value.IllegalArgument? || r.1.value == NullPointer
  {
    var (b, err) := BindAll(s.variant, ps, vs, |ps|, s.bindings);
    var bound := s.(bindings := b);
    if err.Some? || !HasPageableParameter(ps) || s.variant == Other then (bound, err)
    else match PageableOf(ps, vs)
      case None => (bound, Some(NullPointer))
      case Some(p) => (bound.(firstRow := ToInt(p.offset), maxRows := p.pageSize), None)
  }

  /** Without a Pageable parameter, bindAndPrepare is bind: the window is untouched. */
  lemma {:induction false} PrepareWithoutPageable(s: QueryState, ps: seq<Parameter>, vs: seq<Value>)
    requires |ps| == |vs| && forall i :: 0 <= i < |ps| ==> !ps[i].kind.PageableParameter?
    ensures PrepareOutcome(s, ps, vs) ==
            (s.(bindings := BindAll(s.variant, ps, vs, |ps|, s.bindings).0), BindAll(s.variant, ps, vs, |ps|, s.bindings).1)
  {
  }

  /** The rows of page p among `rows`: from its offset on, at most its page size of them. */
  function PageRows(rows: seq<Row>, p: Pageable): (r: seq<Row>)
    ensures |r| <= p.pageSize
    ensures forall i :: 0 <= i < |r| ==> p.offset + i < |rows| && r[i] == rows[p.offset + i]
    ensures |r| == p.pageSize || p.offset + |r| >= |rows|
  {
    var from := if p.offset < |rows| then p.offset else |rows|;
    var n := if p.pageSize < |rows| - from then p.pageSize else |rows| - from;
    rows[from..from + n]
  }

  /** With a Pageable argument, bindAndPrepare on a Query or SqlQuery completes once binding
      does, and sets firstRow to the offset cast to int and maxRows to the page size; for an
      offset that fits in an int the query then fetches exactly the requested page. */
  lemma {:induction false} PreparedQueryFetchesPage(s: QueryState, ps: seq<Parameter>, vs: seq<Value>, p: Pageable)
    requires |ps| == |vs| && s.variant != Other && PageableOf(ps, vs) == Some(p)
    requires BindAll(s.variant, ps, vs, |ps|, s.bindings).1 == None
    ensures var (t, err) := PrepareOutcome(s, ps, vs);
            && err == None
            && t.bindings == BindAll(s.variant, ps, vs, |ps|, s.bindings).0
            && t.firstRow == ToInt(p.offset) && t.maxRows == p.pageSize
            && (p.offset <= INT_MAX ==> FindList(t) == PageRows(s.rows, p))
  {
    var (t, err) := PrepareOutcome(s, ps, vs);
    WindowShape(t.rows, t.firstRow, t.maxRows);
  }

  /** ParameterBinder: the method's declared parameters and a private copy of the arguments. */
  class ParameterBinder {
    const parameters: seq<Parameter>
    const values: array<Value>

    /** The arity the constructor checks. */
    ghost predicate Valid()
    {
      |parameters| == values.Length
    }

    /** Stores the parameters and a fresh copy of the given arguments; callers go
        through NewParameterBinder, which performs the constructor's checks. */
    constructor (parameters: seq<Parameter>, values: array<Value>)
      requires |parameters| == values.Length
      ensures Valid() && this.parameters == parameters
      ensures fresh(this.values) && this.values[..] == values[..]
    {
      this.parameters := parameters;
      this.values := new Value[values.Length](i reads values requires 0 <= i < values.Length => values[i]);
    }

    /** getPageable() */
    function GetPageable(): (r: Option<Pageable>)
      reads values
      ensures !HasPageableParameter(parameters) ==> r == None
      ensures r.Some? ==> PageableIndex(parameters) < values.Length && values[PageableIndex(parameters)] == Paging(r.value)
      ensures HasPageableParameter(parameters) && PageableIndex(parameters) < values.Length && values[PageableIndex(parameters)].Paging? ==>
                r == Some(values[PageableIndex(parameters)].pageable)
    {
      PageableOf(parameters, values[..])
    }

    /** bind(query, parameter, value, position): a named parameter binds by name (which
        must exist), any other by position; the query must be a Query or SqlQuery. */
    method BindParameter(q: Query, parameter: Parameter, value: Value, position: int) returns (r: Outcome<Error>)
      modifies q
      ensures match BindOne(q.variant, old(q.Params()), parameter, value, position)
              case Ok(b) => r == Pass && q.State() == old(q.State()).(bindings := b)
              case Err(e) => r == Fail(e) && q.State() == old(q.State())
    {
      if parameter.isNamed {
        if q.variant == Structured || q.variant == Raw {
          // Query and SqlQuery: a named parameter without a name throws IllegalArgument
          if parameter.name.None? {
            return Fail(IllegalArgument(UnnamedParameter));
          }
          q.SetNamedParameter(parameter.name.value, value);
        } else {
          return Fail(IllegalArgument(UnsupportedQueryType));
        }
      } else {
        if q.variant == Structured || q.variant == Raw {
          q.SetParameter(position, value);
        } else {
          return Fail(IllegalArgument(UnsupportedQueryType));
        }
      }
      return Pass;
    }

    /** bind(query): walks the parameters with a bindable-value index and a 1-based
        query position, binding every bindable one; returns the same query. */
    method Bind(q: Query?) returns (r: Result<Query, Error>)
      requires Valid()
      modifies q
      ensures q == null ==> r == Err(IllegalArgument(NullQuery))
      ensures q != null ==>
                var (b, err) := BindAll(q.variant, parameters, values[..], |parameters|, old(q.Params()));
                && q.State() == old(q.State()).(bindings := b)
                && r == (if err == None then Ok(q) else Err(err.value))
    {
      if q == null {
        return Err(IllegalArgument(NullQuery));
      }
      ghost var vs := values[..];
      ghost var init := q.Params();
      var bindableParameterIndex := 0;
      var queryParameterPosition := 1;
      var i := 0;
      while i < |parameters|
        invariant 0 <= i <= |parameters|
        invariant bindableParameterIndex == |BindableIndices(parameters[..i])|
        invariant queryParameterPosition == bindableParameterIndex + 1
        invariant BindAll(q.variant, parameters, vs, i, init) == (q.Params(), None)
        invariant q.State() == old(q.State()).(bindings := q.Params())
      {
        var parameter := parameters[i];
        BindableIndicesStep(parameters, i);
        if CanBindParameter(parameter) {
          BindableValueAt(parameters, vs, i);
          assert Position(parameters, i) == queryParameterPosition;
          var value := BindableValue(parameters, values[..], bindableParameterIndex);
          assert value == vs[i];
          ghost var before := q.Params();
          var bound := BindParameter(q, parameter, value, queryParameterPosition);
          queryParameterPosition := queryParameterPosition + 1;
          if bound.Fail? {
            assert BindAll(q.variant, parameters, vs, i + 1, init) == (before, Some(bound.error));
            BindAllErrorSticks(q.variant, parameters, vs, i + 1, |parameters|, init);
            return Err(bound.error);
          }
          assert BindAll(q.variant, parameters, vs, i + 1, init) == (q.Params(), None);
          bindableParameterIndex := bindableParameterIndex + 1;
        }
        i := i + 1;
      }
      return Ok(q);
    }

    /** bindAndPrepare(query): rejects a null query, then runs the private bindAndPrepare. */
    method BindAndPrepare(q: Query?) returns (r: Result<Query, Error>)
      requires Valid()
      modifies q
      ensures q == null ==> r == Err(IllegalArgument(NullQuery))
      ensures q != null ==>
                var (s, err) := PrepareOutcome(old(q.State()), parameters, values[..]);
                q.State() == s && r == (if err == None then Ok(q) else Err(err.value))
    {
      if q == null {
        return Err(IllegalArgument(NullQuery));
      }
      r := BindAndPrepareQuery(q);
    }

    /** The private bindAndPrepare(query, parameters), called with the binder's own parameters:
        pagination goes to a Query and to a SqlQuery alike. */
    method BindAndPrepareQuery(q: Query) returns (r: Result<Query, Error>)
      requires Valid()
      modifies q
      ensures var (s, err) := PrepareOutcome(old(q.State()), parameters, values[..]);
              q.State() == s && r == (if err == None then Ok(q) else Err(err.value))
    {
      var result := Bind(q);
      if result.Err? {
        return result;
      }
      if !HasPageableParameter(parameters) {
        return result;
      }
      if q.variant == Structured {
        var pageable := GetPageable();
        if pageable.None? {
          return Err(NullPointer);
        }
        q.SetFirstRow(ToInt(pageable.value.offset));
        q.SetMaxRows(pageable.value.pageSize);
      } else if q.variant == Raw {
        var pageable := GetPageable();
        if pageable.None? {
          return Err(NullPointer);
        }
        q.SetFirstRow(ToInt(pageable.value.offset));
        q.SetMaxRows(pageable.value.pageSize);
      }
      return result;
    }
  }

  /** new ParameterBinder(parameters, values): values must not be null and must match the
      parameters in number; the binder keeps a fresh copy of them. */
  method NewParameterBinder(parameters: seq<Parameter>, values: array?<Value>) returns (r: Result<ParameterBinder, Error>)
    ensures values == null ==> r == Err(IllegalArgument(NullValues))
    ensures values != null && |parameters| != values.Length ==> r == Err(IllegalArgument(ArityMismatch))
    ensures values != null && |parameters| == values.Length ==>
              && r.Ok? && fresh(r.value) && fresh(r.value.values) && r.value.Valid()
              && r.value.parameters == parameters && r.value.values[..] == values[..]
  {
    if values == null {
      return Err(IllegalArgument(NullValues));
    }
    if |parameters| != values.Length {
      return Err(IllegalArgument(ArityMismatch));
    }
    var binder := new ParameterBinder(parameters, values);
    return Ok(binder);
  }

  /** A caller that changes its argument array after constructing a binder does not
      change the binder's arguments. */
  method CallerChangesAreInvisible(parameters: seq<Parameter>, values: array<Value>, i: nat, v: Value)
    returns (binder: ParameterBinder)
    requires |parameters| == values.Length && i < values.Length
    modifies values
    ensures values[i] == v
    ensures binder.Valid() && binder.values[..] == old(values[..])
  {
    var created := NewParameterBinder(parameters, values);
    binder := created.value;
    values[i] := v;
  }
}
