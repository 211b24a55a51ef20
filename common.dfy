/** Values shared by the parameter binder and the query execution strategies:
    results and errors, the argument values a repository method receives,
    the pagination request, result rows, and Java's int cast. */
module Common {

  datatype Option<+T> = None | Some(value: T)

  datatype Result<+T, +E> = Ok(value: T) | Err(error: E) {
    predicate IsFailure() { Err? }

    function PropagateFailure<U>(): Result<U, E>
      requires Err?
    {
      Err(error)
    }

    function Extract(): T
      requires Ok?
    {
      value
    }
  }

  /** A call that either completes or throws. */
  datatype Outcome<+E> = Pass | Fail(error: E)

  /** Why an IllegalArgumentException (Spring's Assert or an explicit throw) is raised. */
  datatype Reason =
    | NullQuery            // "EbeanQuery must not be null!" and its siblings
    | NullValues           // "Values must not be null!"
    | ArityMismatch        // "Invalid number of parameters given!"
    | UnnamedParameter     // a named parameter without a name
    | UnsupportedQueryType // "query must be Query or SqlQuery!" while binding
    | InvalidReturnType    // a modifying query declared with another return type

  /** The query classes an InvalidEbeanQueryMethodException message asks for. */
  datatype Expected = QueryOnly | QueryOrSqlQuery

  /** The exceptions the layer raises or lets escape. */
  datatype Error =
    | IllegalArgument(reason: Reason)
    | InvalidEbeanQueryMethod(expected: Expected)
    | InvalidDataAccessApiUsage   // a stream requested outside a surrounding transaction
    | NullPointer                 // a null reference dereferenced
    | NonUniqueResult             // the engine's findOne met more than one row
    | PersistenceFailure          // the server refused to delete a bean

  /** What createQuery hands back: an Ebean Query, an Ebean SqlQuery, or any other object. */
  datatype Variant = Structured | Raw | Other

  const TWO_TO_THE_32: int := 0x1_0000_0000
  const INT_MIN: int := -0x8000_0000
  const INT_MAX: int := 0x7fff_ffff

  type Int32 = x: int | INT_MIN <= x <= INT_MAX

  /** A page request: the offset (a Java long) and the page size (a Java int) of a Pageable. */
  datatype PageRequest = PageRequest(offset: nat, pageSize: nat)

  /** Spring's PageRequest refuses a page size below one; offsets and sizes stay in long and int range. */
  type Pageable = p: PageRequest | 1 <= p.pageSize <= INT_MAX && p.offset < 0x8000_0000_0000_0000
    witness PageRequest(0, 1)

  /** An argument of a repository method: null, an ordinary object, or a Pageable. */
  datatype Value = Null | Obj(id: int) | Paging(pageable: Pageable)

  /** A row the engine returns: an entity (or SqlRow) identity and its non-null columns. */
  datatype Row = Row(id: int, columns: map<string, int>)

  /** Java's narrowing cast `(int)` of a long: keep the low 32 bits, two's complement. */
  function ToInt(x: int): (r: Int32)
    ensures (r - x) % TWO_TO_THE_32 == 0
    ensures INT_MIN <= x <= INT_MAX ==> r == x
  {
    var m := x % TWO_TO_THE_32;
    if m <= INT_MAX then m else m - TWO_TO_THE_32
  }
}
