/** Vocabulary shared by every service model: identifiers, optional values,
    the HTTP error classes the services raise, the store's known error codes,
    and the way a `catch` block turns whatever was thrown into an HTTP error. */
module Common {

  /** Row identifiers. The repository uses UUID strings (and numbers for admins,
      sessions and cars); the model only needs them to be comparable and fresh. */
  type Id = nat

  datatype Option<+T> = None | Some(value: T) {
    /** `x ?? fallback` in the source. */
    function GetOr(fallback: T): (r: T)
      ensures Some? ==> r == value
      ensures None? ==> r == fallback
    {
      match this
      case Some(v) => v
      case None => fallback
    }

    /** A given optional value, or the stored one when none is given. */
    function Or(stored: Option<T>): (r: Option<T>)
      ensures Some? ==> r == this
      ensures None? ==> r == stored
    {
      if Some? then this else stored
    }
  }

  /** The three exception classes the services throw. */
  datatype Status = BadRequest | NotFound | InternalServerError

  datatype HttpError = HttpError(status: Status, message: string)

  datatype Result<+T> = Ok(value: T) | Err(error: HttpError)

  /** Known store error codes: unique violation, foreign-key violation,
      record required but not found, and any other code. */
  datatype StoreCode = P2002 | P2003 | P2025 | OtherCode

  /** What the store's own schema constraints decide about one write. The schema
      is not part of the model, so a service that maps store codes takes this as input. */
  datatype Verdict = Accept | Reject(code: StoreCode, message: string)

  /** What a service's `try` block can throw: an HTTP exception the service raised
      itself, a known store error, or a script error (a null dereference, a query
      the store refuses to build). */
  datatype Thrown =
    | Raised(err: HttpError)
    | StoreError(code: StoreCode, message: string)
    | ScriptError(message: string)
  {
    /** `error.message` as the `catch` blocks read it. */
    function Message(): string {
      match this
      case Raised(e) => e.message
      case StoreError(_, m) => m
      case ScriptError(m) => m
    }
  }

  /** `throw new InternalServerErrorException(prefix + error.message)`. */
  function Wrapped(prefix: string, t: Thrown): (e: HttpError)
    ensures e.status == InternalServerError && prefix <= e.message
    ensures e.message[|prefix|..] == t.Message()
  {
    HttpError(InternalServerError, prefix + t.Message())
  }

  /** A `catch` block: store errors whose code is in `handled` become the HTTP error
      given for that code; everything else is wrapped as an internal error. */
  function Caught(prefix: string, handled: map<StoreCode, HttpError>, t: Thrown): (e: HttpError)
    ensures t.StoreError? && t.code in handled ==> e == handled[t.code]
    ensures !(t.StoreError? && t.code in handled) ==>
              e.status == InternalServerError && e.message == prefix + t.Message()
  {
    if t.StoreError? && t.code in handled then handled[t.code] else Wrapped(prefix, t)
  }

  /** The message of the TypeError raised when a property of `null` is read. */
  function NullRead(property: string): string {
    "Cannot read properties of null (reading '" + property + "')"
  }

  /** The message of the TypeError raised when `for ... of` walks a variable
      that holds `undefined` or `null`. */
  function NotIterable(variable: string): string {
    variable + " is not iterable"
  }

  /** What the framework answers for an error that escapes every handler
      because the promise that raised it was returned without being awaited. */
  const Unhandled: HttpError := HttpError(InternalServerError, "Internal server error")

  /** The message of the store error raised when an update or delete finds no row. */
  const RecordNotFound: string := "Record to update not found."

  /** The message of the store error raised when a lookup is given an undefined key. */
  const UndefinedKey: string := "Argument `where` of type WhereUniqueInput needs at least one argument."

  function Digit(d: nat): char
    requires d < 10
  {
    "0123456789"[d]
  }

  /** Decimal rendering of an identifier or count, as template strings show numbers. */
  function Show(n: nat): (s: string)
    ensures |s| > 0 && '0' <= s[0] <= '9'
    decreases n
  {
    if n < 10 then [Digit(n)] else Show(n / 10) + [Digit(n % 10)]
  }

  /** A JavaScript integer as a template literal renders it. */
  function ShowInt(n: int): (s: string)
    ensures |s| > 0
    ensures (s[0] == '-') <==> n < 0
  {
    if n < 0 then "-" + Show(-n) else Show(n)
  }

  /** Decimal digits only, so a rendered number never holds a sign, a space or a newline. */
  lemma {:induction false} ShowDigits(n: nat)
    ensures forall i :: 0 <= i < |Show(n)| ==> '0' <= Show(n)[i] <= '9'
    decreases n
  {
    if n >= 10 {
      ShowDigits(n / 10);
    }
  }

  /** The rows left after every row owned by `id` is deleted, where `owner`
      reads a row's owning identifier. */
  function Without<R>(rows: map<Id, R>, owner: R -> Id, id: Id): (r: map<Id, R>)
    ensures forall k :: k in r <==> k in rows && owner(rows[k]) != id
    ensures forall k :: k in r ==> r[k] == rows[k]
  {
    map k | k in rows && owner(rows[k]) != id :: rows[k]
  }

  /** Every key of the table is below the next fresh identifier. */
  ghost predicate KeysBelow<T>(table: map<Id, T>, bound: nat) {
    forall k :: k in table ==> k < bound
  }

  lemma KeysBelowGrow<T>(table: map<Id, T>, bound: nat, larger: nat)
    requires KeysBelow(table, bound) && bound <= larger
    ensures KeysBelow(table, larger)
  {
  }
}
