/** Shared vocabulary of the request handlers: optional values, results,
    request bodies, the failures a database statement can raise, and the
    environment-injected faults that make the 500 paths reachable. */
module Common {

  datatype Option<+T> = None | Some(value: T)

  datatype Result<+T, +E> = Ok(value: T) | Err(error: E)

  /** What `await req.json()` produced: a parsed body or a syntax error. */
  datatype Json<+T> = Malformed(message: string) | Body(body: T)

  /** A unique index of the schema whose violation raised `ER_DUP_ENTRY`. */
  datatype UniqueKey = EmailKey | LicenseKey | OtherKey

  /** A value thrown inside a handler's `try` block. */
  datatype Failure =
    | DuplicateEntry(key: UniqueKey)   // an Error whose code is 'ER_DUP_ENTRY'
    | ErrorThrown(message: string)     // any other Error
    | NonErrorThrown                   // a thrown value that is not an Error

  /** The database round trips a handler performs, in the order they happen. */
  datatype Step =
    | UserInsertStep
    | SpecialtyLookupStep
    | SpecialtyInsertStep
    | ProfessionalInsertStep
    | CommitStep
    | UserLookupStep
    | AppointmentLookupStep

  /** A failure of the database that is not caused by the data (a lost
      connection, a server error): the statement at `step` raises `failure`
      instead of running. */
  datatype Fault = NoFault | FailAt(step: Step, failure: Failure)

  /** JavaScript truthiness of a string-valued field: absent and "" are falsy. */
  predicate Truthy(v: Option<string>)
  {
    v.Some? && v.value != ""
  }

  /** `.length` of a JavaScript string: UTF-16 code units, so a character
      outside the Basic Multilingual Plane, stored as a surrogate pair,
      counts twice. zod's `.min(n)` and `.max(n)` compare this count. */
  function JsLength(s: string): (n: nat)
    ensures |s| <= n <= 2 * |s|
  {
    if s == [] then 0
    else (if s[0] as int >= 0x1_0000 then 2 else 1) + JsLength(s[1..])
  }

  /** On text inside the Basic Multilingual Plane (every ASCII string
      among it) the JavaScript length is the number of characters. */
  lemma {:induction false} JsLengthOfBmp(s: string)
    requires forall i :: 0 <= i < |s| ==> s[i] as int < 0x1_0000
    ensures JsLength(s) == |s|
  {
    if s != [] {
      JsLengthOfBmp(s[1..]);
    }
  }

  /** Concatenation adds the JavaScript lengths. */
  lemma {:induction false} JsLengthAppend(a: string, b: string)
    ensures JsLength(a + b) == JsLength(a) + JsLength(b)
  {
    if a == [] {
      assert a + b == b;
    } else {
      assert (a + b)[0] == a[0];
      assert (a + b)[1..] == a[1..] + b;
      JsLengthAppend(a[1..], b);
    }
  }

  function MapOption<T, U>(f: T -> U, v: Option<T>): (r: Option<U>)
    ensures r.Some? <==> v.Some?
    ensures v.Some? ==> r.value == f(v.value)
  {
    match v
    case None => None
    case Some(x) => Some(f(x))
  }

  /** The text MySQL gives a duplicate-key error is not modelled; this
      placeholder stands for it where a handler would echo `error.message`. */
  const DuplicateEntryMessage := "ER_DUP_ENTRY"

  /** `error instanceof Error ? error.message : undefined`. */
  function Detail(f: Failure): (r: Option<string>)
    ensures r.None? <==> f.NonErrorThrown?
  {
    match f
    case DuplicateEntry(_) => Some(DuplicateEntryMessage)
    case ErrorThrown(m) => Some(m)
    case NonErrorThrown => None
  }
}
