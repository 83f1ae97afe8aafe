/**
 * Record values as the application sees them: a JavaScript object is a map from
 * property names to values, an absent property reads as `undefined`, and the
 * timestamps are opaque.
 */
module Values {
  import opened JsText

  /** Every property name used by job, interview and document records. */
  datatype Field =
    | Id | CompanyName | JobTitle | AppliedDate | Outcome | Notes
    | ContactName | ContactEmail | ContactPhone | JobPostingUrl | Priority | AutoFollowUp
    | CreatedAt | UserId
    | JobId | InterviewDateTime | Interviewers | ContactInfo
    | Title | FilePath

  /** A JavaScript `Date`, kept as the arguments it was built from. */
  datatype Instant =
    | Clock(millis: int)                            // new Date(): the current time
    | LocalCalendar(year: Num, monthIndex: Num, day: Num,
                    hours: int, minutes: int, seconds: int)  // new Date(y, m, d, h, min, s)
    | Parsed(text: string)                          // new Date(text)

  datatype Value =
    | Undefined
    | Str(s: string)
    | Bool(b: bool)
    | DateTime(at: Instant)
    | ServerTimestamp                               // serverTimestamp(): filled in by the store

  type Doc = map<Field, Value>

  /** `obj[f]`: an absent property reads as `undefined`. */
  function Lookup(obj: Doc, f: Field): Value {
    if f in obj then obj[f] else Undefined
  }

  /** JavaScript truthiness: `undefined`, `''` and `false` are falsy, objects are truthy. */
  predicate Truthy(v: Value) {
    match v
    case Undefined => false
    case Str(s) => s != ""
    case Bool(b) => b
    case _ => true
  }

  /** `text || undefined` */
  function OrUndefined(text: string): (v: Value)
    ensures v == Undefined <==> text == ""
    ensures v != Undefined ==> v == Str(text)
  {
    if text == "" then Undefined else Str(text)
  }

  /** `removeUndefinedFields`: keeps the entries whose value is not `undefined`. */
  function RemoveUndefinedFields(obj: Doc): (r: Doc)
    ensures forall f :: f in r <==> f in obj && obj[f] != Undefined
    ensures forall f | f in r :: r[f] == obj[f]
  {
    map f | f in obj && obj[f] != Undefined :: obj[f]
  }

  /** Dropping the undefined entries is invisible to every read, and leaves no undefined entry. */
  lemma RemoveUndefinedFieldsPreservesReads(obj: Doc, f: Field)
    ensures Lookup(RemoveUndefinedFields(obj), f) == Lookup(obj, f)
    ensures f in RemoveUndefinedFields(obj) ==> RemoveUndefinedFields(obj)[f] != Undefined
  {
  }

  /** Filtering twice is filtering once. */
  lemma RemoveUndefinedFieldsIdempotent(obj: Doc)
    ensures RemoveUndefinedFields(RemoveUndefinedFields(obj)) == RemoveUndefinedFields(obj)
  {
  }

  /** `{ ...a, ...b }`: a property of `b` wins over the same property of `a`. */
  lemma LookupSpread(a: Doc, b: Doc, f: Field)
    ensures Lookup(a + b, f) == if f in b then b[f] else Lookup(a, f)
    ensures f in a + b <==> f in a || f in b
  {
  }

  /** `{ id, ...data }`: the document id, overridden by an `id` property of the data if there is one. */
  function WithId(id: string, data: Doc): (obj: Doc)
    ensures obj.Keys == data.Keys + {Id}
    ensures Lookup(obj, Id) == if Id in data then data[Id] else Str(id)
    ensures forall f | f in data :: obj[f] == data[f]
  {
    map[Id := Str(id)] + data
  }
}
