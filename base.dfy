/** Values shared by every module of the model: optional values, the outcome of an
    operation that may throw, and a JavaScript property that may be undefined or null. */
module Base {

  datatype Option<+T> = None | Some(value: T)

  /** The outcome of a JavaScript call that either returns a value or throws an Error
      whose message is `msg`. */
  datatype Result<+T> = Ok(value: T) | Err(msg: string)

  /** A property read from a JavaScript object: missing (undefined), explicitly null,
      or present with a value. Prisma ignores an undefined field in an update and stores
      null for it in a create. */
  datatype Js<+T> = Undefined | Null | Val(v: T)
  {
    predicate IsNullish() { Undefined? || Null? }
  }

  /** JavaScript truthiness of a string property: present and not the empty string. */
  predicate TruthyStr(s: Js<string>) {
    s.Val? && s.v != ""
  }

  /** A value of a Prisma update: `Keep` for an undefined field (left as it is), otherwise
      the value to write. */
  datatype Update<+T> = Keep | Set(to: T)

  function Apply<T>(u: Update<T>, old_: T): T {
    match u
    case Keep => old_
    case Set(v) => v
  }

  /** `x || undefined` on an update: a truthy string is written, anything else is left alone. */
  function StrOrKeep(s: Js<string>): (u: Update<Option<string>>)
    ensures u.Set? <==> TruthyStr(s)
    ensures u.Set? ==> u.to == Some(s.v)
  {
    if TruthyStr(s) then Set(Some(s.v)) else Keep
  }

  /** `x || null` on a create: a truthy string is stored, anything else becomes null. */
  function StrOrNull(s: Js<string>): (r: Option<string>)
    ensures r.Some? <==> TruthyStr(s)
    ensures r.Some? ==> r.value == s.v
  {
    if TruthyStr(s) then Some(s.v) else None
  }

  /** An optional parsed value on an update: present values are written, absent ones leave
      the stored value alone (`x ? parse(x) : undefined`). */
  function OptOrKeep<T>(x: Option<T>): (u: Update<Option<T>>)
    ensures u.Set? <==> x.Some?
    ensures u.Set? ==> u.to == x
  {
    if x.Some? then Set(x) else Keep
  }

  /** A property passed through to a Prisma update as it is: undefined leaves the column
      alone, null clears it, a value is written. */
  function UpdateOf<T>(x: Js<T>): (u: Update<Option<T>>)
    ensures u.Keep? <==> x.Undefined?
    ensures x.Null? ==> u == Set(None)
    ensures x.Val? ==> u == Set(Some(x.v))
  {
    match x
    case Undefined => Keep
    case Null => Set(None)
    case Val(v) => Set(Some(v))
  }

  /** A property passed through to a Prisma create as it is: undefined and null both leave
      the nullable column null. */
  function CreateOf<T>(x: Js<T>): (r: Option<T>)
    ensures r.Some? <==> x.Val?
    ensures r.Some? ==> r.value == x.v
  {
    if x.Val? then Some(x.v) else None
  }
}
