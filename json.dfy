/**
  Decoded JSON documents as the notification handler sees them after Flask has
  parsed the request body, together with the few Python operations the handler
  applies to them: `key in x`, `x[key]`, `len(x)` and `x[0]`. Each operation
  returns None where Python would raise (TypeError, KeyError, IndexError).
 */
module Json {
  import opened Wrappers

  /** A JSON value as Python's json module decodes it: objects become
      dictionaries keyed by strings, arrays become lists. Numbers are kept as
      integers; the handler only ever compares them for equality. */
  datatype Value =
    | Null
    | Bool(b: bool)
    | Num(n: int)
    | Str(s: string)
    | Arr(items: seq<Value>)
    | Obj(fields: map<string, Value>)

  /** `k in t` on two Python strings: k occurs as a contiguous piece of t. */
  predicate IsSubstring(k: string, t: string)
    ensures IsSubstring(k, t) ==> |k| <= |t|
    decreases |t|
  {
    k <= t || (t != [] && IsSubstring(k, t[1..]))
  }

  /** `key in container` with a string on the left: key lookup in a
      dictionary, element test in a list, substring test in a string; any
      other value raises TypeError (None). */
  function Contains(container: Value, key: string): (r: Option<bool>)
    ensures r.Some? <==> container.Obj? || container.Arr? || container.Str?
    ensures container.Obj? ==> r == Some(key in container.fields)
  {
    match container
    case Obj(fields) => Some(key in fields)
    case Arr(items) => Some(Str(key) in items)
    case Str(s) => Some(IsSubstring(key, s))
    case _ => None
  }

  /** `container[key]` with a string key: only a dictionary holding the key
      answers; a missing key raises KeyError, any other container TypeError. */
  function Subscript(container: Value, key: string): (r: Option<Value>)
    ensures r.Some? <==> container.Obj? && key in container.fields
    ensures r.Some? ==> r.value == container.fields[key]
  {
    if container.Obj? && key in container.fields then Some(container.fields[key]) else None
  }

  /** `len(x)`: defined on strings, lists and dictionaries. */
  function Len(x: Value): (r: Option<nat>)
    ensures r.Some? <==> x.Obj? || x.Arr? || x.Str?
    ensures x.Arr? ==> r == Some(|x.items|)
    ensures x.Str? ==> r == Some(|x.s|)
    ensures x.Obj? ==> r == Some(|x.fields|)
  {
    match x
    case Str(s) => Some(|s|)
    case Arr(items) => Some(|items|)
    case Obj(fields) => Some(|fields|)
    case _ => None
  }

  /** `x[0]`: the first element of a list, the first character of a string
      (as a one-character string); a dictionary has no key 0 (KeyError), an
      empty list or string raises IndexError. */
  function First(x: Value): (r: Option<Value>)
    ensures x.Arr? && |x.items| > 0 ==> r == Some(x.items[0])
    ensures r.Some? ==> (x.Arr? && |x.items| > 0) || (x.Str? && |x.s| > 0)
  {
    match x
    case Arr(items) => if |items| > 0 then Some(items[0]) else None
    case Str(s) => if |s| > 0 then Some(Str(s[..1])) else None
    case _ => None
  }

  /** Whether the value may be used as a dictionary key (lists and
      dictionaries may not). */
  predicate Hashable(x: Value)
  {
    !x.Arr? && !x.Obj?
  }

  /** Python's short-circuit `a and b` over conditions that may raise: b is
      only reached, and only able to raise, when a holds. */
  function AndThen(a: Option<bool>, b: Option<bool>): (r: Option<bool>)
    ensures r == Some(true) <==> a == Some(true) && b == Some(true)
    ensures a.None? ==> r.None?
    ensures a == Some(false) ==> r == Some(false)
    ensures a == Some(true) ==> r == b
  {
    match a
    case None => None
    case Some(false) => Some(false)
    case Some(true) => b
  }
}
