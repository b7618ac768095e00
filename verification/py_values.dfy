/** The Python values the batch-processing code passes around as event payloads
    and request records: strings, integers, None, insertion-ordered dicts, lists,
    and the provider's reply objects. Subscripting, iteration and attribute
    access follow the Python rules, raising the Python error instead of crashing. */
module Py {

  datatype Option<+T> = None | Some(value: T)

  /** The exceptions the modelled code can raise or catch. */
  datatype Error =
    | KeyError(key: string)
    | TypeError(reason: string)
    | AttributeError(name: string)
    | ValueError(value: string)
    | ProviderError(reason: string)   // raised by the provider client (timeout, connection, rate limit, API status)
    | CallbackError(reason: string)   // raised by an event subscriber

  datatype Result<+T> = Ok(value: T) | Err(error: Error) {

    /** An exception was raised: `:-` hands it on. */
    predicate IsFailure() {
      Err?
    }

    /** The same exception, as the result of the enclosing computation. */
    function PropagateFailure<U>(): (r: Result<U>)
      requires Err?
    {
      Err(error)
    }

    /** The value computed when nothing was raised. */
    function Extract(): T
      requires Ok?
    {
      value
    }
  }

  /** A batch object as the provider's status call returns it (attributes only). */
  datatype Batch = Batch(status: string, outputFileId: Option<string>)

  datatype Value =
    | Str(s: string)
    | Int(i: int)
    | NoneValue
    | Dict(fields: seq<Field>)               // a dict, keys in insertion order
    | List(items: seq<Value>)
    | BatchObject(batch: Batch)              // a provider batch reply
    | ErrorObject(code: string, message: string)  // one entry of a provider error list

  datatype Field = Field(key: string, value: Value)

  /** A dict literal never repeats a key. */
  ghost predicate DistinctKeys(fields: seq<Field>) {
    forall i, j :: 0 <= i < j < |fields| ==> fields[i].key != fields[j].key
  }

  /** The value bound to `key`, if any. */
  function Lookup(fields: seq<Field>, key: string): (r: Option<Value>)
    ensures r.None? <==> forall i :: 0 <= i < |fields| ==> fields[i].key != key
    ensures r.Some? ==> exists i :: 0 <= i < |fields| && fields[i] == Field(key, r.value)
  {
    if fields == [] then None
    else if fields[0].key == key then Some(fields[0].value)
    else
      var r := Lookup(fields[1..], key);
      assert r.Some? ==> exists i :: 0 <= i < |fields[1..]| && fields[1..][i] == Field(key, r.value);
      r
  }

  /** In a dict without repeated keys, looking up a key finds its own binding. */
  lemma {:induction false} LookupLiteral(fields: seq<Field>, i: nat)
    requires DistinctKeys(fields)
    requires i < |fields|
    ensures Lookup(fields, fields[i].key) == Some(fields[i].value)
  {
    if i > 0 {
      assert fields[0].key != fields[i].key;
      assert DistinctKeys(fields[1..]) by {
        forall a, b | 0 <= a < b < |fields[1..]|
          ensures fields[1..][a].key != fields[1..][b].key
        {
          assert fields[1..][a] == fields[a + 1] && fields[1..][b] == fields[b + 1];
        }
      }
      LookupLiteral(fields[1..], i - 1);
    }
  }

  /** Subscripting a dict without repeated keys by one of its keys gives that
      key's own value. */
  lemma SubscriptLiteral(fields: seq<Field>, i: nat)
    requires DistinctKeys(fields)
    requires i < |fields|
    ensures Subscript(Dict(fields), fields[i].key) == Ok(fields[i].value)
  {
    LookupLiteral(fields, i);
  }

  /** `v[key]` with a string key: only a dict can be subscripted by a string. */
  function Subscript(v: Value, key: string): (r: Result<Value>)
    ensures !v.Dict? ==> r.Err? && r.error.TypeError?
    ensures v.Dict? ==> (r.Ok? <==> exists i :: 0 <= i < |v.fields| && v.fields[i].key == key)
    ensures v.Dict? && r.Err? ==> r.error == KeyError(key)
    ensures r.Ok? ==> exists i :: 0 <= i < |v.fields| && v.fields[i] == Field(key, r.value)
  {
    match v
    case Dict(fields) =>
      (match Lookup(fields, key)
       case Some(x) => Ok(x)
       case None => Err(KeyError(key)))
    case _ => Err(TypeError("object is not subscriptable"))
  }

  function Keys(fields: seq<Field>): (ks: seq<Value>)
    ensures |ks| == |fields|
    ensures forall i :: 0 <= i < |fields| ==> ks[i] == Str(fields[i].key)
  {
    seq(|fields|, i requires 0 <= i < |fields| => Str(fields[i].key))
  }

  function Chars(s: string): (cs: seq<Value>)
    ensures |cs| == |s|
    ensures forall i :: 0 <= i < |s| ==> cs[i] == Str([s[i]])
  {
    seq(|s|, i requires 0 <= i < |s| => Str([s[i]]))
  }

  /** `for x in v`: a list yields its items, a dict its keys, a string its
      one-character strings; anything else is not iterable. */
  function Iterate(v: Value): (r: Result<seq<Value>>)
    ensures r.Ok? <==> v.List? || v.Dict? || v.Str?
    ensures v.List? ==> r == Ok(v.items)
    ensures v.Dict? ==> r.Ok? && |r.value| == |v.fields|
    ensures v.Str? ==> r.Ok? && |r.value| == |v.s|
  {
    match v
    case List(items) => Ok(items)
    case Dict(fields) => Ok(Keys(fields))
    case Str(s) => Ok(Chars(s))
    case _ => Err(TypeError("object is not iterable"))
  }

  /** `(e.code, e.message)` of a provider error entry. */
  function ErrorParts(v: Value): (r: Result<(string, string)>)
    ensures r.Ok? <==> v.ErrorObject?
    ensures r.Ok? ==> r.value == (v.code, v.message)
    ensures r.Err? ==> r.error == AttributeError("code")
  {
    match v
    case ErrorObject(code, message) => Ok((code, message))
    case _ => Err(AttributeError("code"))
  }

  /** Lists: concatenation regroups freely. */
  lemma ConcatAssoc<T>(a: seq<T>, b: seq<T>, c: seq<T>)
    ensures a + (b + c) == (a + b) + c
  {
  }

  /** Lists: the first i elements are the head, then the first i - 1 of the
      tail; what follows position i is what follows position i - 1 of the tail. */
  lemma SliceAfterHead<T>(s: seq<T>, i: nat)
    requires 0 < i < |s|
    ensures s[..i] == [s[0]] + s[1..][..i - 1]
    ensures s[i + 1..] == s[1..][i..]
  {
  }

  /** Lists: appending x adds one x to the count. */
  lemma CountAppendOne<T>(s: seq<T>, x: T, t: seq<T>)
    requires t == s + [x]
    ensures multiset(t)[x] == multiset(s)[x] + 1
    ensures |t| == |s| + 1
  {
    assert multiset(s + [x]) == multiset(s) + multiset{x};
  }
}
