/** The Python operations on JSON values that the core applies, with the exceptions
    Python raises when a value is not of the kind the operation expects. */
module PyOps {
  import opened Json
  import opened Exceptions
  import Text

  /** `key in container` for a str key: a key test on a dict, a substring test on a
      str, membership on a list; TypeError on anything else. */
  function In(key: string, container: Json): (r: Result<bool>)
    ensures container.JObj? ==> r == Ok(key in container.fields)
    ensures r.Err? <==> !(container.JObj? || container.JStr? || container.JArr?)
    ensures r.Err? ==> r.error == TypeError
  {
    match container
    case JObj(fields) => Ok(key in fields)
    case JStr(s) => Ok(Text.IsSubstring(key, s))
    case JArr(items) => Ok(JStr(key) in items)
    case _ => Err(TypeError)
  }

  /** `d[key]` on a dict: KeyError when the key is missing. */
  function Lookup(d: Object, key: string): (r: Result<Json>)
    ensures r.Ok? <==> key in d
    ensures r.Ok? ==> r.value == d[key]
    ensures r.Err? ==> r.error == KeyError(JStr(key))
  {
    if key in d then Ok(d[key]) else Err(KeyError(JStr(key)))
  }

  /** `container[key]` for a str key: only a dict can be subscripted by a string;
      a list, a str, None, a bool or an int raise TypeError. */
  function Subscript(container: Json, key: string): (r: Result<Json>)
    ensures r.Ok? <==> container.JObj? && key in container.fields
    ensures r.Ok? ==> r.value == container.fields[key]
    ensures r.Err? ==> r.error == (if container.JObj? then KeyError(JStr(key)) else TypeError)
  {
    match container
    case JObj(fields) => Lookup(fields, key)
    case _ => Err(TypeError)
  }

  /** `len(j)`: defined on str, list and dict. */
  function Len(j: Json): (r: Result<nat>)
    ensures r.Ok? <==> j.JStr? || j.JArr? || j.JObj?
    ensures r.Err? ==> r.error == TypeError
  {
    match j
    case JStr(s) => Ok(|s|)
    case JArr(items) => Ok(|items|)
    case JObj(fields) => Ok(|fields|)
    case _ => Err(TypeError)
  }

  /** `j[0]` on a value whose length is positive: the first element of a list, the
      first character of a str, and a KeyError on a dict (its keys are strings). */
  function Index0(j: Json): (r: Result<Json>)
    requires Len(j).Ok? && Len(j).value > 0
    ensures j.JArr? ==> r == Ok(j.items[0])
    ensures r.Ok? <==> !j.JObj?
  {
    match j
    case JArr(items) => Ok(items[0])
    case JStr(s) => Ok(JStr([s[0]]))
    case JObj(_) => Err(KeyError(JInt(0)))
  }

  /** `d.get(key)`: the value or None on a dict; AttributeError on anything else. */
  function DictGet(d: Json, key: string): (r: Result<Json>)
    ensures r.Ok? <==> d.JObj?
    ensures r.Ok? ==> r.value == (if key in d.fields then d.fields[key] else JNull)
    ensures r.Err? ==> r.error == AttributeError
  {
    match d
    case JObj(fields) => Ok(if key in fields then fields[key] else JNull)
    case _ => Err(AttributeError)
  }

  /** `j.startswith(prefix)`: only a str has the method. */
  function StartsWith(j: Json, prefix: string): (r: Result<bool>)
    ensures r.Ok? <==> j.JStr?
    ensures r.Ok? ==> (r.value <==> prefix <= j.s)
    ensures r.Err? ==> r.error == AttributeError
  {
    match j
    case JStr(s) => Ok(prefix <= s)
    case _ => Err(AttributeError)
  }
}
