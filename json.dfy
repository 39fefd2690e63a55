/**
 * JSON values as Python's `json` module hands them to app.py, and the few
 * operations of Python's dict, list and str types that app.py applies to them:
 * `.get(key, default)`, `v[key]`, iteration with `for`, truthiness (`if not v`)
 * and formatting inside an f-string. Each operation returns the exception
 * Python would raise when the value has the wrong shape.
 */
module Json {
  import opened Wrappers

  /** A parsed JSON value. An object keeps its members in document order, as a
      Python dict keeps insertion order. */
  datatype Value =
    | Null
    | Bool(b: bool)
    | Int(n: int)
    | Str(s: string)
    | Arr(elems: seq<Value>)
    | Obj(members: seq<(string, Value)>)

  /** The exceptions app.py can raise while reading a value of an unexpected shape. */
  datatype Fault =
    | NoAttribute(typeName: string, attr: string)  // AttributeError
    | KeyMissing(key: string)                      // KeyError
    | NotIterable(typeName: string)                // TypeError raised by a `for` loop
    | NotSubscriptable(typeName: string)           // TypeError raised by `v['key']`
  {
    /** `str(e)` of the exception, in CPython 3.11's wording. */
    function Message(): (r: string)
      ensures r != []
      ensures KeyMissing? ==> r == "'" + key + "'"
    {
      match this
      case NoAttribute(t, a) => "'" + t + "' object has no attribute '" + a + "'"
      case KeyMissing(k) => "'" + k + "'"
      case NotIterable(t) => "'" + t + "' object is not iterable"
      case NotSubscriptable(t) =>
        if t == "str" then "string indices must be integers, not 'str'"
        else if t == "list" then "list indices must be integers or slices, not str"
        else "'" + t + "' object is not subscriptable"
    }
  }

  /** The name of the Python type `json.loads` gives for the value. */
  function TypeName(v: Value): string {
    match v
    case Null => "NoneType"
    case Bool(_) => "bool"
    case Int(_) => "int"
    case Str(_) => "str"
    case Arr(_) => "list"
    case Obj(_) => "dict"
  }

  /** The value a dict holds for `key`. `json.loads` keeps the last of repeated
      keys, so the last member with that key is the one found. */
  function Lookup(members: seq<(string, Value)>, key: string): Option<Value>
    decreases |members|
  {
    if |members| == 0 then None
    else if members[|members| - 1].0 == key then Some(members[|members| - 1].1)
    else Lookup(members[..|members| - 1], key)
  }

  /** A key is found exactly when some member has it, and what is found is the
      value of the last member with that key. */
  lemma {:induction false} LookupSpec(members: seq<(string, Value)>, key: string)
    ensures Lookup(members, key).Some? <==> exists i :: 0 <= i < |members| && members[i].0 == key
    ensures Lookup(members, key).Some? ==>
              exists i :: 0 <= i < |members| && members[i] == (key, Lookup(members, key).value) &&
                          forall j :: i < j < |members| ==> members[j].0 != key
    decreases |members|
  {
    if |members| > 0 && members[|members| - 1].0 != key {
      var prefix := members[..|members| - 1];
      LookupSpec(prefix, key);
      assert forall i :: 0 <= i < |members| - 1 ==> prefix[i] == members[i];
    }
  }

  /** No member of the dict has the key. */
  predicate NoKey(members: seq<(string, Value)>, key: string) {
    forall i :: 0 <= i < |members| ==> members[i].0 != key
  }

  /** In a dict whose keys are all different, a key's value is the one stored with it. */
  lemma LookupUnique(members: seq<(string, Value)>, i: nat)
    requires i < |members|
    requires forall j :: 0 <= j < |members| && j != i ==> members[j].0 != members[i].0
    ensures Lookup(members, members[i].0) == Some(members[i].1)
  {
    LookupSpec(members, members[i].0);
  }

  /** `d.get(key, default)` on a dict: the stored value, or the default when the key is absent. */
  function Field(members: seq<(string, Value)>, key: string, default: Value): Value {
    Lookup(members, key).GetOr(default)
  }

  /** Python's `v.get(key, default)`: only a dict has a `get` method. */
  function Get(v: Value, key: string, default: Value): (r: Result<Value, Fault>)
    ensures r.Ok? <==> v.Obj?
    ensures v.Obj? ==> r == Ok(Field(v.members, key, default))
    ensures r.Err? ==> r.error == NoAttribute(TypeName(v), "get")
  {
    match v
    case Obj(ms) => Ok(Field(ms, key, default))
    case _ => Err(NoAttribute(TypeName(v), "get"))
  }

  /** Python's `v[key]` with a string key: a KeyError on a dict without the key,
      a TypeError on anything that is not a dict. */
  function Index(v: Value, key: string): (r: Result<Value, Fault>)
    ensures r.Ok? <==> v.Obj? && Lookup(v.members, key).Some?
    ensures r.Ok? ==> r.value == Lookup(v.members, key).value
    ensures r.Err? && v.Obj? ==> r.error == KeyMissing(key)
    ensures !v.Obj? ==> r == Err(NotSubscriptable(TypeName(v)))
  {
    match v
    case Obj(ms) =>
      var found := Lookup(ms, key);
      if found.Some? then Ok(found.value) else Err(KeyMissing(key))
    case _ => Err(NotSubscriptable(TypeName(v)))
  }

  /** The keys of a dict in insertion order: a repeated key keeps the place of its first occurrence. */
  function Keys(members: seq<(string, Value)>): seq<string>
    decreases |members|
  {
    if |members| == 0 then []
    else
      var ks := Keys(members[..|members| - 1]);
      if members[|members| - 1].0 in ks then ks else ks + [members[|members| - 1].0]
  }

  /** Each key of the dict is listed once. */
  lemma {:induction false} KeysSpec(members: seq<(string, Value)>)
    ensures forall k :: k in Keys(members) <==> exists i :: 0 <= i < |members| && members[i].0 == k
    ensures forall a, b :: 0 <= a < b < |Keys(members)| ==> Keys(members)[a] != Keys(members)[b]
    decreases |members|
  {
    if |members| > 0 {
      var prefix := members[..|members| - 1];
      KeysSpec(prefix);
      assert forall i :: 0 <= i < |members| - 1 ==> prefix[i] == members[i];
    }
  }

  /** The keys come in the order of their first occurrence: a key listed
      before another occurs in the dict before the other's first occurrence. */
  lemma {:induction false} KeysOrder(members: seq<(string, Value)>, a: nat, b: nat)
    requires a < b < |Keys(members)|
    ensures exists i :: 0 <= i < |members| && members[i].0 == Keys(members)[a] &&
                        forall j :: 0 <= j <= i ==> members[j].0 != Keys(members)[b]
    decreases |members|
  {
    var prefix := members[..|members| - 1];
    var last := members[|members| - 1].0;
    var ks := Keys(prefix);
    KeysSpec(prefix);
    assert Keys(members) == if last in ks then ks else ks + [last];
    assert ks[a] == Keys(members)[a];
    if b < |ks| {
      KeysOrder(prefix, a, b);
      var i :| 0 <= i < |prefix| && prefix[i].0 == ks[a] &&
               forall j :: 0 <= j <= i ==> prefix[j].0 != ks[b];
      assert members[i] == prefix[i];
      assert forall j :: 0 <= j <= i ==> members[j] == prefix[j];
    } else {
      assert ks[a] in ks;
      var i :| 0 <= i < |prefix| && prefix[i].0 == ks[a];
      forall j | 0 <= j <= i
        ensures members[j].0 != last
      {
        assert members[j] == prefix[j];
      }
      assert members[i] == prefix[i];
    }
  }

  /** What `for x in v` visits: the elements of a list, the one-character strings
      of a string, the keys of a dict; anything else is not iterable. */
  function Iterate(v: Value): (r: Result<seq<Value>, Fault>)
    ensures r.Ok? <==> v.Arr? || v.Str? || v.Obj?
    ensures v.Arr? ==> r == Ok(v.elems)
    ensures v.Str? ==> r.Ok? && |r.value| == |v.s| && forall i :: 0 <= i < |v.s| ==> r.value[i] == Str([v.s[i]])
    ensures v.Obj? ==> (r.Ok? && |r.value| == |Keys(v.members)| &&
                        forall i :: 0 <= i < |Keys(v.members)| ==> r.value[i] == Str(Keys(v.members)[i]))
    ensures r.Err? ==> r.error == NotIterable(TypeName(v))
  {
    match v
    case Arr(xs) => Ok(xs)
    case Str(s) => Ok(seq(|s|, i requires 0 <= i < |s| => Str([s[i]])))
    case Obj(ms) =>
      var ks := Keys(ms);
      Ok(seq(|ks|, i requires 0 <= i < |ks| => Str(ks[i])))
    case _ => Err(NotIterable(TypeName(v)))
  }

  /** Python's truth value of the value (`if v:`): None, False, 0 and the
      empty string, list and dict are false, everything else is true. */
  predicate Truthy(v: Value): (b: bool)
    ensures !b <==> v in [Null, Bool(false), Int(0), Str(""), Arr([]), Obj([])]
  {
    match v
    case Null => false
    case Bool(b) => b
    case Int(n) => n != 0
    case Str(s) => s != ""
    case Arr(xs) => xs != []
    case Obj(ms) => ms != []
  }

  /** The decimal digits of a natural number. */
  function Digits(n: nat): (s: string)
    ensures |s| >= 1
    ensures forall i :: 0 <= i < |s| ==> '0' <= s[i] <= '9'
    decreases n
  {
    if n < 10 then ["0123456789"[n]] else Digits(n / 10) + ["0123456789"[n % 10]]
  }

  /** The number a string of decimal digits stands for. */
  function DigitsValue(s: string): nat
    requires forall i :: 0 <= i < |s| ==> '0' <= s[i] <= '9'
    decreases |s|
  {
    if |s| == 0 then 0 else 10 * DigitsValue(s[..|s| - 1]) + (s[|s| - 1] as int - '0' as int)
  }

  /** Reading back the digits of `n` gives `n`. */
  lemma {:induction false} DigitsRoundTrip(n: nat)
    ensures DigitsValue(Digits(n)) == n
    decreases n
  {
    var s := Digits(n);
    if n >= 10 {
      DigitsRoundTrip(n / 10);
      assert s[..|s| - 1] == Digits(n / 10);
    }
  }

  /** `str(n)` for a Python int. */
  function Decimal(n: int): string {
    if n < 0 then "-" + Digits(-n) else Digits(n)
  }

  /** `str(v)`, which is what an f-string inserts. Lists and dicts are shown by
      placeholders rather than by Python's repr. */
  function Format(v: Value): string {
    match v
    case Null => "None"
    case Bool(b) => if b then "True" else "False"
    case Int(n) => Decimal(n)
    case Str(s) => s
    case Arr(_) => "[...]"
    case Obj(_) => "{...}"
  }

  /**
   * Applies `f` to the items in order, as app.py's result-building loops do,
   * and stops at the first item for which `f` raises.
   */
  function MapAll<T>(items: seq<Value>, f: Value -> Result<T, Fault>): (r: Result<seq<T>, Fault>)
    ensures r.Ok? <==> forall i :: 0 <= i < |items| ==> f(items[i]).Ok?
    ensures r.Ok? ==> |r.value| == |items| && forall i :: 0 <= i < |items| ==> f(items[i]) == Ok(r.value[i])
    ensures r.Err? ==> exists k :: 0 <= k < |items| && f(items[k]) == Err(r.error) &&
                                   forall i :: 0 <= i < k ==> f(items[i]).Ok?
    decreases |items|
  {
    if |items| == 0 then Ok([])
    else
      var prefix := items[..|items| - 1];
      assert forall i :: 0 <= i < |items| - 1 ==> prefix[i] == items[i];
      match MapAll(prefix, f)
      case Err(e) => Err(e)
      case Ok(done) =>
        match f(items[|items| - 1])
        case Err(e) => Err(e)
        case Ok(x) => Ok(done + [x])
  }

  /**
   * The loop shared by both fetchers: append `f(item)` for each item in turn,
   * and let the first exception `f` raises end the loop.
   */
  method Collect<T>(items: seq<Value>, f: Value -> Result<T, Fault>) returns (r: Result<seq<T>, Fault>)
    ensures r == MapAll(items, f)
  {
    var results: seq<T> := [];
    var i := 0;
    while i < |items|
      invariant 0 <= i <= |items|
      invariant MapAll(items[..i], f) == Ok(results)
    {
      var x := f(items[i]);
      if x.Err? {
        MapAllFirstFailure(items, f, i);
        return Err(x.error);
      }
      assert items[..i + 1][..i] == items[..i];
      results := results + [x.value];
      i := i + 1;
    }
    assert items[..i] == items;
    return Ok(results);
  }

  /** The first item for which `f` raises decides the failure of `MapAll`. */
  lemma MapAllFirstFailure<T>(items: seq<Value>, f: Value -> Result<T, Fault>, k: nat)
    requires k < |items| && f(items[k]).Err?
    requires forall i :: 0 <= i < k ==> f(items[i]).Ok?
    ensures MapAll(items, f) == Err(f(items[k]).error)
  {
    var r := MapAll(items, f);
    assert !f(items[k]).Ok?;
    var k' :| 0 <= k' < |items| && f(items[k']) == Err(r.error) && forall i :: 0 <= i < k' ==> f(items[i]).Ok?;
    assert k' == k;
  }
}
