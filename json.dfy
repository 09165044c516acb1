/** Decoded JSON documents and the few Python operations the scripts apply to
    them (`v[key]`, `v[i]`, `key in v`, `int(v)`, `v * 1000`, `a - b`).
    Decoding itself is outside the model: callers receive a partial decoder
    `string -> Option<Value>` and treat `None` as a JSONDecodeError. */
module Json {
  import opened Outcomes
  import opened Strings

  /** A decoded JSON value.  An object keeps its members in document order;
      numbers are exact rationals. */
  datatype Value =
    | Null
    | Bool(b: bool)
    | Num(n: real)
    | Str(s: string)
    | Arr(items: seq<Value>)
    | Obj(members: seq<(string, Value)>)

  /** The partial JSON decoder that `json.loads` stands for. */
  type Decoder = string -> Option<Value>

  /** The value of the last member named `key`, the one a dict built from
      the members keeps; KeyError if there is none. */
  function Lookup(ms: seq<(string, Value)>, key: string): (r: Result<Value>)
    ensures r.Ok? <==> exists i | 0 <= i < |ms| :: ms[i].0 == key
    ensures r.Ok? ==> exists i | 0 <= i < |ms| :: ms[i] == (key, r.value)
    ensures r.Err? ==> r.error == KeyError
  {
    if |ms| == 0 then Err(KeyError)
    else if ms[|ms| - 1].0 == key then Ok(ms[|ms| - 1].1)
    else
      var r := Lookup(ms[..|ms| - 1], key);
      assert forall i | 0 <= i < |ms| - 1 :: ms[..|ms| - 1][i] == ms[i];
      r
  }

  /** Among repeated names the last member wins, as in `json.loads`. */
  lemma {:induction false} LookupLast(ms: seq<(string, Value)>, key: string, i: int)
    requires 0 <= i < |ms| && ms[i].0 == key
    requires forall j | i < j < |ms| :: ms[j].0 != key
    ensures Lookup(ms, key) == Ok(ms[i].1)
    decreases |ms|
  {
    if i < |ms| - 1 {
      var init := ms[..|ms| - 1];
      assert init[i] == ms[i];
      assert forall j | i < j < |init| :: init[j] == ms[j];
      LookupLast(init, key, i);
    }
  }

  /** No member name occurs twice, as in a Python dict. */
  predicate DistinctKeys(ms: seq<(string, Value)>)
  {
    forall i, j | 0 <= i < j < |ms| :: ms[i].0 != ms[j].0
  }

  /** `v[key]` with a string key. */
  function Get(v: Value, key: string): (r: Result<Value>)
    ensures r.Ok? ==> v.Obj?
    ensures v.Obj? ==> r == Lookup(v.members, key)
  {
    if v.Obj? then Lookup(v.members, key) else Err(TypeError)
  }

  /** `v[key]` succeeds exactly on a dict holding the key and yields the value
      stored last under it; a dict without the key raises KeyError, any other
      value TypeError. */
  lemma GetSpec(v: Value, key: string)
    ensures Get(v, key).Ok? <==> v.Obj? && exists i | 0 <= i < |v.members| :: v.members[i].0 == key
    ensures Get(v, key).Err? ==> Get(v, key).error == (if v.Obj? then KeyError else TypeError)
    ensures v.Obj? ==> forall i | 0 <= i < |v.members| && v.members[i].0 == key ::
      (forall j | i < j < |v.members| :: v.members[j].0 != key) ==> Get(v, key) == Ok(v.members[i].1)
  {
    if v.Obj? {
      forall i | 0 <= i < |v.members| && v.members[i].0 == key && forall j | i < j < |v.members| :: v.members[j].0 != key
        ensures Get(v, key) == Ok(v.members[i].1)
      {
        LookupLast(v.members, key, i);
      }
    }
  }

  /** `v[i]` with an integer index: lists and strings index from either end,
      a dict has no integer keys, anything else is not subscriptable. */
  function Item(v: Value, i: int): (r: Result<Value>)
    ensures v.Arr? ==> r == At(v.items, i)
    ensures r.Ok? ==> v.Arr? || v.Str?
  {
    match v
    case Arr(xs) => At(xs, i)
    case Str(s) => (match At(s, i) case Ok(c) => Ok(Str([c])) case Err(e) => Err(e))
    case Obj(_) => Err(KeyError)
    case _ => Err(TypeError)
  }

  /** Python indexing: a list or string index `i` is valid for `-len <= i < len`,
      a negative one counting from the end; a list yields its item, a string
      the one-character string; otherwise IndexError on a list or string,
      KeyError on a dict and TypeError on anything else. */
  lemma ItemSpec(v: Value, i: int)
    ensures v.Arr? ==> (Item(v, i).Ok? <==> -|v.items| <= i < |v.items|)
    ensures v.Arr? && 0 <= i < |v.items| ==> Item(v, i) == Ok(v.items[i])
    ensures v.Arr? && -|v.items| <= i < 0 ==> Item(v, i) == Ok(v.items[|v.items| + i])
    ensures v.Str? ==> (Item(v, i).Ok? <==> -|v.s| <= i < |v.s|)
    ensures v.Str? && 0 <= i < |v.s| ==> Item(v, i) == Ok(Str([v.s[i]]))
    ensures v.Str? && -|v.s| <= i < 0 ==> Item(v, i) == Ok(Str([v.s[|v.s| + i]]))
    ensures Item(v, i).Err? ==>
      Item(v, i).error == (if v.Arr? || v.Str? then IndexError else if v.Obj? then KeyError else TypeError)
  {
  }

  /** `len(v)`: the number of items, characters or members. */
  function Length(v: Value): (r: Result<int>)
    ensures r.Ok? <==> v.Arr? || v.Str? || v.Obj?
    ensures r.Ok? ==> r.value >= 0
  {
    match v
    case Arr(xs) => Ok(|xs|)
    case Str(s) => Ok(|s|)
    case Obj(ms) => Ok(|ms|)
    case _ => Err(TypeError)
  }

  /** `key in v`. */
  function HasKey(v: Value, key: string): (r: Result<bool>)
    ensures v.Obj? ==> r == Ok(exists i | 0 <= i < |v.members| :: v.members[i].0 == key)
  {
    match v
    case Obj(ms) => Ok(Lookup(ms, key).Ok?)
    case Arr(xs) => Ok(Str(key) in xs)
    case Str(s) => Ok(Contains(s, key))
    case _ => Err(TypeError)
  }

  /** `v.get(key)` on a dict, with `None` for a missing key; other values have no `get`. */
  function GetOrNone(v: Value, key: string): (r: Result<Value>)
    ensures r.Ok? <==> v.Obj?
  {
    if v.Obj? then (match Lookup(v.members, key) case Ok(x) => Ok(x) case Err(_) => Ok(Null))
    else Err(AttributeError)
  }

  /** `d.get(key)` is `d[key]` when the key is present and `None` when it is
      not; a value that is not a dict raises AttributeError. */
  lemma GetOrNoneSpec(v: Value, key: string)
    ensures v.Obj? && HasKey(v, key) == Ok(true) ==> GetOrNone(v, key) == Get(v, key) && Get(v, key).Ok?
    ensures v.Obj? && HasKey(v, key) == Ok(false) ==> GetOrNone(v, key) == Ok(Null)
    ensures !v.Obj? ==> GetOrNone(v, key) == Err(AttributeError)
  {
  }

  /** `int(x)` for a real: truncation towards zero. */
  function Trunc(x: real): (r: int)
    ensures x >= 0.0 ==> 0 <= r && r as real <= x < r as real + 1.0
    ensures x < 0.0 ==> r <= 0 && r as real - 1.0 < x <= r as real
  {
    if x >= 0.0 then x.Floor else -((-x).Floor)
  }

  /** `int(v)` on a decoded value. */
  function IntOf(v: Value): (r: Result<int>)
    ensures v.Num? ==> r == Ok(Trunc(v.n))
    ensures v.Null? || v.Arr? || v.Obj? ==> r == Err(TypeError)
  {
    match v
    case Num(x) => Ok(Trunc(x))
    case Bool(b) => Ok(if b then 1 else 0)
    case Str(s) => PyInt(s)
    case _ => Err(TypeError)
  }

  /** `int(v)`: a number is truncated towards zero (a whole number is kept),
      `True` and `False` are 1 and 0, a string of decimal digits is parsed;
      `None`, lists and dicts raise TypeError. */
  lemma IntOfSpec(v: Value)
    ensures v.Num? ==> IntOf(v).Ok? && (IntOf(v).value as real - v.n) * (IntOf(v).value as real - v.n) < 1.0
    ensures v.Num? && v.n >= 0.0 ==> IntOf(v).Ok? && IntOf(v).value as real <= v.n
    ensures v.Num? && v.n < 0.0 ==> IntOf(v).Ok? && v.n <= IntOf(v).value as real
    ensures v.Bool? ==> IntOf(v) == Ok(if v.b then 1 else 0)
    ensures v.Str? && AllDigits(v.s) && |v.s| > 0 ==> IntOf(v) == Ok(DigitsValue(v.s))
    ensures IntOf(v).Err? ==> v.Str? || IntOf(v).error == TypeError
    ensures IntOf(v).Err? <==> v.Null? || v.Arr? || v.Obj? || (v.Str? && PyInt(v.s).Err?)
  {
    if v.Num? {
      var d := Trunc(v.n) as real - v.n;
      assert -1.0 < d < 1.0;
      assert d * d < 1.0 by {
        if d >= 0.0 { assert d * d <= d * 1.0; } else { assert d * d <= (-d) * 1.0; }
      }
    }
  }

  /** A whole number converts to itself. */
  lemma IntOfWhole(k: int)
    ensures IntOf(Num(k as real)) == Ok(k)
  {
  }

  function Repeat<T>(s: seq<T>, n: nat): (r: seq<T>)
    ensures |r| == n * |s|
  {
    if n == 0 then [] else s + Repeat(s, n - 1)
  }

  /** `s * n` lays `n` copies of `s` end to end: position `k` holds `s[k % len(s)]`. */
  lemma {:induction false} RepeatAt<T>(s: seq<T>, n: nat)
    ensures forall k | 0 <= k < |Repeat(s, n)| :: Repeat(s, n)[k] == s[k % |s|]
  {
    if n > 0 {
      RepeatAt(s, n - 1);
      var r := Repeat(s, n);
      forall k | 0 <= k < |r| ensures r[k] == s[k % |s|] {
        if k >= |s| {
          assert r[k] == Repeat(s, n - 1)[k - |s|];
          ModShift(k, |s|);
        }
      }
    }
  }

  lemma ModShift(k: int, m: int)
    requires 0 < m <= k
    ensures (k - m) % m == k % m
  {
    var q, r := (k - m) / m, (k - m) % m;
    var q', r' := k / m, k % m;
    var d := q + 1 - q';
    assert d * m == (q + 1) * m - q' * m;
    assert d * m == r' - r;
  }

  /** `v * 1000`: numbers are scaled, booleans count as 0 or 1, strings and
      lists are repeated, anything else raises TypeError. */
  function Times1000(v: Value): (r: Result<Value>)
    ensures v.Num? ==> r == Ok(Num(v.n * 1000.0))
    ensures v.Null? || v.Obj? ==> r == Err(TypeError)
  {
    match v
    case Num(x) => Ok(Num(x * 1000.0))
    case Bool(b) => Ok(Num(if b then 1000.0 else 0.0))
    case Str(s) => Ok(Str(Repeat(s, 1000)))
    case Arr(xs) => Ok(Arr(Repeat(xs, 1000)))
    case _ => Err(TypeError)
  }

  /** `v * 1000` is a thousand times the number `v` stands for; a string or list
      becomes a thousand copies of itself; `None` and dicts raise TypeError. */
  lemma Times1000Spec(v: Value)
    ensures Times1000(v).Ok? <==> !(v.Null? || v.Obj?)
    ensures Times1000(v).Err? ==> Times1000(v).error == TypeError
    ensures NumberOf(v).Some? ==> Times1000(v).Ok? && NumberOf(Times1000(v).value) == Some(NumberOf(v).value * 1000.0)
    ensures v.Str? ==>
      && Times1000(v).Ok? && Times1000(v).value.Str? && |Times1000(v).value.s| == 1000 * |v.s|
      && forall k | 0 <= k < |Times1000(v).value.s| :: Times1000(v).value.s[k] == v.s[k % |v.s|]
    ensures v.Arr? ==>
      && Times1000(v).Ok? && Times1000(v).value.Arr? && |Times1000(v).value.items| == 1000 * |v.items|
      && forall k | 0 <= k < |Times1000(v).value.items| :: Times1000(v).value.items[k] == v.items[k % |v.items|]
  {
    if v.Str? {
      RepeatAt(v.s, 1000);
    } else if v.Arr? {
      RepeatAt(v.items, 1000);
    }
  }

  /** The number a numeric value stands for (`True` is 1). */
  function NumberOf(v: Value): Option<real>
  {
    match v
    case Num(x) => Some(x)
    case Bool(b) => Some(if b then 1.0 else 0.0)
    case _ => None
  }

  /** `a - b`. */
  function Minus(a: Value, b: Value): (r: Result<real>)
    ensures a.Num? && b.Num? ==> r == Ok(a.n - b.n)
    ensures r.Ok? <==> NumberOf(a).Some? && NumberOf(b).Some?
  {
    match (NumberOf(a), NumberOf(b))
    case (Some(x), Some(y)) => Ok(x - y)
    case _ => Err(TypeError)
  }

  /** `a - b` is defined on numbers (booleans count as 0 and 1) and is the
      difference that added back to `b` gives `a`; anything else raises TypeError. */
  lemma MinusSpec(a: Value, b: Value)
    ensures Minus(a, b).Ok? ==> Minus(a, b).value + NumberOf(b).value == NumberOf(a).value
    ensures Minus(a, b).Err? ==> Minus(a, b).error == TypeError
  {
  }

  /** What `for x in v` visits: the items of a list, the one-character
      strings of a string, the keys of a dict; other values are not iterable. */
  function Elements(v: Value): (r: Result<seq<Value>>)
    ensures v.Arr? ==> r == Ok(v.items)
    ensures r.Ok? <==> v.Arr? || v.Str? || v.Obj?
  {
    match v
    case Arr(xs) => Ok(xs)
    case Str(s) => Ok(seq(|s|, i requires 0 <= i < |s| => Str([s[i]])))
    case Obj(ms) => Ok(seq(|ms|, i requires 0 <= i < |ms| => Str(ms[i].0)))
    case _ => Err(TypeError)
  }

  /** Iterating a dict visits its keys in order, and each key visited reads
      back the value stored under it; a string visits its characters; numbers,
      booleans and `None` raise TypeError. */
  lemma ElementsSpec(v: Value)
    ensures Elements(v).Err? ==> Elements(v).error == TypeError
    ensures v.Str? ==>
      && Elements(v).Ok? && |Elements(v).value| == |v.s|
      && forall i | 0 <= i < |v.s| :: Elements(v).value[i] == Str([v.s[i]])
    ensures v.Obj? ==>
      && Elements(v).Ok? && |Elements(v).value| == |v.members|
      && forall i | 0 <= i < |v.members| :: Elements(v).value[i] == Str(v.members[i].0)
    ensures v.Obj? && DistinctKeys(v.members) ==>
      forall i | 0 <= i < |v.members| :: Get(v, Elements(v).value[i].s) == Ok(v.members[i].1)
  {
    if v.Obj? && DistinctKeys(v.members) {
      forall i | 0 <= i < |v.members| ensures Get(v, Elements(v).value[i].s) == Ok(v.members[i].1) {
        LookupLast(v.members, v.members[i].0, i);
      }
    }
  }

  /** `doc["traces"][0]["events"]`, the events of the first trace of a qlog
      document. */
  function EventsOf(doc: Value): (r: Result<Value>)
    ensures r.Ok? ==> doc.Obj?
  {
    var traces :- Get(doc, "traces");
    var first :- Item(traces, 0);
    Get(first, "events")
  }

  /** What `for event in doc["traces"][0]["events"]` visits. */
  function TraceEvents(doc: Value): (r: Result<seq<Value>>)
    ensures r.Ok? ==> doc.Obj?
  {
    var events :- EventsOf(doc);
    Elements(events)
  }

  /** The events iterated are those of `doc["traces"][0]["events"]`: the items
      when it is a list; a missing key, an empty or non-list `traces`, or a
      non-iterable `events` is an error. */
  lemma TraceEventsSpec(doc: Value)
    ensures TraceEvents(doc).Ok? <==>
      && Get(doc, "traces").Ok? && Item(Get(doc, "traces").value, 0).Ok?
      && Get(Item(Get(doc, "traces").value, 0).value, "events").Ok?
      && Elements(Get(Item(Get(doc, "traces").value, 0).value, "events").value).Ok?
    ensures TraceEvents(doc).Ok? ==>
      TraceEvents(doc) == Elements(Get(Item(Get(doc, "traces").value, 0).value, "events").value)
    ensures EventsOf(doc).Ok? && EventsOf(doc).value.Arr? ==> TraceEvents(doc) == Ok(EventsOf(doc).value.items)
    ensures TraceEvents(doc).Err? ==> TraceEvents(doc).error in {KeyError, IndexError, TypeError}
  {
  }
}
