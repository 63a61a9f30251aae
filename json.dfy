// JSON-like values as the Python code builds them. Objects keep their fields
// in insertion order, as Python dicts do, and `Put` follows dict assignment:
// an existing key keeps its place, a new key goes to the end. `Dumps` is
// `json.dumps` with its default settings (", " and ": " separators, non-ASCII
// escaped), restricted to integers among the numbers.
module Json {
  import opened Wrappers
  import Text

  datatype Value =
    | Null
    | Bool(b: bool)
    | Int(i: int)
    | Str(s: string)
    | Arr(items: seq<Value>)
    | Obj(fields: seq<(string, Value)>)

  type Fields = seq<(string, Value)>

  /** Python truthiness of a value. */
  predicate Truthy(v: Value)
  {
    match v
    case Null => false
    case Bool(b) => b
    case Int(i) => i != 0
    case Str(s) => s != ""
    case Arr(items) => items != []
    case Obj(fields) => fields != []
  }

  // ---- dict operations ----

  function Keys(fields: Fields): (ks: seq<string>)
    ensures |ks| == |fields|
    ensures forall i :: 0 <= i < |fields| ==> ks[i] == fields[i].0
  {
    if |fields| == 0 then [] else [fields[0].0] + Keys(fields[1..])
  }

  predicate UniqueKeys(fields: Fields)
  {
    forall i, j :: 0 <= i < j < |fields| ==> fields[i].0 != fields[j].0
  }

  /** `d.get(k)` */
  function Get(fields: Fields, k: string): (r: Option<Value>)
    ensures r.Some? <==> k in Keys(fields)
  {
    if |fields| == 0 then None
    else if fields[0].0 == k then Some(fields[0].1)
    else Get(fields[1..], k)
  }

  /** A key's first occurrence is the one `get` finds. */
  lemma {:induction false} GetAt(fields: Fields, i: nat)
    requires i < |fields|
    requires forall j :: 0 <= j < i ==> fields[j].0 != fields[i].0
    ensures Get(fields, fields[i].0) == Some(fields[i].1)
  {
    if i > 0 {
      GetAt(fields[1..], i - 1);
    }
  }

  lemma GetUnique(fields: Fields, i: nat)
    requires i < |fields| && UniqueKeys(fields)
    ensures Get(fields, fields[i].0) == Some(fields[i].1)
  {
    GetAt(fields, i);
  }

  /** `d[k] = v` */
  function Put(fields: Fields, k: string, v: Value): (r: Fields)
  {
    if |fields| == 0 then [(k, v)]
    else if fields[0].0 == k then [(k, v)] + fields[1..]
    else [fields[0]] + Put(fields[1..], k, v)
  }

  /** After `d[k] = v`, `d[k]` is `v`. */
  lemma {:induction false} GetPutSame(fields: Fields, k: string, v: Value)
    ensures Get(Put(fields, k, v), k) == Some(v)
  {
    if |fields| > 0 && fields[0].0 != k {
      GetPutSame(fields[1..], k, v);
    }
  }

  /** `d[k] = v` changes no other key. */
  lemma {:induction false} GetPutOther(fields: Fields, k: string, v: Value, other: string)
    requires other != k
    ensures Get(Put(fields, k, v), other) == Get(fields, other)
  {
    if |fields| > 0 && fields[0].0 != k {
      GetPutOther(fields[1..], k, v, other);
    }
  }

  /** An existing key keeps its position; a new key is appended. */
  lemma {:induction false} KeysPut(fields: Fields, k: string, v: Value)
    ensures Keys(Put(fields, k, v)) == if k in Keys(fields) then Keys(fields) else Keys(fields) + [k]
  {
    if |fields| > 0 && fields[0].0 != k {
      KeysPut(fields[1..], k, v);
      assert Keys(fields) == [fields[0].0] + Keys(fields[1..]);
    }
  }

  /** Assignment keeps the keys of a dict distinct. */
  lemma {:induction false} PutKeepsUniqueKeys(fields: Fields, k: string, v: Value)
    requires UniqueKeys(fields)
    ensures UniqueKeys(Put(fields, k, v))
  {
    KeysPut(fields, k, v);
    var r := Put(fields, k, v);
    forall i, j | 0 <= i < j < |r| ensures r[i].0 != r[j].0 {
      assert Keys(r)[i] == r[i].0 && Keys(r)[j] == r[j].0;
      assert Keys(fields)[i] == fields[i].0;
      if j < |fields| {
        assert Keys(fields)[j] == fields[j].0;
      }
    }
  }

  // ---- json.dumps ----

  function HexDigit(d: nat): (c: char)
    requires d < 16
    ensures IsPrintableAscii(c)
  {
    if d < 10 then ('0' as int + d) as char else ('a' as int + d - 10) as char
  }

  /** `\uXXXX` with four lower-case hex digits. */
  function UnicodeEscape(n: nat): (r: string)
    requires n < 0x10000
    ensures |r| == 6 && AllPrintableAscii(r)
  {
    ['\\', 'u', HexDigit(n / 4096), HexDigit(n / 256 % 16), HexDigit(n / 16 % 16), HexDigit(n % 16)]
  }

  predicate IsPrintableAscii(c: char)
  {
    ' ' <= c <= '~'
  }

  predicate AllPrintableAscii(s: string)
  {
    forall i :: 0 <= i < |s| ==> IsPrintableAscii(s[i])
  }

  /** How one character of a string is written inside JSON quotes. */
  function EscapeChar(c: char): (r: string)
    ensures AllPrintableAscii(r)
  {
    if c == '"' then "\\\""
    else if c == '\\' then "\\\\"
    else if c == '\n' then "\\n"
    else if c == '\r' then "\\r"
    else if c == '\t' then "\\t"
    else if c == '\U{8}' then "\\b"
    else if c == '\U{c}' then "\\f"
    else if IsPrintableAscii(c) then [c]
    else if (c as int) < 0x10000 then UnicodeEscape(c as int)
    else
      var n := c as int - 0x10000;
      UnicodeEscape(0xd800 + n / 1024) + UnicodeEscape(0xdc00 + n % 1024)
  }

  function EscapeString(s: string): (r: string)
    ensures AllPrintableAscii(r)
  {
    if |s| == 0 then "" else EscapeChar(s[0]) + EscapeString(s[1..])
  }

  function Quote(s: string): (r: string)
    ensures AllPrintableAscii(r)
  {
    "\"" + EscapeString(s) + "\""
  }

  function Dumps(v: Value): string
  {
    match v
    case Null => "null"
    case Bool(b) => if b then "true" else "false"
    case Int(i) => Text.IntToString(i)
    case Str(s) => Quote(s)
    case Arr(items) =>
      "[" + Text.Join(seq(|items|, k requires 0 <= k < |items| => Dumps(items[k])), ", ") + "]"
    case Obj(fields) =>
      "{" + Text.Join(seq(|fields|, k requires 0 <= k < |fields| => Quote(fields[k].0) + ": " + Dumps(fields[k].1)), ", ") + "}"
  }

  lemma {:induction false} JoinPrintable(parts: seq<string>, sep: string)
    requires AllPrintableAscii(sep)
    requires forall k :: 0 <= k < |parts| ==> AllPrintableAscii(parts[k])
    ensures AllPrintableAscii(Text.Join(parts, sep))
  {
    if |parts| > 1 {
      JoinPrintable(parts[1..], sep);
    }
  }

  /**
   * Everything `json.dumps` writes is printable ASCII; in particular it never
   * contains a line break, so a JSON payload always fits on one line.
   */
  lemma {:induction false} DumpsIsPrintableAscii(v: Value)
    ensures AllPrintableAscii(Dumps(v))
    ensures '\n' !in Dumps(v) && '\r' !in Dumps(v)
  {
    match v
    case Null =>
    case Bool(b) =>
    case Int(i) =>
      var s := Text.IntToString(i);
      assert forall k :: 0 <= k < |s| ==> s[k] == '-' || Text.IsDigit(s[k]);
    case Str(s) =>
    case Arr(items) =>
      var parts := seq(|items|, k requires 0 <= k < |items| => Dumps(items[k]));
      forall k | 0 <= k < |items| ensures AllPrintableAscii(parts[k]) {
        DumpsIsPrintableAscii(items[k]);
      }
      JoinPrintable(parts, ", ");
    case Obj(fields) =>
      var parts := seq(|fields|, k requires 0 <= k < |fields| => Quote(fields[k].0) + ": " + Dumps(fields[k].1));
      forall k | 0 <= k < |fields| ensures AllPrintableAscii(parts[k]) {
        DumpsIsPrintableAscii(fields[k].1);
      }
      JoinPrintable(parts, ", ");
  }
  // ---- Python operations on decoded JSON values ----
  // Each either gives Python's result or fails with the text of the
  // exception CPython raises (`str(e)`).

  /** `type(v).__name__` */
  function TypeName(v: Value): string
  {
    match v
    case Null => "NoneType"
    case Bool(_) => "bool"
    case Int(_) => "int"
    case Str(_) => "str"
    case Arr(_) => "list"
    case Obj(_) => "dict"
  }

  function Chars(s: string): (r: seq<Value>)
    ensures |r| == |s| && forall i :: 0 <= i < |s| ==> r[i] == Str([s[i]])
  {
    seq(|s|, i requires 0 <= i < |s| => Str([s[i]]))
  }

  function KeyValues(fields: Fields): (r: seq<Value>)
    ensures |r| == |fields| && forall i :: 0 <= i < |fields| ==> r[i] == Str(fields[i].0)
  {
    seq(|fields|, i requires 0 <= i < |fields| => Str(fields[i].0))
  }

  /** `iter(v)`: the items of a list, the characters of a string, the keys of a dict. */
  function Iterate(v: Value): (r: Result<seq<Value>, string>)
    ensures v.Arr? ==> r == Success(v.items)
    ensures r.Failure? <==> v.Null? || v.Bool? || v.Int?
  {
    match v
    case Arr(items) => Success(items)
    case Str(s) => Success(Chars(s))
    case Obj(fields) => Success(KeyValues(fields))
    case _ => Failure("'" + TypeName(v) + "' object is not iterable")
  }

  /** `k in v` for a string `k`. */
  function In(k: string, v: Value): (r: Result<bool, string>)
    ensures v.Obj? ==> r == Success(k in Keys(v.fields))
    ensures r.Failure? <==> v.Null? || v.Bool? || v.Int?
  {
    match v
    case Obj(fields) => Success(k in Keys(fields))
    case Str(s) => Success(Text.Contains(s, k))
    case Arr(items) => Success(Str(k) in items)
    case _ => Failure("argument of type '" + TypeName(v) + "' is not iterable")
  }

  /** `v[k] = x` for a string `k`: only a dict accepts it. */
  function SetItem(v: Value, k: string, x: Value): Result<Value, string>
  {
    match v
    case Obj(fields) => Success(Obj(Put(fields, k, x)))
    case Arr(_) => Failure("list indices must be integers or slices, not str")
    case _ => Failure("'" + TypeName(v) + "' object does not support item assignment")
  }

  /** `v[k]` for a string `k`. */
  function Index(v: Value, k: string): (r: Result<Value, string>)
    ensures r.Success? <==> v.Obj? && k in Keys(v.fields)
    ensures r.Success? ==> Get(v.fields, k) == Some(r.value)
  {
    match v
    case Obj(fields) =>
      (match Get(fields, k)
       case Some(x) => Success(x)
       case None => Failure("'" + k + "'"))   // KeyError: its text is the key's repr (keys here hold no quote or escape)
    case Str(_) => Failure("string indices must be integers, not 'str'")
    case Arr(_) => Failure("list indices must be integers or slices, not str")
    case _ => Failure("'" + TypeName(v) + "' object is not subscriptable")
  }

  /** `v.get(k, default)` */
  function GetOr(v: Value, k: string, default: Value): (r: Result<Value, string>)
    ensures r.Success? <==> v.Obj?
    ensures v.Obj? ==> r == Success(Get(v.fields, k).UnwrapOr(default))
    ensures v.Obj? && k !in Keys(v.fields) ==> r == Success(default)
  {
    match v
    case Obj(fields) => Success(Get(fields, k).UnwrapOr(default))
    case _ => Failure("'" + TypeName(v) + "' object has no attribute 'get'")
  }

  /** `len(v)` */
  function Len(v: Value): (r: Result<nat, string>)
    ensures v.Str? ==> r == Success(|v.s|)
    ensures r.Failure? <==> v.Null? || v.Bool? || v.Int?
  {
    match v
    case Str(s) => Success(|s|)
    case Arr(items) => Success(|items|)
    case Obj(fields) => Success(|fields|)
    case _ => Failure("object of type '" + TypeName(v) + "' has no len()")
  }

  /** What `len` adds for a value that has a length, and 0 for one that has none. */
  function SizeOf(v: Value): nat
  {
    match Len(v)
    case Success(n) => n
    case Failure(_) => 0
  }

  function SumSizes(vs: seq<Value>): nat
  {
    if |vs| == 0 then 0 else SumSizes(vs[..|vs| - 1]) + SizeOf(vs[|vs| - 1])
  }

  predicate AllStr(vs: seq<Value>)
  {
    forall i :: 0 <= i < |vs| ==> vs[i].Str?
  }

  function Strs(vs: seq<Value>): (r: seq<string>)
    requires AllStr(vs)
    ensures |r| == |vs| && forall i :: 0 <= i < |vs| ==> r[i] == vs[i].s
  {
    seq(|vs|, i requires 0 <= i < |vs| => vs[i].s)
  }

  lemma StrsAppend(a: seq<Value>, b: seq<Value>)
    requires AllStr(a) && AllStr(b)
    ensures AllStr(a + b) && Strs(a + b) == Strs(a) + Strs(b)
  {
  }

  /** `''.join(vs)`: fails at the first item that is not a string. */
  function JoinStr(vs: seq<Value>): (r: Result<string, string>)
    ensures r.Success? <==> AllStr(vs)
    ensures r.Success? ==> r.value == Text.Concat(Strs(vs))
  {
    var r := JoinFrom(vs, 0);
    assert r.Success? ==> Strs(vs) == seq(|vs| - 0, i requires 0 <= i < |vs| - 0 => vs[0 + i].s);
    r
  }

  function JoinFrom(vs: seq<Value>, k: nat): (r: Result<string, string>)
    requires k <= |vs|
    ensures r.Success? <==> forall i :: k <= i < |vs| ==> vs[i].Str?
    ensures r.Success? ==> r.value == Text.Concat(seq(|vs| - k, i requires 0 <= i < |vs| - k => vs[k + i].s))
    decreases |vs| - k
  {
    if k == |vs| then Success("")
    else if !vs[k].Str? then
      Failure("sequence item " + Text.NatToString(k) + ": expected str instance, " + TypeName(vs[k]) + " found")
    else
      match JoinFrom(vs, k + 1)
      case Failure(e) => Failure(e)
      case Success(rest) =>
        assert seq(|vs| - k, i requires 0 <= i < |vs| - k => vs[k + i].s)[1..]
            == seq(|vs| - (k + 1), i requires 0 <= i < |vs| - (k + 1) => vs[k + 1 + i].s);
        Success(vs[k].s + rest)
  }

  /** `a + b` where `a` is a string. */
  function AddStr(a: string, b: Value): (r: Result<string, string>)
    ensures r.Success? <==> b.Str?
    ensures b.Str? ==> r.value == a + b.s
  {
    if b.Str? then Success(a + b.s)
    else Failure("can only concatenate str (not \"" + TypeName(b) + "\") to str")
  }

  /** Position of the first item that is not a string. */
  function FirstNonStr(vs: seq<Value>): (k: nat)
    requires !AllStr(vs)
    ensures k < |vs| && !vs[k].Str? && forall j :: 0 <= j < k ==> vs[j].Str?
  {
    if !vs[0].Str? then 0
    else
      assert !AllStr(vs[1..]) by {
        var j :| 0 <= j < |vs| && !vs[j].Str?;
        assert vs[1..][j - 1] == vs[j];
      }
      1 + FirstNonStr(vs[1..])
  }

  /** `sep.join(vs)`: fails at the first item that is not a string. */
  function JoinWith(vs: seq<Value>, sep: string): (r: Result<string, string>)
    ensures r.Success? <==> AllStr(vs)
    ensures r.Success? ==> r.value == Text.Join(Strs(vs), sep)
  {
    if AllStr(vs) then Success(Text.Join(Strs(vs), sep))
    else
      var k := FirstNonStr(vs);
      Failure("sequence item " + Text.NatToString(k) + ": expected str instance, " + TypeName(vs[k]) + " found")
  }
}
