/** A JSON value as `json.load` hands it to the modelled code, and the few
    Python operations the code applies to such values: `dict.get`,
    subscripting, item assignment, truth testing, iteration and `str()`. */
module PyJson {
  import opened Wrappers
  import opened PyStrings
  import opened PyNumbers

  /** An object keeps its fields in insertion order, as a Python dict does.
      JSON numbers are integers here. */
  datatype Json =
    | Null
    | Bool(b: bool)
    | Num(n: int)
    | Str(s: string)
    | Arr(items: seq<Json>)
    | Obj(fields: seq<(string, Json)>)

  /** The exceptions the modelled code lets escape. */
  datatype PyError =
    | TypeError(what: string)
    | AttributeError(what: string)
    | KeyError(key: string)
    | ValueError(what: string)
    | FileNotFoundError(path: string)

  predicate DistinctKeys(fields: seq<(string, Json)>) {
    forall i, j :: 0 <= i < j < |fields| ==> fields[i].0 != fields[j].0
  }

  /** Every object, at any depth, has distinct keys: what a Python dict guarantees. */
  predicate WellFormed(j: Json)
    decreases j
  {
    match j
    case Arr(items) => ItemsWellFormed(items)
    case Obj(fields) => DistinctKeys(fields) && FieldsWellFormed(fields)
    case _ => true
  }

  predicate ItemsWellFormed(items: seq<Json>)
    decreases items
  {
    items == [] || (WellFormed(items[0]) && ItemsWellFormed(items[1..]))
  }

  predicate FieldsWellFormed(fields: seq<(string, Json)>)
    decreases fields
  {
    fields == [] || (assert fields[0].1 < fields[0];
                     WellFormed(fields[0].1) && FieldsWellFormed(fields[1..]))
  }

  function KeySet(fields: seq<(string, Json)>): set<string> {
    set i | 0 <= i < |fields| :: fields[i].0
  }

  /** `d[key]`, or `None` where Python raises KeyError. */
  function Lookup(fields: seq<(string, Json)>, key: string): (r: Option<Json>)
    ensures r.Some? ==> exists i :: 0 <= i < |fields| && fields[i] == (key, r.value)
    ensures r.None? <==> key !in KeySet(fields)
  {
    if fields == [] then None
    else if fields[0].0 == key then Some(fields[0].1)
    else
      var r := Lookup(fields[1..], key);
      assert KeySet(fields) == {fields[0].0} + KeySet(fields[1..]);
      assert r.Some? ==> exists i :: 0 <= i < |fields[1..]| && fields[1..][i] == (key, r.value);
      r
  }

  /** `d.get(key, default)`. */
  function Get(fields: seq<(string, Json)>, key: string, default: Json): Json {
    match Lookup(fields, key)
    case Some(v) => v
    case None => default
  }

  /** `d[key] = v`: an existing key keeps its place, a new key goes last. */
  function SetKey(fields: seq<(string, Json)>, key: string, v: Json): (r: seq<(string, Json)>)
    ensures |r| == if key in KeySet(fields) then |fields| else |fields| + 1
    ensures forall i :: 0 <= i < |fields| ==> r[i].0 == fields[i].0
    ensures forall i :: 0 <= i < |fields| && fields[i].0 != key ==> r[i] == fields[i]
    ensures key !in KeySet(fields) ==> r[|fields|] == (key, v)
  {
    if fields == [] then [(key, v)]
    else if fields[0].0 == key then [(key, v)] + fields[1..]
    else
      assert KeySet(fields) == {fields[0].0} + KeySet(fields[1..]);
      [fields[0]] + SetKey(fields[1..], key, v)
  }

  /** After `d[key] = v`, `d[key]` is `v` and every other key reads as before. */
  lemma {:induction false} SetKeyLookup(fields: seq<(string, Json)>, key: string, v: Json)
    ensures Lookup(SetKey(fields, key, v), key) == Some(v)
    ensures forall k :: k != key ==> Lookup(SetKey(fields, key, v), k) == Lookup(fields, k)
  {
    if fields != [] && fields[0].0 != key {
      SetKeyLookup(fields[1..], key, v);
      var r := SetKey(fields, key, v);
      assert r[1..] == SetKey(fields[1..], key, v);
    }
  }

  /** Item assignment keeps the keys distinct and adds `key` to them. */
  lemma SetKeyKeys(fields: seq<(string, Json)>, key: string, v: Json)
    ensures KeySet(SetKey(fields, key, v)) == KeySet(fields) + {key}
    ensures DistinctKeys(fields) ==> DistinctKeys(SetKey(fields, key, v))
  {
    var r := SetKey(fields, key, v);
    if key in KeySet(fields) {
      var i :| 0 <= i < |fields| && fields[i].0 == key;
      assert r[i].0 == key;
    }
  }

  /** Python's truth value of the value. */
  predicate Truthy(j: Json) {
    match j
    case Null => false
    case Bool(b) => b
    case Num(n) => n != 0
    case Str(s) => s != []
    case Arr(items) => items != []
    case Obj(fields) => fields != []
  }

  /** What a `for` loop over the value visits: a list's items, a string's
      characters, a dict's keys; anything else raises TypeError. */
  function Iterate(j: Json): (r: Result<seq<Json>, PyError>)
    ensures r.Ok? <==> j.Arr? || j.Str? || j.Obj?
    ensures r.Ok? ==> |r.value| == (match j case Arr(a) => |a| case Str(s) => |s| case Obj(f) => |f| case _ => 0)
    ensures r.Ok? ==> (r.value == [] <==> !Truthy(j))
  {
    match j
    case Arr(items) => Ok(items)
    case Str(s) => Ok(seq(|s|, i requires 0 <= i < |s| => Str([s[i]])))
    case Obj(fields) => Ok(seq(|fields|, i requires 0 <= i < |fields| => Str(fields[i].0)))
    case _ => Err(TypeError("object is not iterable"))
  }

  function HexDigit(d: nat): char
    requires d < 16
  {
    "0123456789abcdef"[d]
  }

  /** The last `width` hexadecimal digits of `n`, lower case. */
  function Hex(n: nat, width: nat): string {
    if width == 0 then [] else Hex(n / 16, width - 1) + [HexDigit(n % 16)]
  }

  /** The characters escaped here: the C0 and C1 controls, DEL, the soft
      hyphen and the whitespace other than ' '. Python also escapes the
      other non-printable characters outside Latin-1; those are kept as is. */
  predicate Unprintable(c: char) {
    c < ' ' || ('\U{7F}' <= c <= '\U{A0}') || c == '\U{AD}' || (IsSpace(c) && c != ' ')
  }

  function EscapeChar(c: char, quote: char): string {
    if c == quote || c == '\\' then ['\\', c]
    else if c == '\t' then "\\t"
    else if c == '\n' then "\\n"
    else if c == '\r' then "\\r"
    else if Unprintable(c) then
      if c as int < 256 then "\\x" + Hex(c as int, 2) else "\\u" + Hex(c as int, 4)
    else [c]
  }

  function EscapeAll(s: string, quote: char): string {
    if s == [] then [] else EscapeChar(s[0], quote) + EscapeAll(s[1..], quote)
  }

  /** `repr(s)` for a string: single quotes, unless the string holds a single
      quote and no double quote. */
  function ReprString(s: string): string {
    var quote := if '\'' in s && '"' !in s then '"' else '\'';
    [quote] + EscapeAll(s, quote) + [quote]
  }

  /** `repr(j)`. */
  function Repr(j: Json): string
    decreases j
  {
    match j
    case Null => "None"
    case Bool(b) => if b then "True" else "False"
    case Num(n) => IntToDecimal(n)
    case Str(s) => ReprString(s)
    case Arr(items) => "[" + ReprItems(items) + "]"
    case Obj(fields) => "{" + ReprFields(fields) + "}"
  }

  function ReprItems(items: seq<Json>): string
    decreases items
  {
    if items == [] then []
    else if |items| == 1 then Repr(items[0])
    else Repr(items[0]) + ", " + ReprItems(items[1..])
  }

  function ReprFields(fields: seq<(string, Json)>): string
    decreases fields
  {
    if fields == [] then []
    else
      assert fields[0].1 < fields[0];
      var first := ReprString(fields[0].0) + ": " + Repr(fields[0].1);
      if |fields| == 1 then first else first + ", " + ReprFields(fields[1..])
  }

  /** `str(j)`, as an f-string renders it: a string as itself, anything else
      as its `repr`. */
  function Display(j: Json): string {
    match j
    case Str(s) => s
    case _ => Repr(j)
  }

  /** Python's `hash()` raises for lists and dicts. */
  predicate Hashable(j: Json) {
    !j.Arr? && !j.Obj?
  }

  /** Python's `j == 0`: true for the integer zero and for `False`. */
  predicate EqualsZero(j: Json) {
    j == Num(0) || j == Bool(false)
  }
}
