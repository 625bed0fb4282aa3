/** The small part of JavaScript's runtime behaviour that the tool relies on:
    promise outcomes, String.prototype.trim, a first-match String.prototype.replace,
    a case-insensitive /down/i search, Array.prototype.join, truthiness, util.inspect
    on scalars, and plain objects used as insertion-ordered dictionaries. */
module Js {

  datatype Option<+T> = None | Some(value: T)

  /** A synchronous outcome: a value, or a thrown error with its message. */
  datatype Result<+T> = Ok(value: T) | Err(error: string)

  /** How a promise ends: it resolves, it rejects with a reason, or it never settles
      (a chain whose inner rejection nobody handles). */
  datatype Settled<+T> = Resolved(value: T) | Rejected(reason: string) | Pending

  // ---------------------------------------------------------------------------
  // Strings

  /** The WhiteSpace and LineTerminator code points String.prototype.trim removes: tab,
      line feed, vertical tab, form feed, carriage return, space, no-break space, ogham
      space mark, U+2000 to U+200A, line and paragraph separators, narrow no-break space,
      medium mathematical space, ideographic space and the byte order mark. */
  predicate IsSpace(c: char) {
    ('\t' <= c <= '\r') || c == ' ' || c == '\U{00A0}' || c == '\U{1680}' ||
    ('\U{2000}' <= c <= '\U{200A}') || c == '\U{2028}' || c == '\U{2029}' ||
    c == '\U{202F}' || c == '\U{205F}' || c == '\U{3000}' || c == '\U{FEFF}'
  }

  predicate Blank(s: string) {
    forall i :: 0 <= i < |s| ==> IsSpace(s[i])
  }

  /** Drops leading whitespace. */
  function TrimStart(s: string): (r: string)
    ensures |r| <= |s|
  {
    if s != [] && IsSpace(s[0]) then TrimStart(s[1..]) else s
  }

  /** What TrimStart leaves is a suffix of s that does not start with whitespace, and
      everything it drops is whitespace. */
  lemma {:induction false} TrimStartShape(s: string)
    ensures TrimStart(s) == s[|s| - |TrimStart(s)|..]
    ensures TrimStart(s) != [] ==> !IsSpace(TrimStart(s)[0])
    ensures forall i :: 0 <= i < |s| - |TrimStart(s)| ==> IsSpace(s[i])
  {
    if s != [] && IsSpace(s[0]) {
      TrimStartShape(s[1..]);
      forall i | 1 <= i < |s| - |TrimStart(s)| ensures IsSpace(s[i]) {
        assert s[i] == s[1..][i - 1];
      }
    }
  }

  /** Drops trailing whitespace. */
  function TrimEnd(s: string): (r: string)
    ensures |r| <= |s|
  {
    if s != [] && IsSpace(s[|s| - 1]) then TrimEnd(s[..|s| - 1]) else s
  }

  /** What TrimEnd leaves is a prefix of s that does not end with whitespace, and
      everything it drops is whitespace. */
  lemma {:induction false} TrimEndShape(s: string)
    ensures TrimEnd(s) == s[..|TrimEnd(s)|]
    ensures TrimEnd(s) != [] ==> !IsSpace(TrimEnd(s)[|TrimEnd(s)| - 1])
    ensures forall i :: |TrimEnd(s)| <= i < |s| ==> IsSpace(s[i])
  {
    if s != [] && IsSpace(s[|s| - 1]) {
      TrimEndShape(s[..|s| - 1]);
      forall i | |TrimEnd(s)| <= i < |s| - 1 ensures IsSpace(s[i]) {
        assert s[i] == s[..|s| - 1][i];
      }
    }
  }

  /** r is s[a..a+|r|], and everything of s outside that infix is whitespace. */
  predicate TrimmedAt(s: string, r: string, a: nat) {
    a + |r| <= |s| && r == s[a..a + |r|] &&
    (forall i :: 0 <= i < a ==> IsSpace(s[i])) &&
    (forall i :: a + |r| <= i < |s| ==> IsSpace(s[i]))
  }

  /** String.prototype.trim: whitespace removed from both ends. */
  function Trim(s: string): string {
    TrimEnd(TrimStart(s))
  }

  /** What trim leaves is an infix of s outside which everything is whitespace. */
  lemma TrimInfix(s: string)
    ensures TrimmedAt(s, Trim(s), |s| - |TrimStart(s)|)
  {
    var t := TrimStart(s);
    var r := TrimEnd(t);
    var a := |s| - |t|;
    TrimStartShape(s);
    TrimEndShape(t);
    assert r == s[a..a + |r|];
    assert forall i :: 0 <= i < a ==> IsSpace(s[i]);
    assert forall i :: a + |r| <= i < |s| ==> IsSpace(s[i]) by {
      forall i | a + |r| <= i < |s| ensures IsSpace(s[i]) {
        assert IsSpace(t[i - a]);
        assert t[i - a] == s[a..][i - a];
      }
    }
  }

  /** What trim leaves: an infix of s outside which everything is whitespace, neither
      starting nor ending with whitespace, and empty exactly when s is blank. */
  lemma TrimShape(s: string)
    ensures TrimmedAt(s, Trim(s), |s| - |TrimStart(s)|)
    ensures Trim(s) != [] ==> !IsSpace(Trim(s)[0]) && !IsSpace(Trim(s)[|Trim(s)| - 1])
    ensures Trim(s) == [] <==> Blank(s)
  {
    TrimInfix(s);
    var t := TrimStart(s);
    var r := TrimEnd(t);
    TrimStartShape(s);
    TrimEndShape(t);
    if r != [] {
      var a := |s| - |t|;
      assert s[a] == r[0];
      assert !Blank(s);
    }
  }

  /** The index of the first c in s, or |s| when s holds none. */
  function IndexOf(s: string, c: char): (p: nat)
    ensures p <= |s|
    ensures p < |s| ==> s[p] == c
  {
    if s == [] || s[0] == c then 0 else 1 + IndexOf(s[1..], c)
  }

  /** No c comes before IndexOf(s, c). */
  lemma {:induction false} IndexOfFirst(s: string, c: char)
    ensures forall i :: 0 <= i < IndexOf(s, c) ==> s[i] != c
  {
    if s != [] && s[0] != c {
      IndexOfFirst(s[1..], c);
      forall i | 1 <= i < IndexOf(s, c) ensures s[i] != c {
        assert s[i] == s[1..][i - 1];
      }
    }
  }

  /** `s.replace(/\n/, ' ')`-style replacement of the FIRST occurrence of c only:
      s itself when it holds no c, otherwise s with just its first c replaced. */
  function ReplaceFirst(s: string, c: char, d: char): (r: string)
    ensures IndexOf(s, c) == |s| ==> r == s
    ensures IndexOf(s, c) < |s| ==> r == s[IndexOf(s, c) := d]
  {
    if s == [] then []
    else if s[0] == c then [d] + s[1..]
    else [s[0]] + ReplaceFirst(s[1..], c, d)
  }

  /** ASCII lower-casing: the case folding a non-unicode /…/i regular expression applies
      to the ASCII letters of its pattern. */
  function LowerAscii(c: char): char {
    if 'A' <= c <= 'Z' then (c as int + 32) as char else c
  }

  predicate DownAt(s: string, i: nat)
    requires i + 4 <= |s|
  {
    LowerAscii(s[i]) == 'd' && LowerAscii(s[i + 1]) == 'o' &&
    LowerAscii(s[i + 2]) == 'w' && LowerAscii(s[i + 3]) == 'n'
  }

  /** `s.match(/down/i)` is non-null: some four consecutive characters spell "down" in any case. */
  function ContainsDown(s: string): (b: bool)
    ensures b <==> exists i: nat :: i + 4 <= |s| && DownAt(s, i)
  {
    if |s| < 4 then false
    else if DownAt(s, 0) then true
    else
      DownShift(s);
      ContainsDown(s[1..])
  }

  lemma DownShift(s: string)
    requires |s| >= 4 && !DownAt(s, 0)
    ensures (exists i: nat :: i + 4 <= |s| && DownAt(s, i)) <==>
            (exists i: nat :: i + 4 <= |s[1..]| && DownAt(s[1..], i))
  {
    if i: nat :| i + 4 <= |s| && DownAt(s, i) {
      assert DownAt(s[1..], i - 1);
    }
    if i: nat :| i + 4 <= |s[1..]| && DownAt(s[1..], i) {
      assert DownAt(s, i + 1);
    }
  }

  /** Concatenation of the parts of a child-process output, `out.join('')`. */
  function Concat(parts: seq<string>): string {
    if parts == [] then "" else Concat(parts[..|parts| - 1]) + parts[|parts| - 1]
  }

  // ---------------------------------------------------------------------------
  // Values

  /** The JavaScript values an action's promise may resolve with. Numbers are integers;
      an object carries the text util.inspect prints for it. */
  datatype JsValue =
    | Undefined
    | Null
    | Bool(b: bool)
    | Num(n: int)
    | Str(s: string)
    | Arr(items: seq<JsValue>)
    | Obj(shown: string)

  predicate Truthy(v: JsValue) {
    match v
    case Undefined => false
    case Null => false
    case Bool(b) => b
    case Num(n) => n != 0
    case Str(s) => s != ""
    case Arr(_) => true
    case Obj(_) => true
  }

  function DigitChar(d: nat): char
    requires d < 10
  {
    "0123456789"[d]
  }

  function NatToString(n: nat): (r: string)
    ensures r != []
    decreases n
  {
    if n < 10 then [DigitChar(n)] else NatToString(n / 10) + [DigitChar(n % 10)]
  }

  function IntToString(n: int): string {
    if n < 0 then "-" + NatToString(-n) else NatToString(n)
  }

  /** The string an array element contributes to Array.prototype.join:
      undefined and null contribute nothing, nested arrays are joined with commas. */
  function ElementString(v: JsValue): string
    decreases v, 1
  {
    match v
    case Undefined => ""
    case Null => ""
    case Bool(b) => if b then "true" else "false"
    case Num(n) => IntToString(n)
    case Str(s) => s
    case Arr(items) => JoinWith(items, ",")
    case Obj(_) => "[object Object]"
  }

  /** Array.prototype.join(sep). */
  function JoinWith(items: seq<JsValue>, sep: string): string
    decreases items, 0
  {
    if items == [] then ""
    else if |items| == 1 then ElementString(items[0])
    else ElementString(items[0]) + sep + JoinWith(items[1..], sep)
  }

  /** util.inspect on the values that are neither strings nor arrays. */
  function Inspect(v: JsValue): string
    requires v.Bool? || v.Num? || v.Obj?
  {
    match v
    case Bool(b) => if b then "true" else "false"
    case Num(n) => IntToString(n)
    case Obj(shown) => shown
  }

  // ---------------------------------------------------------------------------
  // Plain objects as insertion-ordered dictionaries

  datatype RawDict<V> = RawDict(keys: seq<string>, vals: map<string, V>)

  predicate DistinctKeys(keys: seq<string>) {
    forall i, j :: 0 <= i < j < |keys| ==> keys[i] != keys[j]
  }

  /** A plain object: its own keys in Object.keys order, each listed once, and their values. */
  type Dict<V> = d: RawDict<V> | DistinctKeys(d.keys) && (forall k :: k in d.keys <==> k in d.vals)
    witness RawDict([], map[])

  function EmptyDict<V>(): (d: Dict<V>)
    ensures d.keys == [] && d.vals == map[]
  {
    RawDict([], map[])
  }

  /** `o[k] = v`: the value at k becomes v and no other value changes; a new key goes
      to the end of the key order and an existing key keeps its place. */
  function Put<V>(d: Dict<V>, k: string, v: V): (r: Dict<V>)
    ensures r.vals == d.vals[k := v]
    ensures k in d.vals ==> r.keys == d.keys
    ensures k !in d.vals ==> r.keys == d.keys + [k]
  {
    if k in d.vals then RawDict(d.keys, d.vals[k := v])
    else RawDict(d.keys + [k], d.vals[k := v])
  }

  /** The keys of s other than k, in their order. */
  function Without(s: seq<string>, k: string): (r: seq<string>)
    ensures forall x :: x in r <==> x in s && x != k
    ensures |r| <= |s|
    ensures DistinctKeys(s) ==> DistinctKeys(r)
  {
    if s == [] then []
    else if s[0] == k then Without(s[1..], k)
    else
      var rest := Without(s[1..], k);
      assert DistinctKeys(s) ==> s[0] !in s[1..];
      [s[0]] + rest
  }

  /** `delete o[k]`: k is gone from both the values and the key order; nothing else changes. */
  function Remove<V>(d: Dict<V>, k: string): (r: Dict<V>)
    ensures r.vals == d.vals - {k}
    ensures r.keys == Without(d.keys, k)
  {
    RawDict(Without(d.keys, k), d.vals - {k})
  }

  lemma {:induction false} WithoutAppend(s: seq<string>, x: string, k: string)
    ensures Without(s + [x], k) == Without(s, k) + (if x == k then [] else [x])
  {
    if s == [] {
      assert [x][1..] == [];
    } else {
      assert (s + [x])[1..] == s[1..] + [x];
      WithoutAppend(s[1..], x, k);
    }
  }

  /** Deleting a key undoes assigning it: `o[k] = v; delete o[k]` leaves o as `delete o[k]` would. */
  lemma RemoveAfterPut<V>(d: Dict<V>, k: string, v: V)
    ensures Remove(Put(d, k, v), k) == Remove(d, k)
  {
    if k !in d.vals {
      WithoutAppend(d.keys, k, k);
    }
  }

  lemma {:induction false} WithoutAbsent(s: seq<string>, k: string)
    requires k !in s
    ensures Without(s, k) == s
  {
    if s != [] {
      WithoutAbsent(s[1..], k);
    }
  }

  /** The last assignment wins: `o[k] = v; o[k] = w` leaves o as `o[k] = w` alone would,
      key order included; assigning a key the value it already holds changes nothing;
      and a fresh object holds exactly the keys assigned to it, in assignment order. */
  lemma PutOverwrites<V>(d: Dict<V>, k: string, v: V, w: V)
    ensures Put(Put(d, k, v), k, w) == Put(d, k, w)
    ensures k in d.vals && d.vals[k] == v ==> Put(d, k, v) == d
    ensures Put(Put(EmptyDict(), k, v), k, w).keys == [k]
  {
  }

  /** Deleting a key the object lacks changes nothing. */
  lemma RemoveAbsent<V>(d: Dict<V>, k: string)
    requires k !in d.vals
    ensures Remove(d, k) == d
  {
    WithoutAbsent(d.keys, k);
    assert Remove(d, k).keys == d.keys;
    assert Remove(d, k).vals == d.vals;
  }

  /** Deleting is idempotent, and deleting a key the object lacks changes nothing. */
  lemma RemoveIdempotent<V>(d: Dict<V>, k: string)
    ensures Remove(Remove(d, k), k) == Remove(d, k)
    ensures k !in d.vals ==> Remove(d, k) == d
  {
    RemoveAbsent(Remove(d, k), k);
    if k !in d.vals {
      RemoveAbsent(d, k);
    }
  }
}
