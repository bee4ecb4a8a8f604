/** Python and JSON values as the core sees them, and the handful of Python
    `str` operations the core relies on (strip, lower, count, split on a
    marker, startswith, in). */
module PyValues {

  datatype Option<+T> = None | Some(value: T)

  datatype Result<+T, +E> = Ok(value: T) | Err(error: E)

  /** A JSON value as `json.load` returns it. An object keeps its keys in
      insertion order, as a Python dict does; its keys are distinct, and a
      lookup takes the first entry with the key. */
  datatype Value =
    | VNull
    | VBool(b: bool)
    | VInt(i: int)
    | VFloat(r: real)
    | VStr(s: string)
    | VList(items: seq<Value>)
    | VObject(entries: seq<(string, Value)>)

  /** Python truthiness (`bool(v)`). */
  predicate Truthy(v: Value) {
    match v
    case VNull => false
    case VBool(b) => b
    case VInt(i) => i != 0
    case VFloat(r) => r != 0.0
    case VStr(s) => |s| > 0
    case VList(xs) => |xs| > 0
    case VObject(es) => |es| > 0
  }

  /** Python's `v == n` for an integer literal `n` (True == 1, 2.0 == 2). */
  predicate EqualsInt(v: Value, n: int) {
    match v
    case VBool(b) => (if b then 1 else 0) == n
    case VInt(i) => i == n
    case VFloat(r) => r == n as real
    case _ => false
  }

  /** The keys of an object, in order (`list(d.keys())`). */
  function Keys(entries: seq<(string, Value)>): (ks: seq<string>)
    ensures |ks| == |entries|
    ensures forall i :: 0 <= i < |entries| ==> ks[i] == entries[i].0
  {
    seq(|entries|, i requires 0 <= i < |entries| => entries[i].0)
  }

  /** `d.get(k)` as an Option: the value of the first entry with key `k`. */
  function Lookup(entries: seq<(string, Value)>, k: string): (r: Option<Value>)
    ensures r.Some? <==> k in Keys(entries)
    ensures r.Some? ==> exists i :: 0 <= i < |entries| && entries[i] == (k, r.value)
  {
    if entries == [] then None
    else if entries[0].0 == k then Some(entries[0].1)
    else
      var r := Lookup(entries[1..], k);
      assert r.Some? ==> exists i :: 0 <= i < |entries| - 1 && entries[1..][i] == (k, r.value);
      r
  }

  /** The keys of an object are distinct: `json.load` keeps one entry per
      key, and so does a dict literal. */
  predicate DistinctKeys(entries: seq<(string, Value)>) {
    forall i, j | 0 <= i < j < |entries| :: entries[i].0 != entries[j].0
  }

  /** With distinct keys, looking up the key of an entry finds that entry. */
  lemma LookupAt(entries: seq<(string, Value)>, i: nat)
    requires DistinctKeys(entries) && i < |entries|
    ensures Lookup(entries, entries[i].0) == Some(entries[i].1)
  {
    assert Keys(entries)[i] == entries[i].0;
    var r := Lookup(entries, entries[i].0);
    var j :| 0 <= j < |entries| && entries[j] == (entries[i].0, r.value);
  }

  /** Looking up the key of an entry that no earlier entry shares finds
      that entry. */
  lemma {:induction false} LookupFirstAt(entries: seq<(string, Value)>, i: nat)
    requires i < |entries|
    requires forall j | 0 <= j < i :: entries[j].0 != entries[i].0
    ensures Lookup(entries, entries[i].0) == Some(entries[i].1)
  {
    if i > 0 {
      LookupFirstAt(entries[1..], i - 1);
    }
  }

  /** `d.get(k)`: Python's None when the key is missing. */
  function Get(entries: seq<(string, Value)>, k: string): Value {
    match Lookup(entries, k)
    case Some(v) => v
    case None => VNull
  }

  /** Python's `key in container` for a string key: key membership for a
      dict, element membership for a list, substring for a str; None where
      Python raises TypeError. */
  function PyIn(key: string, container: Value): Option<bool> {
    match container
    case VObject(es) => Some(key in Keys(es))
    case VList(xs) => Some(VStr(key) in xs)
    case VStr(s) => Some(Contains(s, key))
    case _ => None
  }

  /** Python's `container[key]` for a string key: None where Python raises
      (KeyError for a dict without the key, TypeError otherwise). */
  function PyIndex(container: Value, key: string): Option<Value> {
    match container
    case VObject(es) => Lookup(es, key)
    case _ => None
  }

  // ---------------------------------------------------------------------
  // Characters and strings

  /** The characters for which Python's `str.isspace()` holds; the same set
      is `\s` in a `re` pattern and what `str.strip()` removes. */
  predicate IsSpace(c: char) {
    var n := c as int;
    || (0x09 <= n <= 0x0D) || (0x1C <= n <= 0x20) || n == 0x85 || n == 0xA0
    || n == 0x1680 || (0x2000 <= n <= 0x200A) || n == 0x2028 || n == 0x2029
    || n == 0x202F || n == 0x205F || n == 0x3000
  }

  /** A word character for `\b`: ASCII letters, digits and underscore. */
  predicate IsWordChar(c: char) {
    ('a' <= c <= 'z') || ('A' <= c <= 'Z') || ('0' <= c <= '9') || c == '_'
  }

  predicate AllSpace(s: string) {
    forall i :: 0 <= i < |s| ==> IsSpace(s[i])
  }

  /** `s.lstrip()` */
  function StripLeft(s: string): (r: string)
    ensures |r| <= |s| && r == s[|s| - |r|..]
    ensures r == [] || !IsSpace(r[0])
    ensures AllSpace(s[..|s| - |r|])
  {
    if s != [] && IsSpace(s[0]) then
      var t := s[1..];
      var r := StripLeft(t);
      var p := s[..|s| - |r|];
      assert AllSpace(p) by {
        forall k | 0 <= k < |p| ensures IsSpace(p[k]) {
          if k > 0 {
            assert p[k] == t[..|t| - |r|][k - 1];
          }
        }
      }
      r
    else s
  }

  /** `s.rstrip()` */
  function StripRight(s: string): (r: string)
    ensures |r| <= |s| && r == s[..|r|]
    ensures r == [] || !IsSpace(r[|r| - 1])
    ensures AllSpace(s[|r|..])
  {
    if s != [] && IsSpace(s[|s| - 1]) then
      var t := s[..|s| - 1];
      var r := StripRight(t);
      var q := s[|r|..];
      assert AllSpace(q) by {
        forall k | 0 <= k < |q| ensures IsSpace(q[k]) {
          if k < |q| - 1 {
            assert q[k] == t[|r|..][k];
          }
        }
      }
      r
    else s
  }

  /** `s.strip()` */
  function Strip(s: string): (r: string)
  {
    StripRight(StripLeft(s))
  }

  /** What strip keeps has no whitespace at either end. */
  lemma StripHasNoOuterSpace(s: string)
    ensures Strip(s) == [] || (!IsSpace(Strip(s)[0]) && !IsSpace(Strip(s)[|Strip(s)| - 1]))
  {
    var l := StripLeft(s);
    var r := StripRight(l);
    if r != [] {
      assert r[0] == l[0];
    }
  }

  /** What strip keeps is the slice of `s` between its leading and trailing
      whitespace. */
  lemma StripIsTrimmedSlice(s: string)
    ensures exists i, j :: 0 <= i <= j <= |s| && Strip(s) == s[i..j]
                           && AllSpace(s[..i]) && AllSpace(s[j..])
  {
    var l := StripLeft(s);
    var i := |s| - |l|;
    var r := StripRight(l);
    var j := i + |r|;
    assert l == s[i..];
    assert r == s[i..j];
    assert s[j..] == l[|r|..];
  }

  /** `not s.strip()`: a string is blank exactly when all of it is whitespace. */
  lemma StripEmptyIffAllSpace(s: string)
    ensures Strip(s) == [] <==> AllSpace(s)
  {
    var l := StripLeft(s);
    assert s == s[..|s| - |l|] + l;
    assert l[0..] == l;
    if l != [] { assert s[|s| - |l|] == l[0]; }
  }

  /** Stripping twice is stripping once. */
  lemma StripIdempotent(s: string)
    ensures Strip(Strip(s)) == Strip(s)
  {
    var r := Strip(s);
    StripHasNoOuterSpace(s);
    assert StripLeft(r) == r;
    assert StripRight(r) == r;
  }

  /** ASCII lower-casing of one character. */
  function LowerChar(c: char): char {
    if 'A' <= c <= 'Z' then (c as int + 32) as char else c
  }

  /** `s.lower()` restricted to ASCII letters. */
  function Lower(s: string): (r: string)
    ensures |r| == |s|
    ensures forall i :: 0 <= i < |s| ==> r[i] == LowerChar(s[i])
  {
    if s == [] then [] else [LowerChar(s[0])] + Lower(s[1..])
  }

  /** Lower-casing a lower-cased text changes nothing. */
  lemma LowerIdempotent(s: string)
    ensures Lower(Lower(s)) == Lower(s)
  {
  }

  /** `s.startswith(p)` */
  predicate StartsWith(s: string, p: string) {
    |p| <= |s| && s[..|p|] == p
  }

  /** `sub` occurs in `s` at index `i`. */
  predicate OccursAt(s: string, sub: string, i: nat) {
    i + |sub| <= |s| && s[i..i + |sub|] == sub
  }

  /** An occurrence inside an occurrence: `sub` at `k` in `w`, and `w` at
      `i` in `s`, puts `sub` at `i + k` in `s`. */
  lemma OccursWithin(s: string, w: string, i: nat, sub: string, k: nat)
    requires OccursAt(s, w, i) && OccursAt(w, sub, k)
    ensures OccursAt(s, sub, i + k)
  {
    forall j | 0 <= j < |sub| ensures s[i + k..i + k + |sub|][j] == sub[j] {
      assert s[i + k + j] == s[i..i + |w|][k + j];
      assert sub[j] == w[k..k + |sub|][j];
    }
  }

  /** Python's `sub in s` for strings. */
  predicate Contains(s: string, sub: string) {
    exists i: nat | i <= |s| :: OccursAt(s, sub, i)
  }

  /** An occurrence in `s[1..]` is an occurrence in `s`, one place further on. */
  lemma OccursAtTail(s: string, sub: string, i: nat)
    requires |s| > 0
    ensures OccursAt(s[1..], sub, i) <==> OccursAt(s, sub, i + 1)
  {
    if i + 1 + |sub| <= |s| {
      assert s[1..][i..i + |sub|] == s[i + 1..i + 1 + |sub|];
    }
  }

  /** The index of the first occurrence of `sub` in `s` (`s.find(sub)`). */
  function Find(s: string, sub: string): (r: Option<nat>)
    ensures r.Some? ==> OccursAt(s, sub, r.value)
    ensures r.Some? ==> forall k: nat :: k < r.value ==> !OccursAt(s, sub, k)
    ensures r.None? <==> !Contains(s, sub)
  {
    if |s| < |sub| then None
    else if s[..|sub|] == sub then Some(0)
    else
      var r := Find(s[1..], sub);
      assert !OccursAt(s, sub, 0);
      assert forall k: nat :: OccursAt(s[1..], sub, k) <==> OccursAt(s, sub, k + 1) by {
        forall k: nat ensures OccursAt(s[1..], sub, k) <==> OccursAt(s, sub, k + 1) {
          OccursAtTail(s, sub, k);
        }
      }
      if r.None? then
        assert forall k: nat :: !OccursAt(s, sub, k) by {
          forall k: nat ensures !OccursAt(s, sub, k) {
            if k > 0 { assert !OccursAt(s[1..], sub, k - 1); }
          }
        }
        None
      else
        assert forall k: nat :: k < r.value + 1 ==> !OccursAt(s, sub, k) by {
          forall k: nat | k < r.value + 1 ensures !OccursAt(s, sub, k) {
            if k > 0 { assert !OccursAt(s[1..], sub, k - 1); }
          }
        }
        Some(r.value + 1)
  }

  /** `s.split(marker, 1)[1]`: what follows the first occurrence of `marker`. */
  function AfterFirst(s: string, marker: string): (r: string)
    requires Contains(s, marker)
    ensures exists i: nat :: OccursAt(s, marker, i) && r == s[i + |marker|..]
  {
    var i := Find(s, marker).value;
    s[i + |marker|..]
  }

  /** `s.count(w)`: non-overlapping occurrences, scanned from the left. */
  function Count(s: string, w: string): nat
    requires |w| > 0
  {
    if |s| < |w| then 0
    else if s[..|w|] == w then 1 + Count(s[|w|..], w)
    else Count(s[1..], w)
  }

  /** A text counts at least one occurrence of `w` exactly when it contains `w`. */
  lemma {:induction false} CountPositiveIffContains(s: string, w: string)
    requires |w| > 0
    ensures Count(s, w) > 0 <==> Contains(s, w)
    decreases |s|
  {
    if |s| < |w| {
    } else if s[..|w|] == w {
      assert OccursAt(s, w, 0);
    } else {
      CountPositiveIffContains(s[1..], w);
      assert !OccursAt(s, w, 0);
      if Contains(s[1..], w) {
        var i: nat :| OccursAt(s[1..], w, i);
        OccursAtTail(s, w, i);
      }
      if Contains(s, w) {
        var i: nat :| OccursAt(s, w, i);
        OccursAtTail(s, w, i - 1);
      }
    }
  }

  /** `sep.join(parts)` */
  function Join(parts: seq<string>, sep: string): string {
    if parts == [] then ""
    else if |parts| == 1 then parts[0]
    else parts[0] + sep + Join(parts[1..], sep)
  }

  /** A substring of either half is a substring of the concatenation. */
  lemma ContainsConcat(a: string, b: string, sub: string)
    ensures Contains(a, sub) ==> Contains(a + b, sub)
    ensures Contains(b, sub) ==> Contains(a + b, sub)
  {
    if Contains(a, sub) {
      var i: nat :| i <= |a| && OccursAt(a, sub, i);
      assert (a + b)[i..i + |sub|] == a[i..i + |sub|];
      assert OccursAt(a + b, sub, i);
    }
    if Contains(b, sub) {
      var i: nat :| i <= |b| && OccursAt(b, sub, i);
      assert (a + b)[|a| + i..|a| + i + |sub|] == b[i..i + |sub|];
      assert OccursAt(a + b, sub, |a| + i);
    }
  }

  /** Every part appears in the joined string. */
  lemma {:induction false} JoinContainsParts(parts: seq<string>, sep: string)
    ensures forall i | 0 <= i < |parts| :: Contains(Join(parts, sep), parts[i])
  {
    if |parts| == 1 {
      assert OccursAt(parts[0], parts[0], 0);
    } else if |parts| > 1 {
      var rest := Join(parts[1..], sep);
      JoinContainsParts(parts[1..], sep);
      assert Join(parts, sep) == parts[0] + (sep + rest);
      assert OccursAt(parts[0], parts[0], 0);
      ContainsConcat(parts[0], sep + rest, parts[0]);
      forall i | 1 <= i < |parts| ensures Contains(Join(parts, sep), parts[i]) {
        assert parts[1..][i - 1] == parts[i];
        ContainsConcat(sep, rest, parts[i]);
        ContainsConcat(parts[0], sep + rest, parts[i]);
      }
    }
  }

  /** Python's `str(n)` for an integer. */
  function IntToString(n: int): string {
    if n < 0 then "-" + NatToString(-n) else NatToString(n)
  }

  function NatToString(n: nat): (s: string)
    ensures |s| > 0
    ensures forall i :: 0 <= i < |s| ==> '0' <= s[i] <= '9'
  {
    var d := ['0' + (n % 10) as char];
    if n < 10 then d else NatToString(n / 10) + d
  }
}
