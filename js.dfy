/** The parts of the JavaScript runtime that the indexer, the server and the
    command line rely on: optional values, JSON values and JSON files, the
    string methods `includes`, `split('/').pop()`, `replace(/-/g, ' ')` and
    `toLowerCase`, the `||` fallback on strings, and `Array.prototype.filter`. */
module Js {

  datatype Option<+T> = None | Some(value: T)

  /** A value, or the message of the exception that was thrown instead. */
  datatype Result<+T> = Ok(value: T) | Err(message: string)

  /** How a call that may throw ended: normally with a value, or with a thrown error. */
  datatype Completion<+T> = Normal(value: T) | Throw(error: string)

  /** A JSON-like JavaScript value. Numbers are integers here. */
  datatype JsValue =
    | JUndefined
    | JNull
    | JBool(b: bool)
    | JNumber(n: int)
    | JString(s: string)
    | JArray(elems: seq<JsValue>)
    | JObject(fields: map<string, JsValue>)

  /** What reading a JSON file gives: no file, a file whose text does not
      parse, or the parsed value. */
  datatype StoredFile<+T> = Missing | Unparseable | Parsed(value: T)

  /** Every value is a string. */
  predicate AllStrings(vs: seq<JsValue>) {
    forall i :: 0 <= i < |vs| ==> vs[i].JString?
  }

  /** The strings held by a list of string values. */
  function AsStrings(vs: seq<JsValue>): (ss: seq<string>)
    requires AllStrings(vs)
    ensures |ss| == |vs|
    ensures forall i :: 0 <= i < |vs| ==> vs[i] == JString(ss[i])
  {
    seq(|vs|, i requires 0 <= i < |vs| => vs[i].s)
  }

  /** Truthiness of a string that may be undefined. */
  predicate TruthyString(v: Option<string>) {
    v.Some? && v.value != ""
  }

  /** `v || fallback` for a string that may be undefined. */
  function Or(v: Option<string>, fallback: string): (r: string)
    ensures TruthyString(v) ==> r == v.value
    ensures !TruthyString(v) ==> r == fallback
  {
    if TruthyString(v) then v.value else fallback
  }

  /** The list held by a JSON file, as both loaders read it: the parsed
      value when the file exists and parses, the empty list otherwise. */
  function LoadList<T>(file: StoredFile<seq<T>>): (r: seq<T>)
    ensures file.Parsed? ==> r == file.value
    ensures !file.Parsed? ==> r == []
  {
    match file
    case Parsed(v) => v
    case _ => []
  }

  /** `sub` occurs in `s` starting at index `i`. */
  predicate OccursAt(s: string, sub: string, i: int) {
    0 <= i <= |s| - |sub| && s[i..i + |sub|] == sub
  }

  /** `s.includes(sub)`: some window of `s` equals `sub`. */
  predicate Includes(s: string, sub: string) {
    exists i :: 0 <= i <= |s| - |sub| && OccursAt(s, sub, i)
  }

  lemma IncludesInfix(pre: string, sub: string, post: string)
    ensures Includes(pre + sub + post, sub)
  {
    var s := pre + sub + post;
    assert s[|pre|..|pre| + |sub|] == sub;
    assert OccursAt(s, sub, |pre|);
  }

  /** A string includes whatever any of its infixes includes. */
  lemma IncludesInfixOf(pre: string, mid: string, post: string, sub: string)
    requires Includes(mid, sub)
    ensures Includes(pre + mid + post, sub)
  {
    var i :| 0 <= i <= |mid| - |sub| && OccursAt(mid, sub, i);
    var s := pre + mid + post;
    assert s[|pre| + i..|pre| + i + |sub|] == mid[i..i + |sub|];
    assert OccursAt(s, sub, |pre| + i);
  }

  /** `s.split('/').pop()`: the part of `s` after its last '/', or all of
      `s` when it has none. It is the longest suffix of `s` without a '/'. */
  function LastSegment(s: string): (r: string)
    ensures '/' !in r
    ensures |r| <= |s| && r == s[|s| - |r|..]
    ensures |r| < |s| ==> s[|s| - |r| - 1] == '/'
  {
    if |s| == 0 || s[|s| - 1] == '/' then ""
    else LastSegment(s[..|s| - 1]) + [s[|s| - 1]]
  }

  /** Whatever precedes the last '/' does not matter. */
  lemma LastSegmentAfterSlash(pre: string, seg: string)
    requires '/' !in seg
    ensures LastSegment(pre + "/" + seg) == seg
  {
    var s := pre + "/" + seg;
    var r := LastSegment(s);
    assert s[|s| - |seg| - 1] == '/';
    assert |r| == |seg|;
    assert s[|s| - |seg|..] == seg;
  }

  /** `s.replace(/-/g, ' ')`. */
  function DashesToSpaces(s: string): (r: string)
    ensures |r| == |s| && '-' !in r
    ensures forall i :: 0 <= i < |s| && s[i] != '-' ==> r[i] == s[i]
    ensures forall i :: 0 <= i < |s| && s[i] == '-' ==> r[i] == ' '
  {
    if s == [] then []
    else [if s[0] == '-' then ' ' else s[0]] + DashesToSpaces(s[1..])
  }

  function LowerChar(c: char): (d: char) {
    if 'A' <= c <= 'Z' then (c as int - 'A' as int + 'a' as int) as char else c
  }

  /** `s.toLowerCase()` on the ASCII letters. */
  function ToLower(s: string): (r: string)
    ensures |r| == |s|
    ensures forall i :: 0 <= i < |s| ==> r[i] == LowerChar(s[i])
    ensures forall i :: 0 <= i < |s| ==> !('A' <= r[i] <= 'Z')
  {
    if s == [] then [] else [LowerChar(s[0])] + ToLower(s[1..])
  }

  /** Lowering works character by character, so it distributes over concatenation. */
  lemma ToLowerAppend(a: string, b: string)
    ensures ToLower(a + b) == ToLower(a) + ToLower(b)
  {
    var l, r := ToLower(a + b), ToLower(a) + ToLower(b);
    forall i | 0 <= i < |l| ensures l[i] == r[i] {
      if i < |a| {
        assert (a + b)[i] == a[i];
      } else {
        assert (a + b)[i] == b[i - |a|];
      }
    }
  }

  /** `s.filter(p)`. */
  function Filter<T>(s: seq<T>, p: T -> bool): (r: seq<T>)
    ensures |r| <= |s|
    ensures forall i :: 0 <= i < |r| ==> p(r[i])
    ensures forall i :: 0 <= i < |r| ==> r[i] in s
    ensures forall i :: 0 <= i < |s| && p(s[i]) ==> s[i] in r
  {
    if s == [] then [] else (if p(s[0]) then [s[0]] else []) + Filter(s[1..], p)
  }

  /** Filtering distributes over concatenation, so it keeps the input order. */
  lemma {:induction false} FilterAppend<T>(a: seq<T>, b: seq<T>, p: T -> bool)
    ensures Filter(a + b, p) == Filter(a, p) + Filter(b, p)
  {
    if a == [] {
      assert a + b == b;
    } else {
      assert (a + b)[0] == a[0];
      assert (a + b)[1..] == a[1..] + b;
      FilterAppend(a[1..], b, p);
    }
  }

  lemma FilterSingle<T>(x: T, p: T -> bool)
    ensures Filter([x], p) == if p(x) then [x] else []
  {
    assert [x][1..] == [];
  }
}
