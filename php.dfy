/**
 * The slice of PHP's value semantics that the plugin leans on:
 * ordered arrays (a new key is appended, an existing key is overwritten in
 * place), `empty()`, loose `==` against string and integer literals, the
 * `(int)` and `(string)` casts, and a few string helpers
 * (`strtolower`, `trim`, `stripos`).
 *
 * Loose comparison follows PHP 7: an integer compared with a non-numeric
 * string compares against the string's leading integer prefix.
 */
module Php {

  datatype Option<T> = None | Some(value: T)

  /** A PHP array key. */
  datatype Key = IK(i: int) | SK(s: string)

  /** A PHP value as the plugin sees it. Money is in integer cents. */
  datatype Value =
    | VStr(s: string)
    | VInt(n: int)
    | VBool(b: bool)
    | VNull
    | VArr(a: seq<Entry>)

  /** One key => value pair of an ordered PHP array. */
  datatype Entry = Entry(k: Key, v: Value)

  // ---------------------------------------------------------------------
  // empty() and truthiness
  // ---------------------------------------------------------------------

  /** `empty($s)` for a string: "" and "0" are empty. */
  predicate EmptyStr(s: string)
  {
    s == "" || s == "0"
  }

  /** `empty($v)`: "", "0", 0, false, null and [] are empty. */
  predicate Empty(v: Value)
  {
    match v
    case VStr(s) => EmptyStr(s)
    case VInt(n) => n == 0
    case VBool(b) => !b
    case VNull => true
    case VArr(a) => |a| == 0
  }

  // ---------------------------------------------------------------------
  // Ordered arrays
  // ---------------------------------------------------------------------

  /** The keys of an array, in order. */
  function Keys(a: seq<Entry>): (ks: seq<Key>)
    ensures |ks| == |a|
    ensures forall i :: 0 <= i < |a| ==> ks[i] == a[i].k
  {
    if |a| == 0 then [] else [a[0].k] + Keys(a[1..])
  }

  /** No key occurs twice (every array PHP builds has this shape). */
  predicate UniqueKeys(a: seq<Entry>)
  {
    forall i, j :: 0 <= i < j < |a| ==> a[i].k != a[j].k
  }

  /** Position of key `k` in `a`, or `|a|` when absent. */
  function KeyIndex(a: seq<Entry>, k: Key): (i: nat)
    ensures i <= |a|
    ensures forall j :: 0 <= j < i ==> a[j].k != k
    ensures i < |a| ==> a[i].k == k
  {
    if |a| == 0 then 0
    else if a[0].k == k then 0
    else 1 + KeyIndex(a[1..], k)
  }

  /** `$a[$k]` when it is set. */
  function Lookup(a: seq<Entry>, k: Key): (r: Option<Value>)
    ensures r.None? <==> (forall j :: 0 <= j < |a| ==> a[j].k != k)
    ensures r.Some? ==> exists j :: 0 <= j < |a| && a[j].k == k && a[j].v == r.value
  {
    var i := KeyIndex(a, k);
    if i < |a| then Some(a[i].v) else None
  }

  /** `$v[$k]`: null when `$v` is not an array or `$k` is not set. */
  function Get(v: Value, k: string): Value
  {
    match v
    case VArr(a) => (match Lookup(a, SK(k)) case Some(x) => x case None => VNull)
    case _ => VNull
  }

  /** `$a[$k] = $v`: overwrites in place when set, appends otherwise. */
  function Put(a: seq<Entry>, k: Key, v: Value): (r: seq<Entry>)
    ensures Lookup(r, k) == Some(v)
    ensures forall k' {:trigger Lookup(r, k')} :: k' != k ==> Lookup(r, k') == Lookup(a, k')
    ensures |r| == |a| || (|r| == |a| + 1 && r == a + [Entry(k, v)])
    ensures Lookup(a, k).Some? ==> |r| == |a| && Keys(r) == Keys(a)
    ensures Lookup(a, k).None? ==> r == a + [Entry(k, v)]
    ensures UniqueKeys(a) ==> UniqueKeys(r)
  {
    var i := KeyIndex(a, k);
    PutAtIndexKeeps(a, i, k, v);
    if i < |a| then a[i := Entry(k, v)] else a + [Entry(k, v)]
  }

  lemma PutAtIndexKeeps(a: seq<Entry>, i: nat, k: Key, v: Value)
    requires i == KeyIndex(a, k)
    ensures var r := if i < |a| then a[i := Entry(k, v)] else a + [Entry(k, v)];
      Lookup(r, k) == Some(v) &&
      (forall k' :: k' != k ==> Lookup(r, k') == Lookup(a, k')) &&
      (i < |a| ==> Keys(r) == Keys(a))
  {
    var r := if i < |a| then a[i := Entry(k, v)] else a + [Entry(k, v)];
    assert KeyIndex(r, k) == i by { KeyIndexOfWrite(a, i, k, v); }
    forall k' | k' != k
      ensures Lookup(r, k') == Lookup(a, k')
    {
      KeyIndexOther(a, i, k, v, k');
    }
    if i < |a| {
      assert Keys(r) == Keys(a);
    }
  }

  lemma {:induction false} KeyIndexOfWrite(a: seq<Entry>, i: nat, k: Key, v: Value)
    requires i == KeyIndex(a, k)
    ensures var r := if i < |a| then a[i := Entry(k, v)] else a + [Entry(k, v)];
      KeyIndex(r, k) == i
  {
    var r := if i < |a| then a[i := Entry(k, v)] else a + [Entry(k, v)];
    assert r[i].k == k;
    assert forall j :: 0 <= j < i ==> r[j] == a[j];
  }

  lemma {:induction false} KeyIndexOther(a: seq<Entry>, i: nat, k: Key, v: Value, k': Key)
    requires i == KeyIndex(a, k) && k' != k
    ensures var r := if i < |a| then a[i := Entry(k, v)] else a + [Entry(k, v)];
      Lookup(r, k') == Lookup(a, k')
  {
    var r := if i < |a| then a[i := Entry(k, v)] else a + [Entry(k, v)];
    var ja := KeyIndex(a, k');
    var jr := KeyIndex(r, k');
    assert forall j :: 0 <= j < |a| ==> (r[j].k == k' <==> a[j].k == k');
    assert |r| > |a| ==> r[|a|].k != k';
    if ja < |a| {
      assert jr == ja;
    } else {
      assert jr == |r|;
    }
  }

  /** The sub-array at `k`, or [] when unset or not an array (PHP auto-vivifies). */
  function Sub(a: seq<Entry>, k: Key): seq<Entry>
  {
    match Lookup(a, k)
    case Some(VArr(b)) => b
    case _ => []
  }

  /** `$a[p0][p1]...[pn] = $v`, creating the intermediate arrays. */
  function SetPath(a: seq<Entry>, p: seq<Key>, v: Value): seq<Entry>
    requires |p| > 0
    decreases |p|
  {
    if |p| == 1 then Put(a, p[0], v)
    else Put(a, p[0], VArr(SetPath(Sub(a, p[0]), p[1..], v)))
  }

  /** `$a[p0][p1]...[pn]` when every step is set. */
  function GetPath(a: seq<Entry>, p: seq<Key>): Option<Value>
    requires |p| > 0
    decreases |p|
  {
    if |p| == 1 then Lookup(a, p[0])
    else match Lookup(a, p[0])
      case Some(VArr(b)) => GetPath(b, p[1..])
      case _ => None
  }

  /** One path is a prefix of the other. */
  predicate Related(p: seq<Key>, q: seq<Key>)
  {
    (|p| <= |q| && q[..|p|] == p) || (|q| <= |p| && p[..|q|] == q)
  }

  /** A write is read back along the same path. */
  lemma {:induction false} GetSetPath(a: seq<Entry>, p: seq<Key>, v: Value)
    requires |p| > 0
    ensures GetPath(SetPath(a, p, v), p) == Some(v)
    decreases |p|
  {
    if |p| > 1 {
      GetSetPath(Sub(a, p[0]), p[1..], v);
    }
  }

  /** A write leaves every unrelated path as it was. */
  lemma {:induction false} GetSetPathOther(a: seq<Entry>, p: seq<Key>, q: seq<Key>, v: Value)
    requires |p| > 0 && |q| > 0 && !Related(p, q)
    ensures GetPath(SetPath(a, p, v), q) == GetPath(a, q)
    decreases |p|
  {
    if p[0] == q[0] {
      UnrelatedTails(p, q);
      var sa := Sub(a, p[0]);
      var s' := SetPath(sa, p[1..], v);
      assert SetPath(a, p, v) == Put(a, p[0], VArr(s'));
      assert Lookup(SetPath(a, p, v), q[0]) == Some(VArr(s'));
      assert GetPath(SetPath(a, p, v), q) == GetPath(s', q[1..]);
      GetSetPathOther(sa, p[1..], q[1..], v);
      GetPathViaSub(a, q);
    } else {
      PutOtherPath(a, p[0], SetPathValue(a, p, v), q);
    }
  }

  /** The value `SetPath` stores under the path's first key. */
  function SetPathValue(a: seq<Entry>, p: seq<Key>, v: Value): Value
    requires |p| > 0
  {
    if |p| == 1 then v else VArr(SetPath(Sub(a, p[0]), p[1..], v))
  }

  lemma PutOtherPath(a: seq<Entry>, k: Key, x: Value, q: seq<Key>)
    requires |q| > 0 && q[0] != k
    ensures GetPath(Put(a, k, x), q) == GetPath(a, q)
  {
    assert Lookup(Put(a, k, x), q[0]) == Lookup(a, q[0]);
  }

  lemma UnrelatedTails(p: seq<Key>, q: seq<Key>)
    requires |p| > 0 && |q| > 0 && !Related(p, q) && p[0] == q[0]
    ensures |p| > 1 && |q| > 1 && !Related(p[1..], q[1..])
  {
  }

  /** A read of a longer path goes through the sub-array at its first key. */
  lemma GetPathViaSub(a: seq<Entry>, q: seq<Key>)
    requires |q| > 1
    ensures GetPath(a, q) == GetPath(Sub(a, q[0]), q[1..])
  {
    match Lookup(a, q[0])
    case Some(VArr(b)) =>
    case _ =>
      GetPathOfEmpty(q[1..]);
  }

  lemma {:induction false} GetPathOfEmpty(q: seq<Key>)
    requires |q| > 0
    ensures GetPath([], q) == None
  {
  }

  // ---------------------------------------------------------------------
  // Casts and loose comparison
  // ---------------------------------------------------------------------

  predicate IsDigit(c: char)
  {
    '0' <= c <= '9'
  }

  /** The characters of PCRE's `\s`. */
  predicate IsPcreSpace(c: char)
  {
    c == ' ' || c == '\t' || c == '\n' || c as int == 11 || c as int == 12 || c == '\r'
  }

  /** Decimal digits of a natural number. */
  function NatToStr(n: nat): (s: string)
    ensures |s| > 0 && forall i :: 0 <= i < |s| ==> IsDigit(s[i])
    decreases n
  {
    var d := [(('0' as int) + n % 10) as char];
    if n < 10 then d else NatToStr(n / 10) + d
  }

  /** `(string)$n` for an integer. */
  function IntToStr(n: int): string
  {
    if n < 0 then "-" + NatToStr(-n) else NatToStr(n)
  }

  /** Value of a run of decimal digits. */
  function DigitsValue(s: string): nat
    requires forall i :: 0 <= i < |s| ==> IsDigit(s[i])
    decreases |s|
  {
    if |s| == 0 then 0
    else
      assert IsDigit(s[|s| - 1]);
      DigitsValue(s[..|s| - 1]) * 10 + (s[|s| - 1] as int - '0' as int)
  }

  /** Length of the leading run of digits. */
  function DigitRun(s: string): (n: nat)
    ensures n <= |s|
    ensures forall i :: 0 <= i < n ==> IsDigit(s[i])
    ensures n < |s| ==> !IsDigit(s[n])
  {
    if |s| == 0 || !IsDigit(s[0]) then 0 else 1 + DigitRun(s[1..])
  }

  /** The integer PHP reads off the front of a string (`(int)"12abc"` is 12). */
  function IntPrefix(s: string): int
  {
    if |s| > 0 && IsPcreSpace(s[0]) then IntPrefix(s[1..])
    else if |s| > 0 && s[0] == '-' then -(DigitsValue(s[1..][..DigitRun(s[1..])]) as int)
    else if |s| > 0 && s[0] == '+' then DigitsValue(s[1..][..DigitRun(s[1..])])
    else DigitsValue(s[..DigitRun(s)])
  }

  /** `(string)$v`. */
  function ToStr(v: Value): string
  {
    match v
    case VStr(s) => s
    case VInt(n) => IntToStr(n)
    case VBool(b) => if b then "1" else ""
    case VNull => ""
    case VArr(_) => "Array"
  }

  /** `(int)$v`: a non-empty array casts to 1, an empty one to 0. */
  function CastInt(v: Value): int
  {
    match v
    case VStr(s) => IntPrefix(s)
    case VInt(n) => n
    case VBool(b) => if b then 1 else 0
    case VNull => 0
    case VArr(a) => if |a| == 0 then 0 else 1
  }

  /** `$v == 'lit'` for a literal with no leading digits (PHP 7). */
  predicate LooseEqStr(v: Value, lit: string)
  {
    match v
    case VStr(s) => s == lit
    case VInt(n) => n == 0
    case VBool(b) => b == !EmptyStr(lit)
    case VNull => lit == ""
    case VArr(_) => false
  }

  /** `$v == $n` for an integer `$n` (PHP 7). */
  predicate LooseEqInt(v: Value, n: int)
  {
    match v
    case VStr(s) => IntPrefix(s) == n
    case VInt(m) => m == n
    case VBool(b) => b == (n != 0)
    case VNull => n == 0
    case VArr(_) => false
  }

  // ---------------------------------------------------------------------
  // Strings
  // ---------------------------------------------------------------------

  function LowerChar(c: char): char
  {
    if 'A' <= c <= 'Z' then (c as int + 32) as char else c
  }

  /** `strtolower` (ASCII letters only). */
  function Lower(s: string): (r: string)
    ensures |r| == |s|
    ensures forall i :: 0 <= i < |s| ==> r[i] == LowerChar(s[i])
  {
    if |s| == 0 then [] else [LowerChar(s[0])] + Lower(s[1..])
  }

  /** The characters `trim()` strips by default. */
  predicate IsTrimChar(c: char)
  {
    c == ' ' || c == '\t' || c == '\n' || c == '\r' || c as int == 0 || c as int == 11
  }

  function TrimLeft(s: string): (r: string)
    ensures |r| <= |s| && r == s[|s| - |r|..]
    ensures |r| > 0 ==> !IsTrimChar(r[0])
    ensures forall i :: 0 <= i < |s| - |r| ==> IsTrimChar(s[i])
  {
    if |s| > 0 && IsTrimChar(s[0]) then TrimLeft(s[1..]) else s
  }

  function TrimRight(s: string): (r: string)
    ensures |r| <= |s| && r == s[..|r|]
    ensures |r| > 0 ==> !IsTrimChar(r[|r| - 1])
    ensures forall i :: |r| <= i < |s| ==> IsTrimChar(s[i])
  {
    if |s| > 0 && IsTrimChar(s[|s| - 1]) then TrimRight(s[..|s| - 1]) else s
  }

  /** `trim($s)`. */
  function Trim(s: string): (r: string)
    ensures |r| > 0 ==> !IsTrimChar(r[0]) && !IsTrimChar(r[|r| - 1])
    ensures |r| <= |s|
  {
    TrimRight(TrimLeft(s))
  }

  /** Case-insensitive match of `needle` at position `i` of `h`. */
  predicate MatchesAtCI(h: string, needle: string, i: nat)
  {
    i + |needle| <= |h| && Lower(h[i..i + |needle|]) == Lower(needle)
  }

  /** `stripos($h, $needle)`: the first case-insensitive match, when any. */
  function StrIPos(h: string, needle: string): (r: Option<nat>)
    ensures r.Some? ==> (MatchesAtCI(h, needle, r.value)
      && forall j :: 0 <= j < r.value ==> !MatchesAtCI(h, needle, j))
    ensures r.None? ==> forall j :: 0 <= j <= |h| ==> !MatchesAtCI(h, needle, j)
  {
    StrIPosFrom(h, needle, 0)
  }

  function StrIPosFrom(h: string, needle: string, from: nat): (r: Option<nat>)
    requires forall j :: 0 <= j < from ==> !MatchesAtCI(h, needle, j)
    ensures r.Some? ==> (from <= r.value && MatchesAtCI(h, needle, r.value)
      && forall j :: 0 <= j < r.value ==> !MatchesAtCI(h, needle, j))
    ensures r.None? ==> forall j :: 0 <= j <= |h| ==> !MatchesAtCI(h, needle, j)
    decreases |h| + 1 - from
  {
    if from + |needle| > |h| then None
    else if MatchesAtCI(h, needle, from) then Some(from)
    else StrIPosFrom(h, needle, from + 1)
  }

  /** Where a key sits in a concatenation. */
  lemma {:induction false} KeyIndexConcat(a: seq<Entry>, b: seq<Entry>, k: Key)
    ensures KeyIndex(a + b, k) == if KeyIndex(a, k) < |a| then KeyIndex(a, k) else |a| + KeyIndex(b, k)
  {
    if |a| > 0 {
      assert (a + b)[0] == a[0];
      assert (a + b)[1..] == a[1..] + b;
      KeyIndexConcat(a[1..], b, k);
    } else {
      assert a + b == b;
    }
  }

  /** A lookup in `a + b` finds `a`'s entry first. */
  lemma LookupConcat(a: seq<Entry>, b: seq<Entry>, k: Key)
    ensures Lookup(a + b, k) == if Lookup(a, k).Some? then Lookup(a, k) else Lookup(b, k)
  {
    KeyIndexConcat(a, b, k);
    if KeyIndex(a, k) < |a| {
      assert (a + b)[KeyIndex(a, k)] == a[KeyIndex(a, k)];
    } else {
      assert KeyIndex(b, k) < |b| ==> (a + b)[|a| + KeyIndex(b, k)] == b[KeyIndex(b, k)];
    }
  }

  /** A lookup in a one-entry array. */
  lemma LookupSingleton(e: Entry, k: Key)
    ensures Lookup([e], k) == if e.k == k then Some(e.v) else None
  {
  }

  /** A lookup in three or four literal entries reads the first with the key. */
  lemma LookupThree(e1: Entry, e2: Entry, e3: Entry, k: Key)
    ensures Lookup([e1, e2, e3], k) ==
      if e1.k == k then Some(e1.v) else if e2.k == k then Some(e2.v) else if e3.k == k then Some(e3.v) else None
  {
    assert [e1, e2, e3] == [e1] + [e2] + [e3];
    LookupSingleton(e1, k);
    LookupSingleton(e2, k);
    LookupSingleton(e3, k);
    LookupConcat([e1], [e2], k);
    LookupConcat([e1] + [e2], [e3], k);
  }

  lemma LookupFour(e1: Entry, e2: Entry, e3: Entry, e4: Entry, k: Key)
    ensures Lookup([e1, e2, e3, e4], k) ==
      if e1.k == k then Some(e1.v) else if e2.k == k then Some(e2.v) else if e3.k == k then Some(e3.v)
      else if e4.k == k then Some(e4.v) else None
  {
    assert [e1, e2, e3, e4] == [e1, e2, e3] + [e4];
    LookupThree(e1, e2, e3, k);
    LookupSingleton(e4, k);
    LookupConcat([e1, e2, e3], [e4], k);
  }

  /** The first answer when it is set, the second otherwise. */
  function OrElse(x: Option<Value>, y: Option<Value>): (r: Option<Value>)
    ensures r.Some? <==> x.Some? || y.Some?
  {
    if x.Some? then x else y
  }

  /** A lookup in seven blocks laid end to end reads the first block that holds the key. */
  lemma LookupSeven(a: seq<Entry>, b: seq<Entry>, c: seq<Entry>, d: seq<Entry>, e: seq<Entry>, f: seq<Entry>,
                    g: seq<Entry>, k: Key)
    ensures Lookup(a + b + c + d + e + f + g, k) == OrElse(Lookup(a, k), OrElse(Lookup(b, k), OrElse(Lookup(c, k),
      OrElse(Lookup(d, k), OrElse(Lookup(e, k), OrElse(Lookup(f, k), Lookup(g, k)))))))
  {
    LookupConcat(a, b, k);
    LookupConcat(a + b, c, k);
    LookupConcat(a + b + c, d, k);
    LookupConcat(a + b + c + d, e, k);
    LookupConcat(a + b + c + d + e, f, k);
    LookupConcat(a + b + c + d + e + f, g, k);
  }

  /** `Put` at a known position: the entry there is replaced in place. */
  lemma PutAt(a: seq<Entry>, i: nat, k: Key, v: Value)
    requires i < |a| && a[i].k == k
    requires forall j :: 0 <= j < i ==> a[j].k != k
    ensures Put(a, k, v) == a[i := Entry(k, v)]
  {
    assert KeyIndex(a, k) == i;
  }

  /** Copying an array entry by entry with `$b[$k] = $v`. */
  function CopyArray(a: seq<Entry>): (r: seq<Entry>)
    ensures UniqueKeys(r)
  {
    if |a| == 0 then [] else Put(CopyArray(a[..|a| - 1]), a[|a| - 1].k, a[|a| - 1].v)
  }

  /** A copy of an array that PHP built is the array itself. */
  lemma {:induction false} CopyArrayOfUnique(a: seq<Entry>)
    requires UniqueKeys(a)
    ensures CopyArray(a) == a
  {
    if |a| > 0 {
      var init := a[..|a| - 1];
      CopyArrayOfUnique(init);
      assert Lookup(init, a[|a| - 1].k).None?;
      assert init + [a[|a| - 1]] == a;
    }
  }

  /** Merging in one entry is writing it. */
  lemma MergeStrSingle(a: seq<Entry>, e: Entry)
    ensures MergeStr(a, [e]) == Put(a, e.k, e.v)
  {
    assert [e][..0] == [];
  }

  /** `array_merge` of two arrays whose keys are strings: later values win, first positions stay. */
  function MergeStr(a: seq<Entry>, b: seq<Entry>): seq<Entry>
  {
    if |b| == 0 then a
    else Put(MergeStr(a, b[..|b| - 1]), b[|b| - 1].k, b[|b| - 1].v)
  }

  lemma {:induction false} MergeStrLookup(a: seq<Entry>, b: seq<Entry>, k: Key)
    requires UniqueKeys(b)
    ensures Lookup(MergeStr(a, b), k) == if Lookup(b, k).Some? then Lookup(b, k) else Lookup(a, k)
  {
    if |b| > 0 {
      var init := b[..|b| - 1];
      var last := b[|b| - 1];
      assert b == init + [last];
      MergeStrLookup(a, init, k);
      KeyIndexSnoc(init, last, k);
      if last.k == k {
        assert forall j :: 0 <= j < |init| ==> init[j].k == b[j].k;
      }
    }
  }

  /** Where a key sits once one more entry is appended. */
  lemma {:induction false} KeyIndexSnoc(a: seq<Entry>, e: Entry, k: Key)
    ensures KeyIndex(a + [e], k) ==
      if KeyIndex(a, k) < |a| then KeyIndex(a, k) else if e.k == k then |a| else |a| + 1
  {
    if |a| > 0 {
      assert (a + [e])[0] == a[0];
      assert (a + [e])[1..] == a[1..] + [e];
      KeyIndexSnoc(a[1..], e, k);
    }
  }

  /** Sum of a sequence of integers. */
  function Sum(xs: seq<int>): int
  {
    if |xs| == 0 then 0 else Sum(xs[..|xs| - 1]) + xs[|xs| - 1]
  }

  /** `array_merge` of two lists (integer keys): the values in order, renumbered from 0. */
  function ListMerge(a: seq<Entry>, b: seq<Entry>): (r: seq<Entry>)
    ensures |r| == |a| + |b|
  {
    seq(|a| + |b|, k requires 0 <= k < |a| + |b| => Entry(IK(k), if k < |a| then a[k].v else b[k - |a|].v))
  }
}
