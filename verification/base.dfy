/** Shared vocabulary: results, the error taxonomy of the services, ordered
    dictionaries (the insertion-ordered `Dictionary`/`JsonObject` the source
    relies on), 32-bit wrap-around and a few .NET string helpers. */
module Base {

  datatype Option<+T> = None | Some(value: T) {
    function GetOr(default: T): T {
      match this
      case Some(v) => v
      case None => default
    }
  }

  /** Every exception the modelled code can raise, as a value. */
  datatype Error =
    | NotAnObject                      // AsObject / string indexer on a node that is not an object
    | WrongKind                        // GetValue<T> on a value of another kind
    | Missing                          // `!` on an absent node (NullReferenceException)
    | MalformedJson                    // the JSON parser rejected the text
    | DuplicateSource(source: string)  // a body key already produced by the parameters
    | UnsupportedContent(contentTypes: seq<string>)
    | RefTooDeep                       // $ref chain longer than the schema count (cyclic chain)
    | EmptyBatch                       // importIds[0] on an empty batch
    | MixedImports(importIds: seq<int>)
    | ImportNotFound(id: int)
    | ToolNotFound(id: int)
    | ImportNameTaken(name: string)
    | SignatureTaken(toolId: int)
    | ToolNameTaken(toolId: int)
    | ConstraintViolation              // the database refused SaveChanges
    | DownloadFailed
    | UnknownTool(name: string)
    | InsufficientStock
    | DuplicateIsbn(isbn: string)

  datatype Result<+T> = Success(value: T) | Failure(error: Error) {
    predicate IsFailure() {
      Failure?
    }

    function PropagateFailure<U>(): Result<U>
      requires Failure?
    {
      Failure(error)
    }

    function Extract(): T
      requires Success?
    {
      value
    }
  }

  datatype Outcome = Pass | Fail(error: Error)

  // ---------------------------------------------------------------------------
  // Ordered dictionaries: a sequence of (key, value) pairs in insertion order.

  function Keys<K, V>(m: seq<(K, V)>): (ks: seq<K>)
    ensures |ks| == |m|
    ensures forall i :: 0 <= i < |m| ==> ks[i] == m[i].0
  {
    if m == [] then [] else [m[0].0] + Keys(m[1..])
  }

  /** The value of the first entry with key `k` (`dict[k]` / `TryGetValue`). */
  function Get<K(==), V>(m: seq<(K, V)>, k: K): (r: Option<V>)
    ensures r.None? <==> k !in Keys(m)
  {
    if m == [] then None
    else if m[0].0 == k then Some(m[0].1)
    else
      assert Keys(m) == [m[0].0] + Keys(m[1..]);
      Get(m[1..], k)
  }

  /** `dict[k] = v`: replaces the value in place when `k` is present, appends otherwise. */
  function Put<K(==,!new), V>(m: seq<(K, V)>, k: K, v: V): (r: seq<(K, V)>)
    ensures k in Keys(m) ==> Keys(r) == Keys(m)
    ensures k !in Keys(m) ==> Keys(r) == Keys(m) + [k]
    ensures Get(r, k) == Some(v)
  {
    if m == [] then [(k, v)]
    else if m[0].0 == k then
      assert Keys(m) == [k] + Keys(m[1..]);
      assert Keys([(k, v)] + m[1..]) == [k] + Keys(m[1..]);
      [(k, v)] + m[1..]
    else
      var rest := Put(m[1..], k, v);
      assert Keys(m) == [m[0].0] + Keys(m[1..]);
      assert Keys([m[0]] + rest) == [m[0].0] + Keys(rest);
      [m[0]] + rest
  }

  /** `dict[k] = v` leaves every other key's value alone. */
  lemma {:induction false} PutKeepsOthers<K(!new), V>(m: seq<(K, V)>, k: K, v: V, other: K)
    requires other != k
    ensures Get(Put(m, k, v), other) == Get(m, other)
  {
    if m != [] && m[0].0 != k {
      PutKeepsOthers(m[1..], k, v, other);
      assert Put(m, k, v) == [m[0]] + Put(m[1..], k, v);
      assert ([m[0]] + Put(m[1..], k, v))[1..] == Put(m[1..], k, v);
    }
  }

  predicate NoDuplicates<T(==)>(xs: seq<T>) {
    forall i, j :: 0 <= i < j < |xs| ==> xs[i] != xs[j]
  }

  /** LINQ `Distinct()`: first occurrences, in order. */
  function Dedup<T(==,!new)>(xs: seq<T>): (r: seq<T>)
    ensures NoDuplicates(r)
    ensures forall x :: x in r <==> x in xs
    ensures |r| <= |xs|
  {
    if xs == [] then []
    else
      var d := Dedup(xs[..|xs| - 1]);
      var x := xs[|xs| - 1];
      assert xs == xs[..|xs| - 1] + [x];
      if x in d then d else d + [x]
  }

  lemma {:induction false} DedupSingleValue<T(!new)>(xs: seq<T>, x: T)
    requires forall i :: 0 <= i < |xs| ==> xs[i] == x
    ensures xs != [] ==> Dedup(xs) == [x]
  {
    if |xs| > 1 {
      DedupSingleValue(xs[..|xs| - 1], x);
    }
  }

  // ---------------------------------------------------------------------------
  // LINQ-style queries over sequences.

  /** A relation that holds between every element and each later one. */
  predicate Pairwise<T>(xs: seq<T>, rel: (T, T) -> bool) {
    forall i, j :: 0 <= i < j < |xs| ==> rel(xs[i], xs[j])
  }

  /** `Where(p)`: the elements satisfying `p`, in order. */
  function Filter<T>(xs: seq<T>, p: T -> bool): (r: seq<T>)
    ensures |r| <= |xs|
  {
    if xs == [] then [] else (if p(xs[0]) then [xs[0]] else []) + Filter(xs[1..], p)
  }

  lemma {:induction false} FilterMembers<T(!new)>(xs: seq<T>, p: T -> bool)
    ensures forall x :: x in Filter(xs, p) <==> x in xs && p(x)
  {
    if xs != [] {
      FilterMembers(xs[1..], p);
      assert xs == [xs[0]] + xs[1..];
    }
  }

  /** `FirstOrDefault(p)`, as the position of the first match. */
  function FirstWhere<T>(xs: seq<T>, p: T -> bool): (r: Option<nat>)
    ensures r.Some? ==> r.value < |xs| && p(xs[r.value])
    ensures r.Some? ==> forall j :: 0 <= j < r.value ==> !p(xs[j])
    ensures r.None? ==> forall j :: 0 <= j < |xs| ==> !p(xs[j])
  {
    if xs == [] then None
    else if p(xs[0]) then Some(0)
    else
      match FirstWhere(xs[1..], p)
      case None => None
      case Some(k) => Some(k + 1)
  }

  /** Dropping elements keeps every pairwise relation, because order is kept. */
  lemma {:induction false} FilterKeepsPairwise<T(!new)>(xs: seq<T>, p: T -> bool, rel: (T, T) -> bool)
    requires Pairwise(xs, rel)
    ensures Pairwise(Filter(xs, p), rel)
  {
    if xs != [] {
      FilterKeepsPairwise(xs[1..], p, rel);
      var rest := Filter(xs[1..], p);
      if p(xs[0]) {
        var r := [xs[0]] + rest;
        forall i, j | 0 <= i < j < |r|
          ensures rel(r[i], r[j])
        {
          if i == 0 {
            FilterMembers(xs[1..], p);
            assert r[j] in xs[1..];
            var k :| 0 <= k < |xs[1..]| && xs[1..][k] == r[j];
            assert xs[k + 1] == r[j];
          } else {
            assert r[i] == rest[i - 1] && r[j] == rest[j - 1];
          }
        }
      }
    }
  }

  lemma {:induction false} FilterAppend<T(!new)>(xs: seq<T>, ys: seq<T>, p: T -> bool)
    ensures Filter(xs + ys, p) == Filter(xs, p) + Filter(ys, p)
  {
    if xs == [] {
      assert xs + ys == ys;
    } else {
      var head := if p(xs[0]) then [xs[0]] else [];
      FilterAppend(xs[1..], ys, p);
      assert (xs + ys)[1..] == xs[1..] + ys;
      calc {
        Filter(xs + ys, p);
        head + Filter(xs[1..] + ys, p);
        head + (Filter(xs[1..], p) + Filter(ys, p));
        (head + Filter(xs[1..], p)) + Filter(ys, p);
      }
    }
  }

  /** A filter every element passes changes nothing; one none passes empties. */
  lemma {:induction false} FilterKeepsAll<T(!new)>(xs: seq<T>, p: T -> bool)
    requires forall x :: x in xs ==> p(x)
    ensures Filter(xs, p) == xs
  {
    if xs != [] {
      assert xs[0] in xs;
      FilterKeepsAll(xs[1..], p);
    }
  }

  lemma FilterDropsAll<T(!new)>(xs: seq<T>, p: T -> bool)
    requires forall x :: x in xs ==> !p(x)
    ensures Filter(xs, p) == []
  {
    FilterMembers(xs, p);
    if Filter(xs, p) != [] {
      assert Filter(xs, p)[0] in Filter(xs, p);
    }
  }

  /** A filter that only the element at `i` fails removes exactly that element. */
  lemma {:induction false} FilterDropsOne<T(!new)>(xs: seq<T>, p: T -> bool, i: nat)
    requires i < |xs| && !p(xs[i])
    requires forall j :: 0 <= j < |xs| && j != i ==> p(xs[j])
    ensures Filter(xs, p) == xs[..i] + xs[i + 1..]
  {
    var tail := xs[1..];
    assert Filter(xs, p) == (if p(xs[0]) then [xs[0]] else []) + Filter(tail, p);
    if i == 0 {
      FilterKeepsAll(tail, p);
      assert xs[..0] + xs[1..] == tail;
    } else {
      forall j | 0 <= j < |tail| && j != i - 1
        ensures p(tail[j])
      {
        assert tail[j] == xs[j + 1];
      }
      FilterDropsOne(tail, p, i - 1);
      assert xs[..i] == [xs[0]] + tail[..i - 1];
      assert xs[i + 1..] == tail[i..];
    }
  }

  /** Appending keeps a pairwise relation when it holds across the two parts. */
  lemma AppendKeepsPairwise<T>(xs: seq<T>, ys: seq<T>, rel: (T, T) -> bool)
    requires Pairwise(xs, rel) && Pairwise(ys, rel)
    requires forall i, j :: 0 <= i < |xs| && 0 <= j < |ys| ==> rel(xs[i], ys[j])
    ensures Pairwise(xs + ys, rel)
  {
    forall i, j | 0 <= i < j < |xs + ys|
      ensures rel((xs + ys)[i], (xs + ys)[j])
    {
      if j < |xs| {
      } else if i < |xs| {
        assert (xs + ys)[j] == ys[j - |xs|];
      } else {
        assert (xs + ys)[i] == ys[i - |xs|] && (xs + ys)[j] == ys[j - |xs|];
      }
    }
  }

  /** A second filter whose matches all pass the first makes the first redundant. */
  lemma {:induction false} FilterFilter<T(!new)>(xs: seq<T>, p: T -> bool, q: T -> bool)
    requires forall x :: q(x) ==> p(x)
    ensures Filter(Filter(xs, p), q) == Filter(xs, q)
  {
    if xs != [] {
      FilterFilter(xs[1..], p, q);
      var head := if p(xs[0]) then [xs[0]] else [];
      FilterAppend(head, Filter(xs[1..], p), q);
    }
  }

  /** Filters that agree on every element select the same elements. */
  lemma {:induction false} FilterSameOn<T>(xs: seq<T>, p: T -> bool, q: T -> bool)
    requires forall i :: 0 <= i < |xs| ==> p(xs[i]) == q(xs[i])
    ensures Filter(xs, p) == Filter(xs, q)
  {
    if xs != [] {
      assert p(xs[0]) == q(xs[0]);
      FilterSameOn(xs[1..], p, q);
    }
  }

  /** A count clamped to `0..hi`. */
  function Clamp(n: int, hi: nat): (r: nat)
    ensures r <= hi
    ensures 0 <= n <= hi ==> r == n
  {
    if n <= 0 then 0 else if n > hi then hi else n
  }

  /** `Skip(skip).Take(take)`: a count at or below zero skips, or takes, nothing. */
  function Page<T>(xs: seq<T>, skip: int, take: int): (r: seq<T>)
    ensures |r| <= Clamp(take, |xs|) && Clamp(skip, |xs|) + |r| <= |xs|
    ensures forall k :: 0 <= k < |r| ==> r[k] == xs[Clamp(skip, |xs|) + k]
  {
    var from := Clamp(skip, |xs|);
    xs[from..from + Clamp(take, |xs| - from)]
  }

  /** With a page size of at least one, the `k`-th element is item
      `k % size` of the page that skips `(k / size) * size`. */
  lemma PageHolds<T>(xs: seq<T>, size: int, k: nat)
    requires 0 < size && k < |xs|
    ensures k % size < |Page(xs, (k / size) * size, size)|
    ensures Page(xs, (k / size) * size, size)[k % size] == xs[k]
  {
    var skip := (k / size) * size;
    assert skip + k % size == k && 0 <= skip;
  }

  /** `SelectMany(f)` where `f` may fail: the results of `f` concatenated in
      order; the first failure, in order, is the result. */
  function SelectMany<T, U>(xs: seq<T>, f: T -> Result<seq<U>>): Result<seq<U>> {
    if xs == [] then Success([])
    else
      var before :- SelectMany(xs[..|xs| - 1], f);
      var last :- f(xs[|xs| - 1]);
      Success(before + last)
  }

  /** One more element: its part is appended, or its failure is the result. */
  lemma SelectManyStep<T, U>(xs: seq<T>, f: T -> Result<seq<U>>, i: nat, done: seq<U>)
    requires i < |xs| && SelectMany(xs[..i], f) == Success(done)
    ensures SelectMany(xs[..i + 1], f) == if f(xs[i]).Failure? then Failure(f(xs[i]).error) else Success(done + f(xs[i]).value)
  {
    assert xs[..i + 1][..i] == xs[..i];
  }

  /** A failure on a prefix is the failure of the whole sequence. */
  lemma {:induction false} SelectManyPrefixFails<T, U>(xs: seq<T>, f: T -> Result<seq<U>>, i: nat)
    requires i <= |xs| && SelectMany(xs[..i], f).Failure?
    ensures SelectMany(xs, f) == SelectMany(xs[..i], f)
  {
    if i < |xs| {
      var init := xs[..|xs| - 1];
      assert init[..i] == xs[..i];
      SelectManyPrefixFails(init, f, i);
    } else {
      assert xs[..i] == xs;
    }
  }

  /** When the whole succeeds, every element's part succeeds and is contained in it. */
  lemma {:induction false} SelectManyPart<T, U>(xs: seq<T>, f: T -> Result<seq<U>>, k: nat, u: U)
    requires SelectMany(xs, f).Success? && k < |xs|
    ensures f(xs[k]).Success?
    ensures u in f(xs[k]).value ==> u in SelectMany(xs, f).value
  {
    var init := xs[..|xs| - 1];
    if k < |xs| - 1 {
      assert init[k] == xs[k];
      SelectManyPart(init, f, k, u);
    }
  }

  /** Elementwise equal parts give equal results. */
  lemma {:induction false} SelectManyCongruent<T, T', U>(xs: seq<T>, f: T -> Result<seq<U>>, ys: seq<T'>, g: T' -> Result<seq<U>>)
    requires |xs| == |ys|
    requires forall k :: 0 <= k < |xs| ==> f(xs[k]) == g(ys[k])
    ensures SelectMany(xs, f) == SelectMany(ys, g)
  {
    if xs != [] {
      SelectManyCongruent(xs[..|xs| - 1], f, ys[..|ys| - 1], g);
    }
  }

  // ---------------------------------------------------------------------------
  // 32-bit signed integers (C# `int`, unchecked arithmetic).

  const Int32Min: int := -0x8000_0000
  const Int32Max: int := 0x7FFF_FFFF

  predicate InInt32(x: int) {
    Int32Min <= x <= Int32Max
  }

  /** Two's-complement wrap-around of an unbounded result to 32 bits. */
  function Wrap32(x: int): (r: int)
    ensures InInt32(r)
    ensures (r - x) % 0x1_0000_0000 == 0
    ensures InInt32(x) ==> r == x
  {
    (x + 0x8000_0000) % 0x1_0000_0000 - 0x8000_0000
  }

  // ---------------------------------------------------------------------------
  // .NET string helpers.

  function IsNullOrEmpty(s: Option<string>): bool {
    s.None? || s.value == ""
  }

  /** `char.IsWhiteSpace`: the Unicode White_Space separators plus U+0009..U+000D and U+0085. */
  predicate IsWhiteSpace(c: char) {
    || c == ' ' || ('\t' <= c <= '\r') || c == '\U{85}' || c == '\U{A0}' || c == '\U{1680}'
    || ('\U{2000}' <= c <= '\U{200A}') || c == '\U{2028}' || c == '\U{2029}' || c == '\U{202F}'
    || c == '\U{205F}' || c == '\U{3000}'
  }

  function IsNullOrWhiteSpace(s: Option<string>): bool {
    s.None? || forall i :: 0 <= i < |s.value| ==> IsWhiteSpace(s.value[i])
  }

  function UpperChar(c: char): char {
    if 'a' <= c <= 'z' then (c as int - 32) as char else c
  }

  /** `string.ToUpper()` restricted to the ASCII letters. */
  function ToUpper(s: string): (r: string)
    ensures |r| == |s|
    ensures forall i :: 0 <= i < |s| ==> r[i] == UpperChar(s[i])
  {
    seq(|s|, i requires 0 <= i < |s| => UpperChar(s[i]))
  }

  /** `part` occurs in `s` starting at index `i`. */
  predicate OccursAt(s: string, part: string, i: int) {
    0 <= i <= |s| - |part| && s[i..i + |part|] == part
  }

  /** Ordinal `string.Contains`. */
  predicate Contains(s: string, part: string) {
    exists i | 0 <= i <= |s| - |part| :: OccursAt(s, part, i)
  }

  /** `string.LastIndexOf(c)`: the last position of `c`, or -1. */
  function LastIndexOf(s: string, c: char): (r: int)
    ensures -1 <= r < |s|
    ensures r >= 0 ==> s[r] == c
    ensures forall j :: r < j < |s| ==> s[j] != c
  {
    if s == [] then -1
    else if s[|s| - 1] == c then |s| - 1
    else LastIndexOf(s[..|s| - 1], c)
  }

  /** `string.Join(sep, items)`. */
  function Join(sep: string, items: seq<string>): string {
    if items == [] then ""
    else if |items| == 1 then items[0]
    else Join(sep, items[..|items| - 1]) + sep + items[|items| - 1]
  }
}
