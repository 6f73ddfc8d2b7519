/** The PHP built-ins the reporting layer leans on, modelled on byte strings
    (the application treats every string as ASCII): implode/explode, str_replace
    with an empty replacement, trim with one character, ucfirst, strtolower,
    empty(), array_slice and the insertion-ordered array. */
module PhpLib {

  datatype Option<T> = None | Some(value: T)

  // ---------------------------------------------------------------------------
  // Characters
  // ---------------------------------------------------------------------------

  predicate IsLower(c: char) { 'a' <= c <= 'z' }
  predicate IsUpper(c: char) { 'A' <= c <= 'Z' }
  predicate IsDigit(c: char) { '0' <= c <= '9' }

  /** PCRE's `\w` without the `u` modifier: ASCII letters, digits and `_`. */
  predicate IsWordChar(c: char) { IsLower(c) || IsUpper(c) || IsDigit(c) || c == '_' }

  function ToUpperChar(c: char): (r: char)
    ensures IsLower(c) ==> IsUpper(r)
    ensures !IsLower(c) ==> r == c
  {
    if IsLower(c) then (c as int - 32) as char else c
  }

  function ToLowerChar(c: char): (r: char)
    ensures IsUpper(c) ==> IsLower(r)
    ensures !IsUpper(c) ==> r == c
  {
    if IsUpper(c) then (c as int + 32) as char else c
  }

  // ---------------------------------------------------------------------------
  // Strings
  // ---------------------------------------------------------------------------

  /** strtolower, which since PHP 8.2 only maps ASCII letters. */
  function ToLower(s: string): (r: string)
    ensures |r| == |s|
    ensures forall i :: 0 <= i < |s| ==> r[i] == ToLowerChar(s[i])
  {
    if s == [] then [] else [ToLowerChar(s[0])] + ToLower(s[1..])
  }

  /** ucfirst: upper-cases the first byte when it is a lower-case ASCII letter. */
  function Ucfirst(s: string): (r: string)
    ensures |r| == |s|
    ensures |s| > 0 ==> r[0] == ToUpperChar(s[0]) && r[1..] == s[1..]
  {
    if s == [] then s else [ToUpperChar(s[0])] + s[1..]
  }

  /** str_replace(from, to, s) for a single character. */
  function ReplaceChar(s: string, from: char, to: char): (r: string)
    ensures |r| == |s|
    ensures forall i :: 0 <= i < |s| ==> r[i] == (if s[i] == from then to else s[i])
  {
    if s == [] then [] else [if s[0] == from then to else s[0]] + ReplaceChar(s[1..], from, to)
  }

  predicate StartsWith(s: string, prefix: string)
  {
    |prefix| <= |s| && s[..|prefix|] == prefix
  }

  /** True when `p` occurs nowhere in `s`. */
  predicate Free(s: string, p: string)
  {
    forall i :: 0 <= i <= |s| ==> !StartsWith(s[i..], p)
  }

  /** str_replace(p, '', s): a single left-to-right scan that deletes every
      non-overlapping occurrence of `p` it meets; text joined by a deletion is
      not scanned again. */
  function RemoveAll(s: string, p: string): (r: string)
    requires |p| > 0
    ensures |r| <= |s|
    decreases |s|
  {
    if |s| < |p| then s
    else if s[..|p|] == p then RemoveAll(s[|p|..], p)
    else [s[0]] + RemoveAll(s[1..], p)
  }

  lemma {:induction false} RemoveAllNoOccurrence(s: string, p: string)
    requires |p| > 0
    requires Free(s, p)
    ensures RemoveAll(s, p) == s
    decreases |s|
  {
    if |s| < |p| {
    } else {
      assert s[0..] == s;
      assert !StartsWith(s[0..], p);
      forall i | 0 <= i <= |s[1..]| ensures !StartsWith(s[1..][i..], p) {
        assert s[1..][i..] == s[i + 1..];
      }
      RemoveAllNoOccurrence(s[1..], p);
    }
  }

  /** Where no occurrence starts, the scan keeps the first character. */
  lemma RemoveAllKeepsHead(t: string, p: string)
    requires |p| > 0 && |t| > 0
    requires !StartsWith(t, p)
    ensures RemoveAll(t, p) == [t[0]] + RemoveAll(t[1..], p)
  {
    if |t| < |p| {
      assert RemoveAll(t[1..], p) == t[1..];
      assert [t[0]] + t[1..] == t;
    }
  }

  /** The scan keeps a prefix `a` none of whose positions starts an occurrence. */
  lemma {:induction false} RemoveAllSkip(a: string, s: string, p: string)
    requires |p| > 0
    requires forall i :: 0 <= i < |a| ==> !StartsWith((a + s)[i..], p)
    ensures RemoveAll(a + s, p) == a + RemoveAll(s, p)
  {
    if a != [] {
      NoStartAfterHead(a, s, p);
      RemoveAllSkip(a[1..], s, p);
      RemoveAllKeepsHead(a + s, p);
      assert (a + s)[1..] == a[1..] + s;
      assert [a[0]] + a[1..] == a;
    } else {
      assert a + s == s;
    }
  }

  /** The conditions of RemoveAllSkip pass from `a` to its tail, and no
      occurrence starts at the head. */
  lemma NoStartAfterHead(a: string, s: string, p: string)
    requires |a| > 0
    requires forall i :: 0 <= i < |a| ==> !StartsWith((a + s)[i..], p)
    ensures !StartsWith(a + s, p)
    ensures forall i :: 0 <= i < |a[1..]| ==> !StartsWith((a[1..] + s)[i..], p)
  {
    assert (a + s)[0..] == a + s;
    forall i | 0 <= i < |a[1..]| ensures !StartsWith((a[1..] + s)[i..], p) {
      assert (a[1..] + s)[i..] == (a + s)[i + 1..];
    }
  }

  lemma {:induction false} RemoveAllPrefix(p: string, s: string)
    requires |p| > 0
    ensures RemoveAll(p + s, p) == RemoveAll(s, p)
  {
    assert (p + s)[..|p|] == p;
    assert (p + s)[|p|..] == s;
  }

  /** trim(s, c) splits into ltrim and rtrim. */
  function TrimLeft(s: string, c: char): (r: string)
    ensures |r| <= |s| && r == s[|s| - |r|..]
    ensures forall k :: 0 <= k < |s| - |r| ==> s[k] == c
    ensures r == [] || r[0] != c
  {
    if |s| > 0 && s[0] == c then TrimLeft(s[1..], c) else s
  }

  function TrimRight(s: string, c: char): (r: string)
    ensures |r| <= |s| && r == s[..|r|]
    ensures forall k :: |r| <= k < |s| ==> s[k] == c
    ensures r == [] || r[|r| - 1] != c
  {
    if |s| > 0 && s[|s| - 1] == c then TrimRight(s[..|s| - 1], c) else s
  }

  function Trim(s: string, c: char): string
  {
    TrimRight(TrimLeft(s, c), c)
  }

  /** trim leaves a string alone when neither end is `c`, and then also
      undoes one added leading `c`. */
  lemma TrimIdle(s: string, c: char)
    requires s == [] || (s[0] != c && s[|s| - 1] != c)
    ensures Trim(s, c) == s
    ensures Trim([c] + s, c) == s
  {
    assert TrimLeft(s, c) == s;
    assert ([c] + s)[1..] == s;
    assert TrimLeft([c] + s, c) == s;
  }

  /** The trimmed string is the factor of `s` left once every leading and every
      trailing `c` is gone: it neither starts nor ends with `c`, and what was
      cut on either side is made of `c` only. */
  lemma TrimCharacterization(s: string, c: char) returns (a: nat, b: nat)
    ensures var r := Trim(s, c); r == [] || (r[0] != c && r[|r| - 1] != c)
    ensures a <= b <= |s| && Trim(s, c) == s[a..b]
    ensures forall k :: 0 <= k < a ==> s[k] == c
    ensures forall k :: b <= k < |s| ==> s[k] == c
  {
    var l := TrimLeft(s, c);
    var r := TrimRight(l, c);
    a := |s| - |l|;
    b := a + |r|;
    assert l == s[a..];
    assert r == l[..|r|];
    assert r == s[a..b];
    forall k | b <= k < |s| ensures s[k] == c {
      assert s[k] == l[k - a];
    }
  }

  // ---------------------------------------------------------------------------
  // implode / explode
  // ---------------------------------------------------------------------------

  /** implode(sep, parts). */
  function Join(parts: seq<string>, sep: string): (r: string)
  {
    if |parts| == 0 then ""
    else if |parts| == 1 then parts[0]
    else parts[0] + sep + Join(parts[1..], sep)
  }

  /** Every piece of an implode occurs in the result, at the returned offset. */
  lemma {:induction false} JoinContains(parts: seq<string>, sep: string, j: nat) returns (at: nat)
    requires j < |parts|
    ensures at + |parts[j]| <= |Join(parts, sep)|
    ensures Join(parts, sep)[at..at + |parts[j]|] == parts[j]
  {
    if |parts| == 1 {
      at := 0;
    } else if j == 0 {
      at := 0;
      assert Join(parts, sep) == parts[0] + (sep + Join(parts[1..], sep));
    } else {
      var rest := JoinContains(parts[1..], sep, j - 1);
      var head := parts[0] + sep;
      assert Join(parts, sep) == head + Join(parts[1..], sep);
      at := |head| + rest;
      assert Join(parts, sep)[at..at + |parts[j]|] == Join(parts[1..], sep)[rest..rest + |parts[j]|];
    }
  }

  /** A character found neither in the pieces nor in the separator is not in
      their implode. */
  lemma {:induction false} JoinAvoids(parts: seq<string>, sep: string, c: char)
    requires c !in sep
    requires forall i :: 0 <= i < |parts| ==> c !in parts[i]
    ensures c !in Join(parts, sep)
  {
    if |parts| > 1 {
      JoinAvoids(parts[1..], sep, c);
    }
  }

  /** explode(c, s) for a one-character separator: the pieces between
      consecutive separators, so explode of "" is [""]. */
  function Split(s: string, c: char): (r: seq<string>)
    ensures |r| >= 1
    ensures forall i :: 0 <= i < |r| ==> c !in r[i]
  {
    if s == [] then [""]
    else
      var rest := Split(s[1..], c);
      if s[0] == c then [""] + rest
      else [[s[0]] + rest[0]] + rest[1..]
  }

  function Count(s: string, c: char): (n: nat)
  {
    if s == [] then 0 else (if s[0] == c then 1 else 0) + Count(s[1..], c)
  }

  lemma {:induction false} CountAppend(a: string, b: string, c: char)
    ensures Count(a + b, c) == Count(a, c) + Count(b, c)
  {
    if a == [] {
      assert a + b == b;
    } else {
      assert (a + b)[1..] == a[1..] + b;
      CountAppend(a[1..], b, c);
    }
  }

  lemma {:induction false} CountAbsent(s: string, c: char)
    requires c !in s
    ensures Count(s, c) == 0
  {
    if s != [] {
      CountAbsent(s[1..], c);
    }
  }

  /** explode yields one piece more than there are separators. */
  lemma {:induction false} SplitLength(s: string, c: char)
    ensures |Split(s, c)| == Count(s, c) + 1
  {
    if s != [] {
      SplitLength(s[1..], c);
    }
  }

  lemma {:induction false} SplitNoSeparatorPrefix(a: string, b: string, c: char)
    requires c !in a
    ensures Split(a + [c] + b, c) == [a] + Split(b, c)
  {
    if a == [] {
      assert a + [c] + b == [c] + b;
      assert ([c] + b)[1..] == b;
    } else {
      assert (a + [c] + b)[1..] == a[1..] + [c] + b;
      SplitNoSeparatorPrefix(a[1..], b, c);
      assert [a[0]] + a[1..] == a;
    }
  }

  lemma {:induction false} SplitNoSeparator(a: string, c: char)
    requires c !in a
    ensures Split(a, c) == [a]
  {
    if a != [] {
      SplitNoSeparator(a[1..], c);
      assert [a[0]] + a[1..] == a;
    }
  }

  /** Splitting what implode joined with a one-character separator gives the
      pieces back, provided there is at least one piece and none contains the
      separator (explode of "" is [""], never []). */
  lemma {:induction false} SplitJoin(parts: seq<string>, c: char)
    requires |parts| >= 1
    requires forall i :: 0 <= i < |parts| ==> c !in parts[i]
    ensures Split(Join(parts, [c]), c) == parts
  {
    if |parts| == 1 {
      SplitNoSeparator(parts[0], c);
    } else {
      SplitJoin(parts[1..], c);
      SplitNoSeparatorPrefix(parts[0], Join(parts[1..], [c]), c);
      assert [parts[0]] + parts[1..] == parts;
    }
  }

  /** Joining the pieces of explode with the same separator rebuilds the string. */
  lemma {:induction false} JoinSplit(s: string, c: char)
    ensures Join(Split(s, c), [c]) == s
  {
    if s != [] {
      JoinSplit(s[1..], c);
      var rest := Split(s[1..], c);
      if s[0] == c {
        assert Join([""] + rest, [c]) == "" + [c] + Join(rest, [c]);
      } else {
        var r := [[s[0]] + rest[0]] + rest[1..];
        if |rest| == 1 {
          assert Join(r, [c]) == [s[0]] + rest[0];
        } else {
          assert r[1..] == rest[1..];
          assert Join(rest, [c]) == rest[0] + [c] + Join(rest[1..], [c]);
        }
        assert [s[0]] + s[1..] == s;
      }
    }
  }

  lemma {:induction false} JoinCount(parts: seq<string>, c: char)
    requires forall i :: 0 <= i < |parts| ==> c !in parts[i]
    ensures Count(Join(parts, [c]), c) == if |parts| == 0 then 0 else |parts| - 1
  {
    if |parts| == 1 {
      CountAbsent(parts[0], c);
    } else if |parts| > 1 {
      JoinCount(parts[1..], c);
      CountAbsent(parts[0], c);
      CountAppend(parts[0] + [c], Join(parts[1..], [c]), c);
      CountAppend(parts[0], [c], c);
      assert Count([c], c) == 1 by {
        assert [c][1..] == [];
      }
    }
  }

  // ---------------------------------------------------------------------------
  // empty() and array_slice()
  // ---------------------------------------------------------------------------

  /** empty($x) for a value that is either missing/null or a string: true for
      a missing value, "" and "0". */
  predicate EmptyString(x: Option<string>)
  {
    x.None? || x.value == "" || x.value == "0"
  }

  /** A null passed where a string is expected (strtolower, preg_match,
      explode) reads as "". */
  function StringOf(x: Option<string>): string
  {
    if x.Some? then x.value else ""
  }

  /** The start index array_slice uses: an offset past the end yields nothing,
      a negative one counts from the end (clamped at 0). */
  function SliceStart(n: nat, offset: int): (start: nat)
    ensures start <= n
  {
    if offset > n then n
    else if offset < 0 then (if n + offset < 0 then 0 else n + offset)
    else offset
  }

  /** array_slice(xs, offset, length) on a list: a negative length stops that
      many elements before the end, a length running past the end is cut. */
  function ArraySlice<T>(xs: seq<T>, offset: int, length: int): (r: seq<T>)
    ensures var start := SliceStart(|xs|, offset);
      |r| <= |xs| - start && r == xs[start..start + |r|]
    ensures 0 <= offset && 0 <= length ==>
      |r| == (if length < |xs| - offset then length else if |xs| - offset < 0 then 0 else |xs| - offset)
  {
    var n := |xs|;
    var start := SliceStart(n, offset);
    var len := if length < 0 then n - start + length
               else if start + length > n then n - start
               else length;
    if offset > n || len <= 0 then [] else xs[start..start + len]
  }

  // ---------------------------------------------------------------------------
  // Insertion-ordered arrays with string keys
  // ---------------------------------------------------------------------------

  /** A PHP array with string keys: the keys in insertion order and the values. */
  datatype OrderedMap<V> = OrderedMap(keys: seq<string>, values: map<string, V>)
  {
    ghost predicate Valid()
    {
      && (forall i, j :: 0 <= i < j < |keys| ==> keys[i] != keys[j])
      && (forall k :: k in values <==> k in keys)
    }

    /** $a[$k] = $v: overwrites in place when the key exists, appends otherwise. */
    function Put(k: string, v: V): (r: OrderedMap<V>)
      requires Valid()
      ensures r.Valid()
      ensures r.values == values[k := v]
      ensures k in keys ==> r.keys == keys
      ensures k !in keys ==> r.keys == keys + [k]
    {
      if k in values then OrderedMap(keys, values[k := v])
      else OrderedMap(keys + [k], values[k := v])
    }
  }

  function EmptyMap<V>(): (r: OrderedMap<V>)
    ensures r.Valid() && r.keys == []
  {
    OrderedMap([], map[])
  }

  /** The distinct values of xs in order of first occurrence: the key order
      a PHP array gets when the values are inserted as keys one by one. */
  function FirstSeen(xs: seq<string>): seq<string>
  {
    if xs == [] then []
    else
      var d := FirstSeen(xs[..|xs| - 1]);
      if xs[|xs| - 1] in d then d else d + [xs[|xs| - 1]]
  }

  lemma {:induction false} FirstSeenSpec(xs: seq<string>)
    ensures forall i, j :: 0 <= i < j < |FirstSeen(xs)| ==> FirstSeen(xs)[i] != FirstSeen(xs)[j]
    ensures forall v :: v in FirstSeen(xs) <==> v in xs
  {
    if xs != [] {
      FirstSeenSpec(xs[..|xs| - 1]);
      assert xs == xs[..|xs| - 1] + [xs[|xs| - 1]];
    }
  }

  /** The keys seen in a prefix come first, in the same order. */
  lemma {:induction false} FirstSeenPrefix(xs: seq<string>, n: nat)
    requires n <= |xs|
    ensures |FirstSeen(xs[..n])| <= |FirstSeen(xs)|
    ensures FirstSeen(xs)[..|FirstSeen(xs[..n])|] == FirstSeen(xs[..n])
    decreases |xs|
  {
    if n < |xs| {
      var init := xs[..|xs| - 1];
      assert init[..n] == xs[..n];
      FirstSeenPrefix(init, n);
    } else {
      assert xs[..n] == xs;
    }
  }
}
