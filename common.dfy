/** Shared vocabulary of the model: optional values and results, and the few pieces of
    Python string behaviour the client relies on (`str(int)`, `int(str)`, `sep.join`,
    `s.split(c)`, `startswith`, `in` on strings and ASCII `str.upper`). */
module Common {

  datatype Option<+T> = None | Some(value: T)

  datatype Result<+T, +E> = Ok(value: T) | Err(error: E) {
    predicate IsFailure() { Err? }
    function PropagateFailure<U>(): Result<U, E> requires Err? { Err(error) }
    function Extract(): T requires Ok? { value }
  }

  /** One object of an envelope's `data` list, its values kept as text. */
  type Record = map<string, string>

  /** The decoded JSON envelope of a REST reply: `code` ("0" on success), `msg` and `data`.
      A key the reply does not carry is None. */
  datatype Envelope = Envelope(code: Option<string>, msg: Option<string>, data: Option<seq<Record>>)

  // ---------------------------------------------------------------- ordered dicts

  /** A Python dict of request parameters: insertion order is kept, because the query
      string lists the pairs in that order. Values are kept as the text `str()` gives. */
  type Params = seq<(string, string)>

  predicate DistinctKeys(p: Params)
  {
    forall i, j :: 0 <= i < j < |p| ==> p[i].0 != p[j].0
  }

  function Keys(p: Params): (ks: seq<string>)
    ensures |ks| == |p| && forall i :: 0 <= i < |p| ==> ks[i] == p[i].0
  {
    seq(|p|, i requires 0 <= i < |p| => p[i].0)
  }

  /** Position of key `k` in `p`, or |p| when `p` has no such key. */
  function IndexOfKey(p: Params, k: string): (i: nat)
    ensures i <= |p|
    ensures i < |p| ==> p[i].0 == k
    ensures forall j :: 0 <= j < i ==> p[j].0 != k
    decreases |p|
  {
    if |p| == 0 then 0 else if p[0].0 == k then 0 else 1 + IndexOfKey(p[1..], k)
  }

  predicate HasKey(p: Params, k: string)
  {
    IndexOfKey(p, k) < |p|
  }

  /** `p.get(k)`. */
  function Lookup(p: Params, k: string): (r: Option<string>)
    ensures r.Some? <==> HasKey(p, k)
    ensures r.Some? ==> (k, r.value) in p
  {
    var i := IndexOfKey(p, k);
    if i < |p| then Some(p[i].1) else None
  }

  /** `p[k] = v`: an existing key keeps its place and takes the new value, a new key goes
      to the end. */
  function Put(p: Params, k: string, v: string): (r: Params)
    requires DistinctKeys(p)
    ensures DistinctKeys(r)
    ensures HasKey(p, k) ==> |r| == |p| && r[IndexOfKey(p, k)] == (k, v)
    ensures HasKey(p, k) ==> forall i :: 0 <= i < |p| && i != IndexOfKey(p, k) ==> r[i] == p[i]
    ensures !HasKey(p, k) ==> r == p + [(k, v)]
  {
    var i := IndexOfKey(p, k);
    if i < |p| then p[i := (k, v)] else p + [(k, v)]
  }

  /** After `p[k] = v`, `k` reads `v` and every other key reads what it read before. */
  lemma PutLookup(p: Params, k: string, v: string)
    requires DistinctKeys(p)
    ensures Lookup(Put(p, k, v), k) == Some(v)
    ensures forall j :: j != k ==> Lookup(Put(p, k, v), j) == Lookup(p, j)
  {
    var r := Put(p, k, v);
    var i := IndexOfKey(p, k);
    if i < |p| {
      IndexOfKeyFirst(r, k, i);
      forall j | j != k ensures Lookup(r, j) == Lookup(p, j) {
        IndexOfKeyAgree(r, p, j);
      }
    } else {
      IndexOfKeyFirst(r, k, |p|);
      forall j | j != k ensures Lookup(r, j) == Lookup(p, j) {
        var ij := IndexOfKey(p, j);
        if ij < |p| { IndexOfKeyFirst(r, j, ij); } else { IndexOfKeyFirst(r, j, |r|); }
      }
    }
  }

  /** In a dict with distinct keys, the key at position `i` reads the value there. */
  lemma LookupAt(p: Params, i: nat)
    requires DistinctKeys(p) && i < |p|
    ensures Lookup(p, p[i].0) == Some(p[i].1)
  {
    IndexOfKeyFirst(p, p[i].0, i);
  }

  /** A key that no pair carries reads nothing. */
  lemma LookupMissing(p: Params, k: string)
    requires forall i :: 0 <= i < |p| ==> p[i].0 != k
    ensures Lookup(p, k) == None
  {
    IndexOfKeyFirst(p, k, |p|);
  }

  /** The first position holding key `k` is `IndexOfKey`. */
  lemma {:induction false} IndexOfKeyFirst(p: Params, k: string, i: nat)
    requires i <= |p|
    requires i < |p| ==> p[i].0 == k
    requires forall j :: 0 <= j < i ==> p[j].0 != k
    ensures IndexOfKey(p, k) == i
  {
  }

  /** Two parameter lists with the same keys position by position find every key at the
      same place. */
  lemma IndexOfKeyAgree(r: Params, p: Params, k: string)
    requires |r| == |p| && forall i :: 0 <= i < |p| ==> r[i].0 == p[i].0
    ensures IndexOfKey(r, k) == IndexOfKey(p, k)
  {
    IndexOfKeyFirst(r, k, IndexOfKey(p, k));
  }

  // ---------------------------------------------------------------- digits

  predicate IsDigit(c: char) { '0' <= c <= '9' }

  function DigitChar(d: nat): (c: char)
    requires d < 10
    ensures IsDigit(c)
  {
    (48 + d) as char
  }

  function DigitValue(c: char): nat
    requires IsDigit(c)
  {
    c as int - 48
  }

  /** Decimal text of a natural number, most significant digit first, no leading zero. */
  function NatToStr(n: nat): (s: string)
    ensures |s| > 0 && forall i :: 0 <= i < |s| ==> IsDigit(s[i])
    decreases n
  {
    if n < 10 then [DigitChar(n)] else NatToStr(n / 10) + [DigitChar(n % 10)]
  }

  /** Python's `str(n)` for an `int`. */
  function IntToStr(n: int): string
  {
    if n < 0 then "-" + NatToStr(-n) else NatToStr(n)
  }

  predicate AllDigits(s: string)
  {
    forall i :: 0 <= i < |s| ==> IsDigit(s[i])
  }

  /** Value of a non-empty run of decimal digits. */
  function DigitsValue(s: string): nat
    requires |s| > 0 && AllDigits(s)
  {
    if |s| == 1 then DigitValue(s[0])
    else DigitsValue(s[..|s| - 1]) * 10 + DigitValue(s[|s| - 1])
  }

  /** Python's `int(s)` on text of the form [+|-]digits; anything else is a ValueError,
      reported here as None. */
  function ParseInt(s: string): (r: Option<int>)
    ensures r.Some? ==> |s| > 0
  {
    if |s| > 0 && (s[0] == '-' || s[0] == '+') then
      var t := s[1..];
      if |t| > 0 && AllDigits(t) then
        var v: int := DigitsValue(t);
        Some(if s[0] == '-' then -v else v)
      else None
    else if |s| > 0 && AllDigits(s) then Some(DigitsValue(s))
    else None
  }

  /** `int(s)` accepts exactly ASCII digits with an optional leading '+' or '-', and reads
      them as a decimal number with that sign. */
  lemma ParseIntAccepts(s: string)
    ensures ParseInt(s).Some? <==>
              (|s| > 0 && AllDigits(s)) || (|s| > 1 && (s[0] == '-' || s[0] == '+') && AllDigits(s[1..]))
    ensures |s| > 0 && AllDigits(s) ==> ParseInt(s) == Some(DigitsValue(s))
    ensures |s| > 1 && s[0] == '-' && AllDigits(s[1..]) ==> ParseInt(s) == Some(0 - DigitsValue(s[1..]))
    ensures |s| > 1 && s[0] == '+' && AllDigits(s[1..]) ==> ParseInt(s) == Some(DigitsValue(s[1..]))
  {
    if |s| > 0 && AllDigits(s) {
      assert IsDigit(s[0]);
    }
  }

  lemma {:induction false} DigitsValueOfNatToStr(n: nat)
    ensures DigitsValue(NatToStr(n)) == n
    decreases n
  {
    if n >= 10 {
      var s := NatToStr(n);
      DigitsValueOfNatToStr(n / 10);
      assert s[..|s| - 1] == NatToStr(n / 10);
    }
  }

  /** `int(str(n)) == n`: the decimal rendering is read back to the same number. */
  lemma ParseIntOfIntToStr(n: int)
    ensures ParseInt(IntToStr(n)) == Some(n)
  {
    if n < 0 {
      var d := NatToStr(-n);
      DigitsValueOfNatToStr(-n);
      assert IntToStr(n) == "-" + d;
      assert ("-" + d)[0] == '-' && ("-" + d)[1..] == d;
      assert AllDigits(d);
    } else {
      var d := NatToStr(n);
      DigitsValueOfNatToStr(n);
      assert IsDigit(d[0]) && AllDigits(d);
    }
  }

  // ---------------------------------------------------------------- text

  /** Python's `s.startswith(p)`. */
  predicate StartsWith(s: string, p: string)
  {
    |p| <= |s| && s[..|p|] == p
  }

  /** Python's `t in s` for two strings (substring test). */
  predicate Contains(s: string, t: string)
    decreases |s|
  {
    StartsWith(s, t) || (|s| > 0 && Contains(s[1..], t))
  }

  /** `t` occurs in `s` starting at position `i`. */
  predicate OccursAt(s: string, t: string, i: int)
  {
    0 <= i <= |s| - |t| && s[i..i + |t|] == t
  }

  lemma {:induction false} ContainsAt(s: string, t: string, i: nat)
    requires OccursAt(s, t, i)
    ensures Contains(s, t)
    decreases i
  {
    if i > 0 {
      assert s[1..][i - 1..i - 1 + |t|] == s[i..i + |t|];
      ContainsAt(s[1..], t, i - 1);
    }
  }

  lemma {:induction false} ContainsWitness(s: string, t: string) returns (i: nat)
    requires Contains(s, t)
    ensures OccursAt(s, t, i)
    decreases |s|
  {
    if StartsWith(s, t) {
      i := 0;
    } else {
      var j := ContainsWitness(s[1..], t);
      assert s[1..][j..j + |t|] == s[j + 1..j + 1 + |t|];
      i := j + 1;
    }
  }

  /** `t in s` holds exactly when `t` occurs at some position of `s`. */
  lemma ContainsIff(s: string, t: string)
    ensures Contains(s, t) <==> exists i :: OccursAt(s, t, i)
  {
    if Contains(s, t) {
      var i := ContainsWitness(s, t);
    }
    if exists i :: OccursAt(s, t, i) {
      var i :| OccursAt(s, t, i);
      ContainsAt(s, t, i);
    }
  }

  function UpperChar(c: char): char
  {
    if 'a' <= c <= 'z' then (c as int - 32) as char else c
  }

  /** Python's `str.upper`, on ASCII letters. */
  function Upper(s: string): (r: string)
    ensures |r| == |s|
    ensures forall i :: 0 <= i < |s| ==> r[i] == UpperChar(s[i])
    ensures forall i :: 0 <= i < |r| ==> !('a' <= r[i] <= 'z')
  {
    seq(|s|, i requires 0 <= i < |s| => UpperChar(s[i]))
  }

  /** Python's `sep.join(xs)`. */
  function Join(sep: string, xs: seq<string>): (r: string)
    ensures xs == [] ==> r == ""
  {
    if xs == [] then "" else if |xs| == 1 then xs[0] else xs[0] + sep + Join(sep, xs[1..])
  }

  /** Python's `s.split(c)` for a one-character separator: always at least one piece. */
  function Split(s: string, c: char): (r: seq<string>)
    ensures |r| > 0
    decreases |s|
  {
    if |s| == 0 then [""]
    else
      var rest := Split(s[1..], c);
      if s[0] == c then [""] + rest else [[s[0]] + rest[0]] + rest[1..]
  }

  lemma {:induction false} SplitPrefix(a: string, c: char, b: string)
    requires c !in a
    ensures Split(a + [c] + b, c) == [a] + Split(b, c)
    decreases |a|
  {
    if |a| == 0 {
      assert a + [c] + b == [c] + b;
      assert ([c] + b)[1..] == b;
    } else {
      assert (a + [c] + b)[1..] == a[1..] + [c] + b;
      SplitPrefix(a[1..], c, b);
      assert [a[0]] + a[1..] == a;
    }
  }

  lemma {:induction false} SplitNoSep(a: string, c: char)
    requires c !in a
    ensures Split(a, c) == [a]
    decreases |a|
  {
    if |a| > 0 {
      SplitNoSep(a[1..], c);
      assert [a[0]] + a[1..] == a;
    }
  }

  /** Splitting a joined list at its one-character separator gives the list back, provided
      no element contains the separator. */
  lemma {:induction false} SplitJoin(xs: seq<string>, c: char)
    requires |xs| > 0
    requires forall i :: 0 <= i < |xs| ==> c !in xs[i]
    ensures Split(Join([c], xs), c) == xs
    decreases |xs|
  {
    if |xs| == 1 {
      SplitNoSep(xs[0], c);
    } else {
      SplitJoin(xs[1..], c);
      SplitPrefix(xs[0], c, Join([c], xs[1..]));
    }
  }
}
