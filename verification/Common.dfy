/** Machine widths, the option type, and the list helpers that every part of the model shares. */
module Common {

  datatype Option<+T> = None | Some(value: T)

  const TWO16: nat := 0x1_0000
  const TWO32: nat := 0x1_0000_0000
  const TWO64: nat := 0x1_0000_0000_0000_0000

  type UInt8 = n: nat | n < 256
  type UInt16 = n: nat | n < TWO16
  type UInt32 = n: nat | n < TWO32
  type UInt64 = n: nat | n < TWO64

  /** Conversion to a 16-bit unsigned integer, which drops the high bits. */
  function U16(n: nat): UInt16 { n % 0x1_0000 }

  /** Conversion to a 32-bit unsigned integer, which drops the high bits. */
  function U32(n: nat): UInt32 { n % 0x1_0000_0000 }

  function Last<T>(s: seq<T>): T
    requires s != []
  {
    s[|s| - 1]
  }

  function Init<T>(s: seq<T>): seq<T>
    requires s != []
  {
    s[..|s| - 1]
  }

  function TakeUpTo<T>(s: seq<T>, n: nat): seq<T> { if n < |s| then s[..n] else s }

  function DropUpTo<T>(s: seq<T>, n: nat): seq<T> { if n < |s| then s[n..] else [] }

  /** The elements that satisfy keep, in their original order. */
  function Filter<T>(s: seq<T>, keep: T -> bool): seq<T> {
    if s == [] then []
    else Filter(Init(s), keep) + (if keep(Last(s)) then [Last(s)] else [])
  }

  lemma {:induction false} FilterMembers<T>(s: seq<T>, keep: T -> bool)
    ensures forall x :: x in Filter(s, keep) <==> x in s && keep(x)
  {
    if s == [] {
    } else {
      FilterMembers(Init(s), keep);
      assert s == Init(s) + [Last(s)];
    }
  }

  lemma {:induction false} FilterConcat<T>(a: seq<T>, b: seq<T>, keep: T -> bool)
    ensures Filter(a + b, keep) == Filter(a, keep) + Filter(b, keep)
  {
    if b == [] {
      assert a + b == a;
    } else {
      FilterConcat(a, Init(b), keep);
      assert Init(a + b) == a + Init(b);
    }
  }

  /** How many times x occurs. */
  function Count<T(==)>(s: seq<T>, x: T): nat {
    if s == [] then 0 else Count(Init(s), x) + (if Last(s) == x then 1 else 0)
  }

  lemma {:induction false} CountConcat<T>(a: seq<T>, b: seq<T>, x: T)
    ensures Count(a + b, x) == Count(a, x) + Count(b, x)
  {
    if b == [] {
      assert a + b == a;
    } else {
      CountConcat(a, Init(b), x);
      assert Init(a + b) == a + Init(b);
    }
  }

  lemma {:induction false} CountPositive<T>(s: seq<T>, x: T)
    ensures Count(s, x) > 0 <==> x in s
  {
    if s == [] {
    } else {
      CountPositive(Init(s), x);
      assert s == Init(s) + [Last(s)];
    }
  }

  /** n copies of x. */
  function Copies<T>(x: T, n: nat): seq<T> {
    if n == 0 then [] else Copies(x, n - 1) + [x]
  }

  lemma {:induction false} CopiesFacts<T>(x: T, n: nat)
    ensures |Copies(x, n)| == n
    ensures forall y :: y in Copies(x, n) <==> y == x && n > 0
  {
    if n == 0 {
    } else {
      CopiesFacts(x, n - 1);
    }
  }

  lemma {:induction false} CopiesCount<T>(x: T, n: nat, y: T)
    ensures Count(Copies(x, n), y) == if x == y then n else 0
  {
    if n == 0 {
    } else {
      CopiesCount(x, n - 1, y);
    }
  }

  ghost predicate NoDuplicates<T>(s: seq<T>) {
    forall i, j :: 0 <= i < j < |s| ==> s[i] != s[j]
  }

  /** Every distinct element once, where it first occurs: commonglobals.RemoveDuplicates. */
  function Dedup<T(==)>(s: seq<T>): seq<T> {
    if s == [] then []
    else if Last(s) in Init(s) then Dedup(Init(s))
    else Dedup(Init(s)) + [Last(s)]
  }

  lemma {:induction false} DedupFacts<T>(s: seq<T>)
    ensures NoDuplicates(Dedup(s))
    ensures forall x :: x in Dedup(s) <==> x in s
  {
    if s == [] {
    } else {
      DedupFacts(Init(s));
      assert s == Init(s) + [Last(s)];
    }
  }

  function SetOf<T>(s: seq<T>): set<T> { set x | x in s }

  /** s lists every element of keys exactly once, in some order. */
  ghost predicate Enumerates<T>(s: seq<T>, keys: set<T>) {
    NoDuplicates(s) && SetOf(s) == keys
  }

  /** Every finite set can be listed. */
  lemma {:induction false} EnumerationExists<T>(keys: set<T>) returns (order: seq<T>)
    ensures Enumerates(order, keys)
  {
    if keys == {} {
      order := [];
    } else {
      var key :| key in keys;
      var rest := EnumerationExists(keys - {key});
      order := rest + [key];
      assert SetOf(order) == SetOf(rest) + {key};
      assert key !in SetOf(rest);
    }
  }
}
