/** Searching and splitting sequences, and the one fact about concatenation that proofs here ask for by name. */
module Sequences {
  /** findIndex: the first element that matches, or the length. */
  function FirstIndex<T>(s: seq<T>, matches: T -> bool): (i: nat)
    ensures i <= |s| && (i < |s| ==> matches(s[i]))
    ensures forall j | 0 <= j < i :: !matches(s[j])
  {
    if s == [] || matches(s[0]) then 0 else 1 + FirstIndex(s[1..], matches)
  }

  /** String.split with a one-character separator. */
  function Split<T(==)>(s: seq<T>, separator: T): (parts: seq<seq<T>>)
    ensures |parts| >= 1
  {
    if s == [] then [[]]
    else
      var rest := Split(s[1..], separator);
      if s[0] == separator then [[]] + rest else [[s[0]] + rest[0]] + rest[1..]
  }

  lemma {:induction false} Assoc<T>(a: seq<T>, b: seq<T>, c: seq<T>)
    ensures (a + b) + c == a + (b + c)
  {
  }

  lemma {:induction false} SplitWithout<T>(s: seq<T>, separator: T)
    requires separator !in s
    ensures Split(s, separator) == [s]
  {
    if s != [] {
      SplitWithout(s[1..], separator);
      assert s == [s[0]] + s[1..];
    }
  }

  lemma {:induction false} SplitAfter<T>(head: seq<T>, rest: seq<T>, separator: T)
    requires separator !in head
    ensures Split(head + ([separator] + rest), separator) == [head] + Split(rest, separator)
  {
    var s := head + ([separator] + rest);
    if head == [] {
      assert s[1..] == rest;
    } else {
      assert s[1..] == head[1..] + ([separator] + rest);
      SplitAfter(head[1..], rest, separator);
      assert head == [head[0]] + head[1..];
    }
  }

  /** The first part is the whole exactly when the separator does not occur. */
  lemma {:induction false} FirstPart<T>(s: seq<T>, separator: T)
    ensures Split(s, separator)[0] == s <==> separator !in s
    ensures |Split(s, separator)[0]| <= |s|
  {
    if s != [] {
      FirstPart(s[1..], separator);
      assert s == [s[0]] + s[1..];
    }
  }

  lemma {:induction false} SplitPrefix<T>(s: seq<T>, separator: T)
    ensures var parts := Split(s, separator);
            && parts[0] <= s
            && (|parts| >= 2 ==> parts[0] + [separator] + parts[1] <= s)
  {
    if s != [] {
      SplitPrefix(s[1..], separator);
      var rest := Split(s[1..], separator);
      assert s == [s[0]] + s[1..];
    }
  }
}
