/** Strings as the modelled code has them, sequences of 16-bit code units, surrogates included, and the
    operations on them that it takes from its language. */
module JsText {
  type Unit = bv16
  type Text = seq<Unit>

  const NEWLINE: Unit := 10
  const BLANK: Unit := 32
  const BANG: Unit := 33
  const DASH: Unit := 45
  const COLON: Unit := 58
  const LESS: Unit := 60
  const GREATER: Unit := 62

  /** What trim, trimStart and trimEnd remove. */
  predicate IsSpace(c: Unit) {
    9 <= c <= 13 || c == 32 || c == 0xA0 || c == 0x1680 || 0x2000 <= c <= 0x200A
    || c == 0x2028 || c == 0x2029 || c == 0x202F || c == 0x205F || c == 0x3000 || c == 0xFEFF
  }

  predicate AllSpace(s: Text) { forall i | 0 <= i < |s| :: IsSpace(s[i]) }

  function TrimStart(s: Text): (t: Text)
    ensures |t| <= |s|
  {
    if s != [] && IsSpace(s[0]) then TrimStart(s[1..]) else s
  }

  function TrimEnd(s: Text): (t: Text)
    ensures |t| <= |s|
  {
    if s != [] && IsSpace(s[|s| - 1]) then TrimEnd(s[..|s| - 1]) else s
  }

  lemma {:induction false} TrimStartFacts(s: Text)
    ensures var t := TrimStart(s);
            && s == s[..|s| - |t|] + t && AllSpace(s[..|s| - |t|])
            && (t != [] ==> !IsSpace(t[0]))
            && (t == [] <==> AllSpace(s))
  {
    if s != [] && IsSpace(s[0]) {
      TrimStartFacts(s[1..]);
      SpaceInFront(s, TrimStart(s[1..]));
    }
  }

  lemma {:induction false} SpaceInFront(s: Text, t: Text)
    requires s != [] && IsSpace(s[0]) && |t| < |s|
    requires s[1..] == s[1..][..|s| - 1 - |t|] + t && AllSpace(s[1..][..|s| - 1 - |t|])
    ensures s == s[..|s| - |t|] + t && AllSpace(s[..|s| - |t|]) && (AllSpace(s) <==> AllSpace(s[1..]))
  {
    var head := s[..|s| - |t|];
    assert head == [s[0]] + s[1..][..|s| - 1 - |t|];
    assert s == [s[0]] + s[1..] == head + t;
  }

  lemma {:induction false} TrimEndFacts(s: Text)
    ensures var t := TrimEnd(s);
            && s == t + s[|t|..] && AllSpace(s[|t|..])
            && (t != [] ==> !IsSpace(t[|t| - 1]))
            && (t == [] <==> AllSpace(s))
  {
    if s != [] && IsSpace(s[|s| - 1]) {
      TrimEndFacts(s[..|s| - 1]);
      SpaceBehind(s, TrimEnd(s[..|s| - 1]));
    }
  }

  lemma {:induction false} SpaceBehind(s: Text, t: Text)
    requires s != [] && IsSpace(s[|s| - 1]) && |t| < |s|
    requires s[..|s| - 1] == t + s[..|s| - 1][|t|..] && AllSpace(s[..|s| - 1][|t|..])
    ensures s == t + s[|t|..] && AllSpace(s[|t|..]) && (AllSpace(s) <==> AllSpace(s[..|s| - 1]))
  {
    var tail := s[|t|..];
    assert tail == s[..|s| - 1][|t|..] + [s[|s| - 1]];
    assert s == s[..|s| - 1] + [s[|s| - 1]] == t + tail;
  }

  function Trim(s: Text): Text { TrimEnd(TrimStart(s)) }

  predicate Occurs(needle: Text, s: Text, k: int) {
    0 <= k && k + |needle| <= |s| && s[k..k + |needle|] == needle
  }

  /** indexOf: the first occurrence at or after from, or -1. */
  function IndexOf(s: Text, needle: Text, from: nat): (k: int)
    ensures k == -1 || (from <= k && Occurs(needle, s, k))
    ensures forall j | from <= j && (k == -1 || j < k) :: !Occurs(needle, s, j)
    decreases |s| - from
  {
    if from + |needle| > |s| then -1
    else if s[from..from + |needle|] == needle then from
    else IndexOf(s, needle, from + 1)
  }

  /** lastIndexOf: the last occurrence that starts at or before from, or -1. */
  function LastIndexOf(s: Text, needle: Text, from: nat): (k: int)
    ensures k == -1 || (k <= from && Occurs(needle, s, k))
    ensures forall j | k < j <= from :: !Occurs(needle, s, j)
  {
    if Occurs(needle, s, from) then from
    else if from == 0 then -1
    else LastIndexOf(s, needle, from - 1)
  }
}
