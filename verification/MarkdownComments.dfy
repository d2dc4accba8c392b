/** stripMarkdownComments in scripts/check-branding.ts, against a comment automaton that reads the
    whole text one character at a time. */
module MarkdownComments {
  import opened JsText
  import opened Sequences

  const OPEN := [LESS, BANG, DASH, DASH]
  const CLOSE := [DASH, DASH, GREATER]

  /** What is visible of a line, and whether a comment is open at its end. */
  function Strip(open: bool, line: Text): (Text, bool)
    decreases |line|
  {
    if line == [] then ([], open)
    else if open then
      var close := IndexOf(line, CLOSE, 0);
      if close == -1 then ([], true) else Strip(false, line[close + 3..])
    else
      var start := IndexOf(line, OPEN, 0);
      if start == -1 then (line, false)
      else
        var rest := Strip(true, line[start + 4..]);
        (line[..start] + rest.0, rest.1)
  }

  function StripAll(open: bool, lines: seq<Text>): (stripped: seq<Text>)
    ensures |stripped| == |lines|
    decreases |lines|
  {
    if lines == [] then []
    else [Strip(open, lines[0]).0] + StripAll(Strip(open, lines[0]).1, lines[1..])
  }

  /** Searching from an offset is searching the rest of the line. */
  lemma {:induction false} SearchFrom(line: Text, needle: Text, i: nat)
    requires i <= |line|
    ensures var k := IndexOf(line, needle, i); var j := IndexOf(line[i..], needle, 0);
            (k == -1 <==> j == -1) && (k != -1 ==> k == i + j)
  {
    forall j | 0 <= j ensures Occurs(needle, line, i + j) <==> Occurs(needle, line[i..], j) {
      if i + j + |needle| <= |line| { assert line[i..][j..j + |needle|] == line[i + j..i + j + |needle|]; }
    }
    var k, j := IndexOf(line, needle, i), IndexOf(line[i..], needle, 0);
    if k != -1 { assert Occurs(needle, line[i..], k - i); }
    if j != -1 { assert Occurs(needle, line, i + j); }
  }

  lemma {:induction false} Empty(a: Text)
    ensures [] + a == a && a + [] == a
  {
  }

  lemma {:induction false} OpenFrom(line: Text, i: nat)
    requires i < |line|
    ensures var close := IndexOf(line, CLOSE, i);
            Strip(true, line[i..]) == if close == -1 then ([], true) else Strip(false, line[close + 3..])
  {
    SearchFrom(line, CLOSE, i);
    var close := IndexOf(line, CLOSE, i);
    if close != -1 { Slices(line, i, close, close + 3); }
  }

  lemma {:induction false} TextFrom(line: Text, i: nat)
    requires i < |line|
    ensures var start := IndexOf(line, OPEN, i);
            Strip(false, line[i..]) ==
            if start == -1 then (line[i..], false)
            else (line[i..start] + Strip(true, line[start + 4..]).0, Strip(true, line[start + 4..]).1)
  {
    SearchFrom(line, OPEN, i);
    StripText(line[i..]);
    var start := IndexOf(line, OPEN, i);
    if start != -1 { Slices(line, i, start, start + 4); }
  }

  /** One step of Strip outside a comment. */
  lemma {:induction false} StripText(u: Text)
    requires u != []
    ensures var start := IndexOf(u, OPEN, 0);
            Strip(false, u) ==
            if start == -1 then (u, false)
            else (u[..start] + Strip(true, u[start + 4..]).0, Strip(true, u[start + 4..]).1)
  {
  }

  lemma {:induction false} Slices(line: Text, i: nat, m: nat, n: nat)
    requires i <= m <= n <= |line|
    ensures line[i..][..m - i] == line[i..m] && line[i..][n - i..] == line[n..]
  {
  }

  /** What the scanner has kept, together with what it still has to do. */
  ghost function Total(line: Text, visible: Text, open: bool, i: nat): (Text, bool)
    requires i <= |line|
  {
    var rest := Strip(open, line[i..]);
    (visible + rest.0, rest.1)
  }

  lemma {:induction false} TotalAtStart(open: bool, line: Text)
    ensures Total(line, [], open, 0) == Strip(open, line)
  {
    assert line[0..] == line;
    Empty(Strip(open, line).0);
  }

  lemma {:induction false} TotalAtEnd(line: Text, visible: Text, open: bool)
    ensures Total(line, visible, open, |line|) == (visible, open)
  {
    Empty(visible);
  }

  lemma {:induction false} TotalInComment(line: Text, visible: Text, i: nat)
    requires i < |line|
    ensures var close := IndexOf(line, CLOSE, i);
            Total(line, visible, true, i) == if close == -1 then (visible, true) else Total(line, visible, false, close + 3)
  {
    OpenFrom(line, i);
    Empty(visible);
  }

  lemma {:induction false} TotalInText(line: Text, visible: Text, i: nat)
    requires i < |line|
    ensures var start := IndexOf(line, OPEN, i);
            Total(line, visible, false, i) ==
            if start == -1 then (visible + line[i..], false) else Total(line, visible + line[i..start], true, start + 4)
  {
    TextFrom(line, i);
    var start := IndexOf(line, OPEN, i);
    if start != -1 { Assoc(visible, line[i..start], Strip(true, line[start + 4..]).0); }
  }

  /** One turn of the scanner's loop; done when it returns from inside the loop. */
  method Turn(line: Text, visible: Text, open: bool, i: nat)
    returns (done: bool, visible': Text, open': bool, i': nat)
    requires i < |line|
    ensures i < i' <= |line| || done
    ensures Total(line, visible, open, i) == if done then (visible', open') else Total(line, visible', open', i')
  {
    if open {
      TotalInComment(line, visible, i);
      var close := IndexOf(line, CLOSE, i);
      if close == -1 { return true, visible, true, i; }
      return false, visible, false, close + 3;
    } else {
      TotalInText(line, visible, i);
      var start := IndexOf(line, OPEN, i);
      if start == -1 { return true, visible + line[i..], false, i; }
      return false, visible + line[i..start], true, start + 4;
    }
  }

  /** One line, with the scanner's position and what it has kept so far. */
  method StripLine(wasOpen: bool, line: Text) returns (visible: Text, open: bool)
    ensures (visible, open) == Strip(wasOpen, line)
  {
    visible, open := [], wasOpen;
    var i := 0;
    TotalAtStart(wasOpen, line);
    while i < |line|
      invariant i <= |line| && Total(line, visible, open, i) == Strip(wasOpen, line)
    {
      var done;
      done, visible, open, i := Turn(line, visible, open, i);
      if done { return; }
    }
    TotalAtEnd(line, visible, open);
  }

  method StripMarkdownComments(lines: seq<Text>) returns (stripped: seq<Text>)
    ensures stripped == StripAll(false, lines)
  {
    var open := false;
    stripped := [];
    for n := 0 to |lines|
      invariant stripped + StripAll(open, lines[n..]) == StripAll(false, lines)
    {
      var visible;
      ghost var rest := StripAll(Strip(open, lines[n]).1, lines[n + 1..]);
      assert lines[n..][1..] == lines[n + 1..];
      visible, open := StripLine(open, lines[n]);
      assert (stripped + [visible]) + rest == stripped + ([visible] + rest);
      stripped := stripped + [visible];
    }
  }

  /* ---- The automaton ---- */

  /** Plain(k): the last k characters may begin a comment.  Comment(d): d dashes, at most two, may end it. */
  datatype Mode = Plain(k: nat) | Comment(d: nat)

  predicate ValidMode(m: Mode) { if m.Plain? then m.k <= 3 else m.d <= 2 }

  /** The characters held back, which turned out to be text. */
  function Held(m: Mode): Text
    requires ValidMode(m)
  {
    if m.Plain? then OPEN[..m.k] else []
  }

  function Read(m: Mode, c: Unit): (r: (Text, Mode))
    requires ValidMode(m)
    ensures ValidMode(r.1)
  {
    if c == NEWLINE then (Held(m) + [NEWLINE], if m.Plain? then Plain(0) else Comment(0))
    else
      match m
      case Plain(k) =>
        if c == OPEN[k] then ([], if k == 3 then Comment(0) else Plain(k + 1))
        else if c == LESS then (Held(m), Plain(1))
        else (Held(m) + [c], Plain(0))
      case Comment(d) =>
        ([], if c == DASH then Comment(if d < 2 then d + 1 else 2)
             else if c == GREATER && d == 2 then Plain(0)
             else Comment(0))
  }

  function ReadAll(m: Mode, text: Text): (r: (Text, Mode))
    requires ValidMode(m)
    ensures ValidMode(r.1)
    decreases |text|
  {
    if text == [] then ([], m)
    else
      var first := Read(m, text[0]);
      var rest := ReadAll(first.1, text[1..]);
      (first.0 + rest.0, rest.1)
  }

  /** What the automaton keeps of a text that ends here. */
  function Kept(m: Mode, text: Text): Text
    requires ValidMode(m)
  {
    ReadAll(m, text).0 + Held(ReadAll(m, text).1)
  }

  function JoinLines(lines: seq<Text>): Text {
    if lines == [] then []
    else if |lines| == 1 then lines[0]
    else lines[0] + [NEWLINE] + JoinLines(lines[1..])
  }

  /* ---- One line ---- */

  lemma {:induction false} FirstAt(s: Text, needle: Text, k: nat)
    requires Occurs(needle, s, k) && forall j | 0 <= j < k :: !Occurs(needle, s, j)
    ensures IndexOf(s, needle, 0) == k
  {
  }

  /** Text before which no comment opens is kept. */
  lemma {:induction false} SkipText(u: Text, n: nat)
    requires n <= |u| && forall j | 0 <= j < n :: !Occurs(OPEN, u, j)
    ensures var rest := Strip(false, u[n..]); Strip(false, u) == (u[..n] + rest.0, rest.1)
  {
    SearchFrom(u, OPEN, n);
    SearchFromStart(u, OPEN, n);
    var k := IndexOf(u, OPEN, 0);
    if k == -1 { assert u == u[..n] + u[n..]; } else { SkipToOpen(u, n, k); }
  }

  lemma {:induction false} SkipToOpen(u: Text, n: nat, k: nat)
    requires n <= k && k + 4 <= |u| && IndexOf(u, OPEN, 0) == k && IndexOf(u[n..], OPEN, 0) == k - n
    ensures var rest := Strip(false, u[n..]); Strip(false, u) == (u[..n] + rest.0, rest.1)
  {
    var v := u[n..];
    assert u[k + 4..] == v[k - n + 4..];
    assert u[..k] == u[..n] + v[..k - n];
    var after := Strip(true, u[k + 4..]);
    Assoc(u[..n], v[..k - n], after.0);
    assert Strip(false, v) == (v[..k - n] + after.0, after.1);
    assert Strip(false, u) == (u[..k] + after.0, after.1);
  }

  /** Where nothing occurs before n, searching from n is searching from the start. */
  lemma {:induction false} SearchFromStart(u: Text, needle: Text, n: nat)
    requires forall j | 0 <= j < n :: !Occurs(needle, u, j)
    ensures IndexOf(u, needle, 0) == IndexOf(u, needle, n)
  {
  }

  /** Inside a comment, text in which it does not close is dropped. */
  lemma {:induction false} SkipComment(u: Text, n: nat)
    requires n <= |u| && forall j | 0 <= j < n :: !Occurs(CLOSE, u, j)
    ensures Strip(true, u) == Strip(true, u[n..])
  {
    SearchFrom(u, CLOSE, n);
    SearchFromStart(u, CLOSE, n);
    var k := IndexOf(u, CLOSE, 0);
    if k != -1 { assert u[k + 3..] == u[n..][k - n + 3..]; }
  }

  function Dashes(d: nat): Text
    requires d <= 2
  {
    [DASH, DASH][..d]
  }

  lemma {:induction false} OccursSpelled(u: Text, j: nat)
    ensures Occurs(OPEN, u, j) <==> j + 4 <= |u| && u[j] == LESS && u[j + 1] == BANG && u[j + 2] == DASH && u[j + 3] == DASH
    ensures Occurs(CLOSE, u, j) <==> j + 3 <= |u| && u[j] == DASH && u[j + 1] == DASH && u[j + 2] == GREATER
  {
    if j + 4 <= |u| { assert u[j..j + 4] == [u[j], u[j + 1], u[j + 2], u[j + 3]]; }
    if j + 3 <= |u| { assert u[j..j + 3] == [u[j], u[j + 1], u[j + 2]]; }
  }

  /** The automaton on one line does what the scanner does on the held characters and that line. */
  ghost predicate Agrees(m: Mode, s: Text, u: Text, open: bool)
    requires ValidMode(m)
  {
    Strip(open, u) == (Kept(m, s), ReadAll(m, s).1.Comment?)
  }

  /** No comment opens before the character that ends a partial match. */
  lemma {:induction false} NoOpenBefore(k: nat, u: Text, n: nat)
    requires k <= 3 && k < |u| && u[..k] == OPEN[..k] && u[k] != OPEN[k]
    requires n <= k || (n == k + 1 && u[k] != LESS)
    ensures forall j | 0 <= j < n :: !Occurs(OPEN, u, j)
  {
    forall j | 0 <= j < n ensures !Occurs(OPEN, u, j) {
      OccursSpelled(u, j);
      if j < k { assert u[j] == u[..k][j] == OPEN[j]; }
    }
  }

  lemma {:induction false} HeldIsText(k: nat)
    requires k <= 3
    ensures Strip(false, OPEN[..k]) == (OPEN[..k], false)
  {
    forall j | 0 <= j ensures !Occurs(OPEN, OPEN[..k], j) { OccursSpelled(OPEN[..k], j); }
  }

  lemma {:induction false} TextLine(k: nat, s: Text)
    requires k <= 3 && NEWLINE !in s
    ensures Agrees(Plain(k), s, OPEN[..k] + s, false)
    decreases |s|
  {
    var u := OPEN[..k] + s;
    if s == [] {
      assert u == OPEN[..k];
      HeldIsText(k);
      Empty(OPEN[..k]);
    } else if s[0] == OPEN[k] {
      TextMatches(k, s);
    } else {
      TextOther(k, s);
    }
  }

  lemma {:induction false} TextOther(k: nat, s: Text)
    requires k <= 3 && NEWLINE !in s && s != [] && s[0] != OPEN[k]
    ensures Agrees(Plain(k), s, OPEN[..k] + s, false)
    decreases |s|, 0
  {
    var u := OPEN[..k] + s;
    assert u[..k] == OPEN[..k] && u[k] == s[0];
    KeptStep(Plain(k), s);
    if s[0] == LESS {
      NoOpenBefore(k, u, k);
      SkipText(u, k);
      assert u[k..] == OPEN[..1] + s[1..];
      TextLine(1, s[1..]);
    } else {
      NoOpenBefore(k, u, k + 1);
      SkipText(u, k + 1);
      assert u[..k + 1] == OPEN[..k] + [s[0]] && u[k + 1..] == s[1..] == OPEN[..0] + s[1..];
      TextLine(0, s[1..]);
    }
  }

  lemma {:induction false} KeptStep(m: Mode, s: Text)
    requires ValidMode(m) && s != []
    ensures Kept(m, s) == Read(m, s[0]).0 + Kept(Read(m, s[0]).1, s[1..])
    ensures ReadAll(m, s).1 == ReadAll(Read(m, s[0]).1, s[1..]).1
  {
    Assoc(Read(m, s[0]).0, ReadAll(Read(m, s[0]).1, s[1..]).0, Held(ReadAll(m, s).1));
  }

  lemma {:induction false} TextMatches(k: nat, s: Text)
    requires k <= 3 && NEWLINE !in s && s != [] && s[0] == OPEN[k]
    ensures Agrees(Plain(k), s, OPEN[..k] + s, false)
    decreases |s|, 0
  {
    KeptStep(Plain(k), s);
    Empty(Kept(Read(Plain(k), s[0]).1, s[1..]));
    if k == 3 {
      CommentLine(0, s[1..]);
      Opens(s);
    } else {
      assert OPEN[..k] + s == OPEN[..k + 1] + s[1..];
      TextLine(k + 1, s[1..]);
    }
  }

  lemma {:induction false} Opens(s: Text)
    requires s != [] && s[0] == OPEN[3]
    ensures Strip(false, OPEN[..3] + s) == Strip(true, Dashes(0) + s[1..])
  {
    var u := OPEN[..3] + s;
    OccursSpelled(u, 0);
    FirstAt(u, OPEN, 0);
    OpensAtOnce(u);
    assert u[4..] == s[1..] == Dashes(0) + s[1..];
  }

  lemma {:induction false} OpensAtOnce(u: Text)
    requires |u| >= 4 && IndexOf(u, OPEN, 0) == 0
    ensures Strip(false, u) == Strip(true, u[4..])
  {
    StripText(u);
    assert u[..0] == [];
    Empty(Strip(true, u[4..]).0);
  }

  /** The comment does not close before a character that is not its next one. */
  lemma {:induction false} NoCloseBefore(u: Text, n: nat)
    requires 1 <= n <= |u| && n <= 3
    requires (forall j | 0 <= j < n - 1 :: u[j] == DASH) && u[n - 1] != DASH && !(n == 3 && u[n - 1] == GREATER)
    ensures forall j | 0 <= j < n :: !Occurs(CLOSE, u, j)
  {
    forall j | 0 <= j < n ensures !Occurs(CLOSE, u, j) { OccursSpelled(u, j); }
  }

  lemma {:induction false} DashesStayOpen(d: nat)
    requires d <= 2
    ensures Strip(true, Dashes(d)) == ([], true)
  {
    forall j | 0 <= j ensures !Occurs(CLOSE, Dashes(d), j) { OccursSpelled(Dashes(d), j); }
  }

  lemma {:induction false} CommentLine(d: nat, s: Text)
    requires d <= 2 && NEWLINE !in s
    ensures Agrees(Comment(d), s, Dashes(d) + s, true)
    decreases |s|
  {
    if s == [] {
      assert Dashes(d) + s == Dashes(d);
      DashesStayOpen(d);
      Empty([]);
    } else if s[0] == DASH {
      CommentDash(d, s);
    } else {
      CommentOther(d, s);
    }
  }

  lemma {:induction false} CommentDash(d: nat, s: Text)
    requires d <= 2 && NEWLINE !in s && s != [] && s[0] == DASH
    ensures Agrees(Comment(d), s, Dashes(d) + s, true)
    decreases |s|, 0
  {
    var next := if d < 2 then d + 1 else 2;
    CommentLine(next, s[1..]);
    CommentStep(d, s);
    if d < 2 { assert Dashes(d) + s == Dashes(d + 1) + s[1..]; } else { ThirdDash(s); }
  }

  /** In a comment the automaton keeps nothing of the character it reads. */
  lemma {:induction false} CommentStep(d: nat, s: Text)
    requires d <= 2 && s != [] && s[0] != NEWLINE
    ensures var next := Read(Comment(d), s[0]).1;
            Kept(Comment(d), s) == Kept(next, s[1..]) && ReadAll(Comment(d), s).1 == ReadAll(next, s[1..]).1
  {
    KeptStep(Comment(d), s);
    Empty(Kept(Read(Comment(d), s[0]).1, s[1..]));
  }

  /** A dash after two dashes cannot close the comment where the first of them stands. */
  lemma {:induction false} ThirdDash(s: Text)
    requires s != [] && s[0] == DASH
    ensures Strip(true, Dashes(2) + s) == Strip(true, Dashes(2) + s[1..])
  {
    var u := Dashes(2) + s;
    OccursSpelled(u, 0);
    SkipComment(u, 1);
    assert u[1..] == Dashes(2) + s[1..];
  }

  lemma {:induction false} CommentOther(d: nat, s: Text)
    requires d <= 2 && NEWLINE !in s && s != [] && s[0] != DASH
    ensures Agrees(Comment(d), s, Dashes(d) + s, true)
    decreases |s|, 0
  {
    CommentStep(d, s);
    if s[0] == GREATER && d == 2 {
      TextLine(0, s[1..]);
      Closes(s);
    } else {
      CommentLine(0, s[1..]);
      DoesNotClose(d, s);
    }
  }

  lemma {:induction false} Closes(s: Text)
    requires s != [] && s[0] == GREATER
    ensures Strip(true, Dashes(2) + s) == Strip(false, OPEN[..0] + s[1..])
  {
    var u := Dashes(2) + s;
    OccursSpelled(u, 0);
    FirstAt(u, CLOSE, 0);
    assert u[3..] == s[1..] == OPEN[..0] + s[1..];
  }

  lemma {:induction false} DoesNotClose(d: nat, s: Text)
    requires d <= 2 && s != [] && s[0] != DASH && !(s[0] == GREATER && d == 2)
    ensures Strip(true, Dashes(d) + s) == Strip(true, Dashes(0) + s[1..])
  {
    var u := Dashes(d) + s;
    assert u[d] == s[0];
    NoCloseBefore(u, d + 1);
    SkipComment(u, d + 1);
    assert u[d + 1..] == s[1..] == Dashes(0) + s[1..];
  }

  /* ---- The whole text ---- */

  function StartOf(open: bool): Mode { if open then Comment(0) else Plain(0) }

  lemma {:induction false} ReadConcat(m: Mode, a: Text, b: Text)
    requires ValidMode(m)
    ensures ReadAll(m, a + b).0 == ReadAll(m, a).0 + ReadAll(ReadAll(m, a).1, b).0
    ensures ReadAll(m, a + b).1 == ReadAll(ReadAll(m, a).1, b).1
    decreases |a|
  {
    if a == [] {
      assert a + b == b;
      Empty(ReadAll(m, b).0);
    } else {
      assert (a + b)[1..] == a[1..] + b;
      var x := Read(m, a[0]);
      ReadConcat(x.1, a[1..], b);
      Assoc(x.0, ReadAll(x.1, a[1..]).0, ReadAll(ReadAll(x.1, a[1..]).1, b).0);
    }
  }

  lemma {:induction false} LineAgrees(open: bool, line: Text)
    requires NEWLINE !in line
    ensures Agrees(StartOf(open), line, line, open)
  {
    if open {
      assert Dashes(0) + line == line;
      CommentLine(0, line);
    } else {
      assert OPEN[..0] + line == line;
      TextLine(0, line);
    }
  }

  lemma {:induction false} KeptConcat(m: Mode, a: Text, b: Text)
    requires ValidMode(m)
    ensures Kept(m, a + b) == ReadAll(m, a).0 + Kept(ReadAll(m, a).1, b)
  {
    ReadConcat(m, a, b);
    Assoc(ReadAll(m, a).0, ReadAll(ReadAll(m, a).1, b).0, Held(ReadAll(m, a + b).1));
  }

  /** After a line and its newline the automaton has kept the visible part and starts the next line afresh. */
  lemma {:induction false} LineThenRest(open: bool, line: Text, rest: Text)
    requires NEWLINE !in line
    ensures var s := Strip(open, line); Kept(StartOf(open), line + [NEWLINE] + rest) == s.0 + [NEWLINE] + Kept(StartOf(s.1), rest)
  {
    LineAgrees(open, line);
    var m := StartOf(open);
    var end := ReadAll(m, line).1;
    Assoc(line, [NEWLINE], rest);
    KeptConcat(m, line, [NEWLINE] + rest);
    assert ([NEWLINE] + rest)[1..] == rest;
    KeptStep(end, [NEWLINE] + rest);
    var k := Kept(StartOf(end.Comment?), rest);
    Assoc(Held(end), [NEWLINE], k);
    Assoc(ReadAll(m, line).0, Held(end), [NEWLINE] + k);
    Assoc(Strip(open, line).0, [NEWLINE], k);
  }

  lemma {:induction false} LinesAgree(open: bool, lines: seq<Text>)
    requires forall line | line in lines :: NEWLINE !in line
    ensures JoinLines(StripAll(open, lines)) == Kept(StartOf(open), JoinLines(lines))
    decreases |lines|
  {
    if |lines| == 1 {
      LineAgrees(open, lines[0]);
    } else if lines != [] {
      LinesAgree(Strip(open, lines[0]).1, lines[1..]);
      LineThenRest(open, lines[0], JoinLines(lines[1..]));
      assert StripAll(open, lines)[1..] == StripAll(Strip(open, lines[0]).1, lines[1..]);
    }
  }

  /** Stripping line by line keeps exactly what the automaton keeps of the whole text. */
  lemma {:induction false} StrippingIsTheAutomaton(lines: seq<Text>)
    requires forall line | line in lines :: NEWLINE !in line
    ensures |StripAll(false, lines)| == |lines|
    ensures JoinLines(StripAll(false, lines)) == Kept(Plain(0), JoinLines(lines))
  {
    LinesAgree(false, lines);
  }
}
