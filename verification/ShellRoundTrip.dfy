/** Printing a command tree and parsing it again (user/sh.c). */
module ShellRoundTrip {
  import opened Base
  import opened ShellParser

  /** The text `t` stands in the line at position `s`. */
  predicate At(buf: string, s: nat, t: string) {
    s + |t| <= |buf| && buf[s..s + |t|] == t
  }

  lemma AtParts(buf: string, s: nat, a: string, b: string)
    requires At(buf, s, a + b)
    ensures At(buf, s, a) && At(buf, s + |a|, b)
  {
    assert buf[s..s + |a|] == buf[s..s + |a + b|][..|a|];
    assert buf[s + |a|..s + |a| + |b|] == buf[s..s + |a + b|][|a|..];
  }

  /** The line ends here or a block does. */
  predicate Stop(buf: string, e: nat) {
    e == |buf| || (e < |buf| && buf[e] == ')')
  }

  /** No white space here. */
  predicate Solid(buf: string, e: nat) {
    e == |buf| || (e < |buf| && !IsWs(buf[e]))
  }

  lemma {:induction false} WordEndAt(buf: string, s: nat, e: nat)
    requires s <= e <= |buf| && (forall i :: s <= i < e ==> IsWordChar(buf[i])) && (e < |buf| ==> !IsWordChar(buf[e]))
    ensures WordEnd(buf, s) == e
    decreases e - s
  {
    if s < e { WordEndAt(buf, s + 1, e); }
  }

  lemma WordAt(buf: string, s: nat, w: string)
    requires At(buf, s, w) && IsWord(w) && (s + |w| < |buf| ==> !IsWordChar(buf[s + |w|]))
    ensures GetToken(buf, s) == Token('a', s, s + |w|, SkipWs(buf, s + |w|)) && SkipWs(buf, s) == s
    ensures Text(buf, Span(s, s + |w|)) == w
  {
    forall i | s <= i < s + |w| ensures IsWordChar(buf[i]) {
      assert buf[i] == buf[s..s + |w|][i - s];
    }
    WordEndAt(buf, s, s + |w|);
  }

  lemma NoRedirs(buf: string, s: nat)
    requires s <= |buf| && Solid(buf, s) && (s < |buf| ==> buf[s] !in "<>")
    ensures ParseRedirs(buf, s) == Some(([], s)) && SkipWs(buf, s) == s
  {
  }

  /** The argument loop reads back joined words. */
  lemma {:induction false} ArgsTrip(buf: string, s: nat, ws: seq<string>, n: nat) returns (spans: seq<Span>)
    requires At(buf, s, Join(ws)) && Stop(buf, s + |Join(ws)|) && n + |ws| < MAXARGS &&
             forall i :: 0 <= i < |ws| ==> IsWord(ws[i])
    ensures ParseArgs(buf, s, n) == Some((spans, [], s + |Join(ws)|)) && Texts(buf, spans) == ws
    decreases |ws|
  {
    hide SkipWs, GetToken, WordEnd, ParseRedirs, Join, Text;
    if |ws| == 0 {
      spans := NoArgs(buf, s, n);
    } else {
      hide ParseArgs;
      var next := NextArg(buf, s, ws);
      var more := ArgsTrip(buf, next, ws[1..], n + 1);
      spans := [Span(s, s + |ws[0]|)] + more;
      ArgStep(buf, s, n, ws[0], next, more, s + |Join(ws)|);
    }
  }

  lemma NoArgs(buf: string, s: nat, n: nat) returns (spans: seq<Span>)
    requires Stop(buf, s + |Join([])|)
    ensures spans == [] && ParseArgs(buf, s, n) == Some((spans, [], s + |Join([])|))
  {
    spans := [];
  }

  /** The first of some words, and where the next one starts. */
  lemma NextArg(buf: string, s: nat, ws: seq<string>) returns (next: nat)
    requires |ws| > 0 && At(buf, s, Join(ws)) && Stop(buf, s + |Join(ws)|) && IsWord(ws[0]) &&
             (|ws| > 1 ==> IsWord(ws[1]))
    ensures GetToken(buf, s) == Token('a', s, s + |ws[0]|, next) && SkipWs(buf, s) == s &&
            Text(buf, Span(s, s + |ws[0]|)) == ws[0]
    ensures next <= |buf| && ParseRedirs(buf, next) == Some(([], next))
    ensures At(buf, next, Join(ws[1..])) && next + |Join(ws[1..])| == s + |Join(ws)|
  {
    hide GetToken, WordEnd, ParseRedirs, Text;
    var w, rest := ws[0], ws[1..];
    if |ws| == 1 {
      WordAt(buf, s, w);
      NoRedirs(buf, s + |w|);
      next := s + |w|;
    } else {
      assert Join(ws) == w + (" " + Join(rest));
      AtParts(buf, s, w, " " + Join(rest));
      AtParts(buf, s + |w|, " ", Join(rest));
      assert buf[s + |w|] == ' ' by { assert buf[s + |w|..s + |w| + 1] == " "; }
      WordAt(buf, s, w);
      FirstOfJoin(buf, s + |w| + 1, rest);
      next := s + |w| + 1;
      assert SkipWs(buf, s + |w|) == next;
      NoRedirs(buf, next);
    }
  }

  /** One round of the argument loop. */
  lemma ArgStep(buf: string, s: nat, n: nat, w: string, next: nat, more: seq<Span>, e: nat)
    requires s <= |buf| && next <= |buf| && n + 1 < MAXARGS && w != ""
    requires GetToken(buf, s) == Token('a', s, s + |w|, next) && SkipWs(buf, s) == s
    requires ParseRedirs(buf, next) == Some(([], next)) && ParseArgs(buf, next, n + 1) == Some((more, [], e))
    ensures ParseArgs(buf, s, n) == Some(([Span(s, s + |w|)] + more, [], e))
  {
    assert s < |buf| && IsWordChar(buf[s]);
    var none: seq<Redirection> := [];
    assert none + none == none;
  }

  lemma FirstOfJoin(buf: string, s: nat, ws: seq<string>)
    requires At(buf, s, Join(ws)) && |ws| > 0 && IsWord(ws[0])
    ensures s < |buf| && IsWordChar(buf[s])
  {
    var j := Join(ws);
    assert j[0] == ws[0][0];
    assert buf[s] == buf[s..s + |j|][0];
  }

  lemma ExecTrip(buf: string, s: nat, ws: seq<string>) returns (c: Cmd<Span>)
    requires At(buf, s, Join(ws)) && Stop(buf, s + |Join(ws)|) && |ws| < MAXARGS &&
             forall i :: 0 <= i < |ws| ==> IsWord(ws[i])
    ensures ParseExec(buf, s) == Some((c, s + |Join(ws)|)) && Tree(buf, c) == Exec(ws)
  {
    if |ws| > 0 { FirstOfJoin(buf, s, ws); }
    NoRedirs(buf, s);
    var spans := ArgsTrip(buf, s, ws, 0);
    c := Exec(spans);
    assert Wrap(c, [] + []) == c;
  }

  lemma ExecLine(buf: string, s: nat, ws: seq<string>) returns (c: Cmd<Span>)
    requires At(buf, s, Print(Exec(ws))) && Stop(buf, s + |Print(Exec(ws))|) && Printable(Exec(ws))
    ensures ParseExec(buf, s) == Some((c, s + |Print(Exec(ws))|)) && Tree(buf, c) == Exec(ws) && s <= |buf|
  {
    hide ParseExec;
    c := ExecTrip(buf, s, ws);
  }

  // ------------------------------------------------------------ blocks

  /** A symbol that is one character long. */
  lemma SymbolAt(buf: string, s: nat, x: char)
    requires At(buf, s, [x]) && x in "|();&" && Solid(buf, s + 1)
    ensures s < |buf| && buf[s] == x && SkipWs(buf, s) == s && GetToken(buf, s) == Token(x, s, s + 1, s + 1)
  {
    assert buf[s..s + 1][0] == x;
  }

  lemma FirstSolid(buf: string, s: nat, c: Cmd<string>)
    requires At(buf, s, Print(c)) && Printable(c) && Stop(buf, s + |Print(c)|)
    ensures Solid(buf, s)
  {
    if |Print(c)| > 0 {
      assert buf[s] == buf[s..s + |Print(c)|][0];
      if c.Exec? { FirstOfJoin(buf, s, c.argv); }
    }
  }

  /** A printed command in parentheses, followed by redirections `rs` that end at `e`. */
  lemma {:induction false} BlockTrip(buf: string, s: nat, c: Cmd<string>, rs: seq<Redirection>, e: nat)
    returns (d: Cmd<Span>)
    requires At(buf, s, "(" + Print(c) + ")") && Printable(c) && s + |Print(c)| + 2 <= |buf|
    requires Solid(buf, s + |Print(c)| + 2) && ParseRedirs(buf, s + |Print(c)| + 2) == Some((rs, e))
    ensures Tree(buf, d) == c && ParseExec(buf, s) == Some((Wrap(d, rs), e))
    decreases c, 2
  {
    hide ParseLine, ParseExec, ParseRedirs, GetToken, SkipWs, Print, Printable, Tree;
    var n := |Print(c)|;
    AtParts(buf, s, "(" + Print(c), ")");
    AtParts(buf, s, "(", Print(c));
    assert buf[s + 1 + n] == ')' by { assert buf[s + 1 + n..s + 1 + n + 1] == ")"; }
    FirstSolid(buf, s + 1, c);
    SymbolAt(buf, s, '(');
    d := LineTrip(buf, s + 1, c);
    SymbolAt(buf, s + 1 + n, ')');
    BlockExec(buf, s, d, s + 1 + n, rs, e);
  }

  /** parseexec on an opening parenthesis. */
  lemma BlockExec(buf: string, s: nat, d: Cmd<Span>, p: nat, rs: seq<Redirection>, e: nat)
    requires s < |buf| && buf[s] == '(' && SkipWs(buf, s) == s && GetToken(buf, s) == Token('(', s, s + 1, s + 1)
    requires p < |buf| && buf[p] == ')' && SkipWs(buf, p) == p && GetToken(buf, p) == Token(')', p, p + 1, p + 1)
    requires ParseLine(buf, s + 1) == Some((d, p)) && ParseRedirs(buf, p + 1) == Some((rs, e))
    ensures ParseExec(buf, s) == Some((Wrap(d, rs), e))
  {
    hide ParseLine, ParseRedirs, GetToken, SkipWs, ParseArgs, Wrap;
    assert ParseBlock(buf, s) == Some((Wrap(d, rs), e));
  }

  /** Parsing the printed tree gives the tree. */
  lemma {:induction false} LineTrip(buf: string, s: nat, c: Cmd<string>) returns (d: Cmd<Span>)
    requires At(buf, s, Print(c)) && Printable(c) && Stop(buf, s + |Print(c)|)
    ensures ParseLine(buf, s) == Some((d, s + |Print(c)|)) && Tree(buf, d) == c
    decreases c, 1
  {
    hide Print, Printable, Tree, ParseLine, ParseExec, At, Stop;
    var e := s + |Print(c)|;
    match c
    case Exec(argv) =>
      d := ExecLine(buf, s, argv);
      LineEnd(buf, s, d, e);
    case Redir(b, f, m) =>
      d := RedirTrip(buf, s, b, f, m);
      LineEnd(buf, s, d, e);
    case Pipe(l, r) =>
      d := PipeTrip(buf, s, l, r);
    case List(l, r) =>
      d := ListTrip(buf, s, l, r);
    case Back(b) =>
      d := BackTrip(buf, s, b);
  }

  /** Nothing follows the command. */
  lemma LineEnd(buf: string, s: nat, d: Cmd<Span>, e: nat)
    requires s <= |buf| && ParseExec(buf, s) == Some((d, e)) && Stop(buf, e)
    ensures ParseLine(buf, s) == Some((d, e)) && ParsePipe(buf, s) == Some((d, e))
  {
    hide ParseExec, GetToken, SkipWs;
    SolidSkip(buf, e);
    assert ParsePipe(buf, s) == Some((d, e));
    assert ParseBacks(buf, e, d) == (d, e);
  }

  lemma SolidSkip(buf: string, e: nat)
    requires Solid(buf, e)
    ensures SkipWs(buf, e) == e
  {
  }

  // ------------------------------------------------------------ the five forms

  lemma OpAt(buf: string, s: nat, m: Mode, f: string)
    requires At(buf, s, Op(m) + f) && IsWord(f)
    ensures Peek(buf, s, "<>") && ModeOf(GetToken(buf, s).kind) == m && GetToken(buf, s).next == s + |Op(m)|
    ensures At(buf, s + |Op(m)|, f) && Solid(buf, s)
  {
    AtParts(buf, s, Op(m), f);
    assert buf[s] == buf[s..s + |Op(m)|][0];
    var x := s + |Op(m)|;
    assert buf[x] == buf[x..x + |f|][0] && IsWordChar(buf[x]);
    if m == Append { assert buf[s + 1] == buf[s..s + |Op(m)|][1]; }
  }

  lemma OneRedir(buf: string, s: nat, m: Mode, f: string)
    requires At(buf, s, Op(m) + f) && IsWord(f) && Stop(buf, s + |Op(m)| + |f|)
    ensures var x := s + |Op(m)|;
            ParseRedirs(buf, s) == Some(([Redirection(Span(x, x + |f|), m)], x + |f|)) &&
              Text(buf, Span(x, x + |f|)) == f
    ensures Solid(buf, s)
  {
    hide GetToken, SkipWs, Text;
    OpAt(buf, s, m, f);
    var x := s + |Op(m)|;
    WordAt(buf, x, f);
    NoRedirs(buf, x + |f|);
    var none: seq<Redirection> := [];
    assert [Redirection(Span(x, x + |f|), m)] + none == [Redirection(Span(x, x + |f|), m)];
  }

  lemma {:induction false} RedirTrip(buf: string, s: nat, b: Cmd<string>, f: string, m: Mode) returns (d: Cmd<Span>)
    requires At(buf, s, Print(Redir(b, f, m))) && Printable(Redir(b, f, m)) && Stop(buf, s + |Print(Redir(b, f, m))|)
    ensures ParseExec(buf, s) == Some((d, s + |Print(Redir(b, f, m))|)) && Tree(buf, d) == Redir(b, f, m) && s <= |buf|
    decreases Redir(b, f, m), 0
  {
    hide ParseRedirs, ParseExec, ParseLine, Text;
    var block := "(" + Print(b) + ")";
    assert Print(Redir(b, f, m)) == block + (Op(m) + f);
    AtParts(buf, s, block, Op(m) + f);
    var p := s + |block|;
    OneRedir(buf, p, m, f);
    var x := p + |Op(m)|;
    var b' := BlockTrip(buf, s, b, [Redirection(Span(x, x + |f|), m)], x + |f|);
    d := Redir(b', Span(x, x + |f|), m);
    assert Wrap(b', [Redirection(Span(x, x + |f|), m)]) == d;
  }

  /** A block with a symbol after it. */
  lemma {:induction false} BlockThen(buf: string, s: nat, c: Cmd<string>, x: char, rest: string) returns (d: Cmd<Span>)
    requires At(buf, s, "(" + Print(c) + ")" + ([x] + rest)) && x in "|;&" && Printable(c)
    requires Solid(buf, s + |Print(c)| + 3)
    ensures var p := s + |Print(c)| + 2;
            && ParseExec(buf, s) == Some((d, p)) && Tree(buf, d) == c && At(buf, p + 1, rest)
            && buf[p] == x && SkipWs(buf, p) == p && GetToken(buf, p) == Token(x, p, p + 1, p + 1)
    decreases c, 3
  {
    hide ParseExec, ParseLine;
    var block := "(" + Print(c) + ")";
    AtParts(buf, s, block, [x] + rest);
    var p := s + |block|;
    AtParts(buf, p, [x], rest);
    SymbolAt(buf, p, x);
    NoRedirs(buf, p);
    d := BlockTrip(buf, s, c, [], p);
  }

  /** A block with nothing after it. */
  lemma {:induction false} BlockLast(buf: string, s: nat, c: Cmd<string>) returns (d: Cmd<Span>)
    requires At(buf, s, "(" + Print(c) + ")") && Printable(c) && Stop(buf, s + |Print(c)| + 2)
    ensures ParseExec(buf, s) == Some((d, s + |Print(c)| + 2)) && Tree(buf, d) == c
    decreases c, 3
  {
    hide ParseExec, ParseLine;
    NoRedirs(buf, s + |Print(c)| + 2);
    d := BlockTrip(buf, s, c, [], s + |Print(c)| + 2);
  }

  lemma OpensSolid(buf: string, s: nat, t: string)
    requires At(buf, s, "(" + t)
    ensures Solid(buf, s)
  {
    assert buf[s] == buf[s..s + |"(" + t|][0];
  }

  lemma {:induction false} PipeTrip(buf: string, s: nat, l: Cmd<string>, r: Cmd<string>) returns (d: Cmd<Span>)
    requires At(buf, s, Print(Pipe(l, r))) && Printable(Pipe(l, r)) && Stop(buf, s + |Print(Pipe(l, r))|)
    ensures ParseLine(buf, s) == Some((d, s + |Print(Pipe(l, r))|)) && Tree(buf, d) == Pipe(l, r)
    decreases Pipe(l, r), 0
  {
    hide ParseExec, ParsePipe, ParseLine, GetToken, SkipWs, At;
    var right := "(" + Print(r) + ")";
    var l' := TwoBlocks(buf, s, l, '|', right, Print(Pipe(l, r)));
    var p := s + |Print(l)| + 2;
    var r' := BlockLast(buf, p + 1, r);
    LineEnd(buf, p + 1, r', p + 1 + |right|);
    d := Pipe(l', r');
    PipeLine(buf, s, l', p, r', p + 1 + |right|);
  }

  /** Two printed commands around one symbol. */
  lemma {:induction false} TwoBlocks(buf: string, s: nat, l: Cmd<string>, x: char, right: string, all: string)
    returns (d: Cmd<Span>)
    requires At(buf, s, all) && all == "(" + Print(l) + ")" + [x] + right && x in "|;" && Printable(l) && |right| > 0 &&
             right[0] == '('
    ensures var p := s + |Print(l)| + 2;
            && ParseExec(buf, s) == Some((d, p)) && Tree(buf, d) == l && At(buf, p + 1, right)
            && p < |buf| && buf[p] == x && SkipWs(buf, p) == p && GetToken(buf, p) == Token(x, p, p + 1, p + 1)
    decreases l, 4
  {
    hide ParseExec, ParseLine;
    assert all == "(" + Print(l) + ")" + ([x] + right);
    AtParts(buf, s, "(" + Print(l) + ")" + [x], right);
    OpensSolid(buf, s + |Print(l)| + 3, right[1..]);
    d := BlockThen(buf, s, l, x, right);
  }

  lemma PipeLine(buf: string, s: nat, l: Cmd<Span>, p: nat, r: Cmd<Span>, e: nat)
    requires s <= |buf| && p < |buf| && e <= |buf| && ParseExec(buf, s) == Some((l, p)) && buf[p] == '|' &&
             SkipWs(buf, p) == p
    requires GetToken(buf, p) == Token('|', p, p + 1, p + 1) && ParsePipe(buf, p + 1) == Some((r, e)) && Stop(buf, e)
    ensures ParseLine(buf, s) == Some((Pipe(l, r), e))
  {
    hide ParseExec, GetToken, SkipWs;
    SolidSkip(buf, e);
    assert ParsePipe(buf, s) == Some((Pipe(l, r), e));
    assert ParseBacks(buf, e, Pipe(l, r)) == (Pipe(l, r), e);
  }

  lemma {:induction false} ListTrip(buf: string, s: nat, l: Cmd<string>, r: Cmd<string>) returns (d: Cmd<Span>)
    requires At(buf, s, Print(List(l, r))) && Printable(List(l, r)) && Stop(buf, s + |Print(List(l, r))|)
    ensures ParseLine(buf, s) == Some((d, s + |Print(List(l, r))|)) && Tree(buf, d) == List(l, r)
    decreases List(l, r), 0
  {
    hide ParseExec, ParsePipe, ParseLine, GetToken, SkipWs, At;
    var right := "(" + Print(r) + ")";
    var l' := TwoBlocks(buf, s, l, ';', right, Print(List(l, r)));
    var p := s + |Print(l)| + 2;
    var r' := BlockLast(buf, p + 1, r);
    LineEnd(buf, p + 1, r', p + 1 + |right|);
    d := List(l', r');
    ListLine(buf, s, l', p, r', p + 1 + |right|);
  }

  lemma ListLine(buf: string, s: nat, l: Cmd<Span>, p: nat, r: Cmd<Span>, e: nat)
    requires s <= |buf| && p < |buf| && e <= |buf| && ParseExec(buf, s) == Some((l, p)) && buf[p] == ';' &&
             SkipWs(buf, p) == p
    requires GetToken(buf, p) == Token(';', p, p + 1, p + 1) && ParseLine(buf, p + 1) == Some((r, e))
    ensures ParseLine(buf, s) == Some((List(l, r), e))
  {
    hide ParseExec, GetToken, SkipWs;
    assert ParsePipe(buf, s) == Some((l, p));
    assert ParseBacks(buf, p, l) == (l, p);
  }

  lemma {:induction false} BackTrip(buf: string, s: nat, b: Cmd<string>) returns (d: Cmd<Span>)
    requires At(buf, s, Print(Back(b))) && Printable(Back(b)) && Stop(buf, s + |Print(Back(b))|)
    ensures ParseLine(buf, s) == Some((d, s + |Print(Back(b))|)) && Tree(buf, d) == Back(b)
    decreases Back(b), 0
  {
    hide ParseExec;
    assert Print(Back(b)) == "(" + Print(b) + ")" + (['&'] + "");
    var b' := BlockThen(buf, s, b, '&', "");
    var p := s + |Print(b)| + 2;
    d := Back(b');
    BackLine(buf, s, b', p);
  }

  lemma BackLine(buf: string, s: nat, b: Cmd<Span>, p: nat)
    requires s <= |buf| && p < |buf| && ParseExec(buf, s) == Some((b, p)) && buf[p] == '&' && SkipWs(buf, p) == p
    requires GetToken(buf, p) == Token('&', p, p + 1, p + 1) && Stop(buf, p + 1)
    ensures ParseLine(buf, s) == Some((Back(b), p + 1))
  {
    hide ParseExec, GetToken, SkipWs;
    SolidSkip(buf, p + 1);
    assert ParsePipe(buf, s) == Some((b, p));
    assert ParseBacks(buf, p + 1, Back(b)) == (Back(b), p + 1);
  }

  /** Parsing undoes printing. */
  lemma RoundTrip(c: Cmd<string>)
    requires Printable(c)
    ensures ParseCmd(Print(c)).Some? && Tree(Print(c), ParseCmd(Print(c)).value) == c
  {
    hide ParseLine, Print, Printable;
    var buf := Print(c);
    assert At(buf, 0, Print(c));
    var d := LineTrip(buf, 0, c);
  }

  /** No two trees print alike. */
  lemma PrintInjective(c: Cmd<string>, d: Cmd<string>)
    requires Printable(c) && Printable(d) && Print(c) == Print(d)
    ensures c == d
  {
    RoundTrip(c);
    RoundTrip(d);
  }
}
