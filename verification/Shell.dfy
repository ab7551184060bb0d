/** user/sh.c as code: a position moved through the line, and NULs written into it at the end. */
module ShellCode {
  import opened Base
  import opened ShellParser

  // ------------------------------------------------------------ words of a parse

  function Words(c: Cmd<Span>): set<Span> {
    match c
    case Exec(argv) => set w | w in argv
    case Redir(d, f, _) => Words(d) + {f}
    case Pipe(l, r) => Words(l) + Words(r)
    case List(l, r) => Words(l) + Words(r)
    case Back(d) => Words(d)
  }

  /** A maximal run of word characters. */
  predicate IsSpan(buf: string, w: Span) {
    && w.q < w.eq <= |buf|
    && (forall i :: w.q <= i < w.eq ==> IsWordChar(buf[i]))
    && (w.eq < |buf| ==> !IsWordChar(buf[w.eq]))
  }

  predicate SpansOk(buf: string, ws: set<Span>) {
    forall w :: w in ws ==> IsSpan(buf, w)
  }

  function Files(rs: seq<Redirection>): set<Span> {
    set r | r in rs :: r.file
  }

  function Members(ws: seq<Span>): set<Span> {
    set w | w in ws
  }

  lemma {:induction false} WrapWords(c: Cmd<Span>, rs: seq<Redirection>)
    ensures Words(Wrap(c, rs)) == Words(c) + Files(rs)
    decreases |rs|
  {
    if rs != [] {
      WrapWords(Redir(c, rs[0].file, rs[0].mode), rs[1..]);
      assert Files(rs) == {rs[0].file} + Files(rs[1..]) by {
        assert rs == [rs[0]] + rs[1..];
      }
    }
  }

  lemma FilesSum(a: seq<Redirection>, b: seq<Redirection>)
    ensures Files(a + b) == Files(a) + Files(b)
  {
  }

  lemma {:induction false} RedirsOk(buf: string, s: nat)
    requires s <= |buf|
    ensures var r := ParseRedirs(buf, s);
            r.Some? ==> SpansOk(buf, Files(r.value.0))
    decreases |buf| - s
  {
    if Peek(buf, s, "<>") {
      var t := GetToken(buf, s);
      var f := GetToken(buf, t.next);
      if f.kind == 'a' {
        RedirsOk(buf, f.next);
        if ParseRedirs(buf, f.next).Some? {
          var x, rs := Redirection(Span(f.q, f.eq), ModeOf(t.kind)), ParseRedirs(buf, f.next).value.0;
          FilesSum([x], rs);
          assert Files([x]) == {x.file};
        }
      }
    }
  }

  lemma {:induction false} ArgsOk(buf: string, s: nat, n: nat)
    requires s <= |buf|
    ensures var r := ParseArgs(buf, s, n);
            r.Some? ==> SpansOk(buf, Members(r.value.0)) && SpansOk(buf, Files(r.value.1))
    decreases |buf| - s
  {
    if !Peek(buf, s, "|)&;") {
      var t := GetToken(buf, s);
      if t.kind == 'a' && n + 1 < MAXARGS && ParseRedirs(buf, t.next).Some? {
        RedirsOk(buf, t.next);
        var (rs, e) := ParseRedirs(buf, t.next).value;
        ArgsOk(buf, e, n + 1);
        if ParseArgs(buf, e, n + 1).Some? {
          var (args, rs', e') := ParseArgs(buf, e, n + 1).value;
          FilesSum(rs, rs');
          var w := Span(t.q, t.eq);
          assert Members([w] + args) == {w} + Members(args);
        }
      }
    }
  }

  /** argv never overflows: fewer than MAXARGS arguments leave room for the final null. */
  lemma {:induction false} ArgCount(buf: string, s: nat, n: nat)
    requires s <= |buf| && n < MAXARGS
    ensures var r := ParseArgs(buf, s, n);
            r.Some? ==> n + |r.value.0| < MAXARGS
    decreases |buf| - s
  {
    hide ParseRedirs, SkipWs, GetToken;
    if !Peek(buf, s, "|)&;") {
      var t := GetToken(buf, s);
      if t.kind == 'a' && n + 1 < MAXARGS && ParseRedirs(buf, t.next).Some? {
        ArgCount(buf, ParseRedirs(buf, t.next).value.1, n + 1);
      }
    }
  }

  /** Every word of a parse is a maximal run of word characters of the line. */
  lemma {:induction false} ExecOk(buf: string, s: nat)
    requires s <= |buf|
    ensures var r := ParseExec(buf, s);
            r.Some? ==> SpansOk(buf, Words(r.value.0))
    decreases |buf| - s, 1
  {
    if Peek(buf, s, "(") {
      BlockOk(buf, SkipWs(buf, s));
    } else if ParseRedirs(buf, s).Some? {
      RedirsOk(buf, s);
      var (rs, e) := ParseRedirs(buf, s).value;
      ArgsOk(buf, e, 0);
      if ParseArgs(buf, e, 0).Some? {
        var (args, rs', e') := ParseArgs(buf, e, 0).value;
        WrapWords(Exec(args), rs + rs');
        FilesSum(rs, rs');
      }
    }
  }

  lemma {:induction false} BlockOk(buf: string, s: nat)
    requires s <= |buf| && Peek(buf, s, "(")
    ensures var r := ParseBlock(buf, s);
            r.Some? ==> SpansOk(buf, Words(r.value.0))
    decreases |buf| - s, 0
  {
    var next := GetToken(buf, s).next;
    LineOk(buf, next);
    if ParseLine(buf, next).Some? {
      var (c, e) := ParseLine(buf, next).value;
      if Peek(buf, e, ")") && ParseRedirs(buf, GetToken(buf, e).next).Some? {
        RedirsOk(buf, GetToken(buf, e).next);
        WrapWords(c, ParseRedirs(buf, GetToken(buf, e).next).value.0);
      }
    }
  }

  lemma {:induction false} PipeOk(buf: string, s: nat)
    requires s <= |buf|
    ensures var r := ParsePipe(buf, s);
            r.Some? ==> SpansOk(buf, Words(r.value.0))
    decreases |buf| - s, 2
  {
    hide ParseExec, GetToken, Peek, IsSpan;
    ExecOk(buf, s);
    if ParseExec(buf, s).Some? {
      var (c, e) := ParseExec(buf, s).value;
      if Peek(buf, e, "|") {
        TokenMoves(buf, e, "|");
        PipeOk(buf, GetToken(buf, e).next);
      }
    }
  }

  lemma TokenMoves(buf: string, s: nat, toks: string)
    requires s <= |buf| && Peek(buf, s, toks)
    ensures GetToken(buf, s).next > s
  {
  }

  lemma {:induction false} BacksWords(buf: string, s: nat, c: Cmd<Span>)
    requires s <= |buf|
    ensures Words(ParseBacks(buf, s, c).0) == Words(c)
    decreases |buf| - s
  {
    if Peek(buf, s, "&") { BacksWords(buf, GetToken(buf, s).next, Back(c)); }
  }

  lemma {:induction false} LineOk(buf: string, s: nat)
    requires s <= |buf|
    ensures var r := ParseLine(buf, s);
            r.Some? ==> SpansOk(buf, Words(r.value.0))
    decreases |buf| - s, 3
  {
    PipeOk(buf, s);
    if ParsePipe(buf, s).Some? {
      var (c, e) := ParsePipe(buf, s).value;
      BacksWords(buf, e, c);
      var (c1, e1) := ParseBacks(buf, e, c);
      if Peek(buf, e1, ";") { LineOk(buf, GetToken(buf, e1).next); }
    }
  }

  // ------------------------------------------------------------ NUL termination

  function Ends(ws: set<Span>): set<nat> {
    set w | w in ws :: w.eq
  }

  /** The line with a NUL at each of the positions `ends`. */
  function Zeroed(buf: string, ends: set<nat>): string {
    seq(|buf|, i requires 0 <= i < |buf| => if i in ends then '\0' else buf[i])
  }

  /** The C string that starts at position `q`. */
  function CString(buf: string, q: nat): string
    requires q <= |buf|
    decreases |buf| - q
  {
    if q == |buf| || buf[q] == '\0' then "" else [buf[q]] + CString(buf, q + 1)
  }

  lemma {:induction false} CStringIs(buf: string, q: nat, e: nat)
    requires q <= e <= |buf| && (forall i :: q <= i < e ==> buf[i] != '\0') && (e == |buf| || buf[e] == '\0')
    ensures CString(buf, q) == buf[q..e]
    decreases e - q
  {
    if q < e {
      CStringIs(buf, q + 1, e);
      assert buf[q..e] == [buf[q]] + buf[q + 1..e];
    }
  }

  predicate NulFree(buf: string) {
    forall i :: 0 <= i < |buf| ==> buf[i] != '\0'
  }

  /** After nulterminate every word of the command reads as its exact text. */
  lemma WordsIntact(buf: string, ws: set<Span>, w: Span)
    requires NulFree(buf) && SpansOk(buf, ws) && w in ws
    ensures w.q <= |buf| && CString(Zeroed(buf, Ends(ws)), w.q) == Text(buf, w)
  {
    var z := Zeroed(buf, Ends(ws));
    assert IsSpan(buf, w);
    forall i | w.q <= i < w.eq ensures z[i] == buf[i] {
      forall v | v in ws ensures v.eq != i {
        assert IsSpan(buf, v);
      }
    }
    assert w.eq in Ends(ws);
    CStringIs(z, w.q, w.eq);
    assert z[w.q..w.eq] == buf[w.q..w.eq];
  }

  lemma ParsedWordsIntact(buf: string, w: Span)
    requires NulFree(buf) && ParseCmd(buf).Some? && w in Words(ParseCmd(buf).value)
    ensures w.q <= |buf| && CString(Zeroed(buf, Ends(Words(ParseCmd(buf).value))), w.q) == Text(buf, w)
  {
    hide ParseLine, SkipWs, Text;
    LineOk(buf, 0);
    WordsIntact(buf, Words(ParseCmd(buf).value), w);
  }

  // ------------------------------------------------------------ the parser as code

  lemma {:induction false} SkipTwice(buf: string, s: nat)
    requires s <= |buf|
    ensures SkipWs(buf, SkipWs(buf, s)) == SkipWs(buf, s)
    decreases |buf| - s
  {
    if s < |buf| && IsWs(buf[s]) { SkipTwice(buf, s + 1); }
  }

  /** Skipping white space first changes no token and no parse. */
  lemma Skipped(buf: string, s: nat)
    requires s <= |buf|
    ensures var p := SkipWs(buf, s);
            && SkipWs(buf, p) == p && GetToken(buf, p) == GetToken(buf, s) && ParseRedirs(buf, p) == ParseRedirs(buf, s)
            && (forall n :: ParseArgs(buf, p, n) == ParseArgs(buf, s, n)) &&
               (forall t :: Peek(buf, p, t) == Peek(buf, s, t))
            && (forall c :: ParseBacks(buf, p, c) == ParseBacks(buf, s, c))
  {
    hide ParseLine, ParseExec;
    SkipTwice(buf, s);
  }

  class Line {
    var buf: string
    var s: nat

    ghost predicate Valid()
      reads this
    {
      s <= |buf|
    }

    /** The loops over white space. */
    method Skip()
      requires Valid()
      modifies this`s
      ensures Valid() && s == SkipWs(buf, old(s))
    {
      while s < |buf| && IsWs(buf[s])
        invariant s <= |buf| && SkipWs(buf, s) == SkipWs(buf, old(s))
      {
        s := s + 1;
      }
    }

    method PeekAt(toks: string) returns (r: bool)
      requires Valid()
      modifies this`s
      ensures Valid() && s == SkipWs(buf, old(s)) && r == Peek(buf, old(s), toks)
    {
      Skip();
      return s < |buf| && buf[s] in toks;
    }

    /** gettoken: the kind and the span of the next token. */
    method Next() returns (kind: char, q: nat, eq: nat)
      requires Valid()
      modifies this`s
      ensures Valid() && GetToken(buf, old(s)) == Token(kind, q, eq, s)
    {
      hide SkipWs, IsWs;
      Skip();
      q := s;
      if s == |buf| {
        kind := '\0';
      } else if buf[s] == '|' || buf[s] == '(' || buf[s] == ')' || buf[s] == ';' || buf[s] == '&' || buf[s] == '<' {
        kind := buf[s];
        s := s + 1;
      } else if buf[s] == '>' {
        kind := '>';
        s := s + 1;
        if s < |buf| && buf[s] == '>' {
          kind := '+';
          s := s + 1;
        }
      } else {
        kind := 'a';
        while s < |buf| && !IsWs(buf[s]) && !IsSymbol(buf[s])
          invariant q <= s <= |buf| && WordEnd(buf, s) == WordEnd(buf, q)
        {
          s := s + 1;
        }
      }
      eq := s;
      Skip();
    }

    /** parseredirs. */
    method Redirs(cmd: Cmd<Span>) returns (r: Option<Cmd<Span>>)
      requires Valid()
      modifies this`s
      ensures Valid() && old(s) <= s && Gives(RedirResult(buf, old(s), cmd), r, s)
    {
      hide GetToken, SkipWs, RedirResult, Peek;
      var c := cmd;
      Skipped(buf, s);
      SkippedRedirs(buf, s, c);
      var more := PeekAt("<>");
      while more
        invariant Valid() && old(s) <= s == SkipWs(buf, s) && more == Peek(buf, s, "<>")
        invariant RedirResult(buf, s, c) == RedirResult(buf, old(s), cmd)
        decreases |buf| - s
      {
        RedirStep(buf, s, c);
        var tok, _, _ := Next();
        var kind, q, eq := Next();
        if kind != 'a' {
          return None;
        }
        c := Redir(c, Span(q, eq), if tok == '<' then Read else if tok == '>' then Write else Append);
        Skipped(buf, s);
        SkippedRedirs(buf, s, c);
        more := PeekAt("<>");
      }
      RedirDone(buf, s, c);
      r := Some(c);
    }

    /** parseexec. The arguments are stored in the execcmd below the redirections. */
    method ExecOrBlock() returns (r: Option<Cmd<Span>>)
      requires Valid()
      modifies this`s
      ensures Valid() && Gives(ParseExec(buf, old(s)), r, s)
      decreases |buf| - s, 1
    {
      hide GetToken, SkipWs, ParseExec, ParseBlock, RedirResult, ArgsResult, Peek;
      Skipped(buf, s);
      SkippedExec(buf, s);
      var block := PeekAt("(");
      if block {
        r := Block();
        return;
      }
      ExecStart(buf, s);
      r := Redirs(Exec([]));
      if r.None? {
        return;
      }
      var args: seq<Span> := [];
      Skipped(buf, s);
      SkippedArgs(buf, s, args, r.value);
      var end := PeekAt("|)&;");
      while !end
        invariant Valid() && r.Some? && s == SkipWs(buf, s) && end == Peek(buf, s, "|)&;") && |args| < MAXARGS
        invariant ArgsResult(buf, s, args, r.value) == ParseExec(buf, old(s))
        decreases |buf| - s
      {
        ArgStep(buf, s, args, r.value);
        var kind, q, eq := Next();
        if kind == '\0' {
          return Some(Fill(r.value, args));
        }
        if kind != 'a' {
          return None;
        }
        args := args + [Span(q, eq)];
        if |args| >= MAXARGS {
          return None;
        }
        r := Redirs(r.value);
        if r.None? {
          return;
        }
        Skipped(buf, s);
        SkippedArgs(buf, s, args, r.value);
        end := PeekAt("|)&;");
      }
      ArgDone(buf, s, args, r.value);
      r := Some(Fill(r.value, args));
    }

    /** parseblock. */
    method Block() returns (r: Option<Cmd<Span>>)
      requires Valid() && Peek(buf, s, "(")
      modifies this`s
      ensures Valid() && Gives(ParseBlock(buf, old(s)), r, s)
      decreases |buf| - s, 0
    {
      hide GetToken, SkipWs, ParseLine, ParseExec, Wrap;
      PeekMoves(buf, s, "(");
      var _, _, _ := Next();
      r := WholeLine();
      if r.None? {
        return;
      }
      Skipped(buf, s);
      var close := PeekAt(")");
      if !close {
        return None;
      }
      var _, _, _ := Next();
      r := Redirs(r.value);
    }

    /** parsepipe. */
    method Pipes() returns (r: Option<Cmd<Span>>)
      requires Valid()
      modifies this`s
      ensures Valid() && Gives(ParsePipe(buf, old(s)), r, s)
      decreases |buf| - s, 2
    {
      hide GetToken, SkipWs, ParseExec;
      r := ExecOrBlock();
      if r.None? {
        return;
      }
      Skipped(buf, s);
      PeekMoves(buf, s, "|");
      var more := PeekAt("|");
      if more {
        var left := r.value;
        var _, _, _ := Next();
        r := Pipes();
        if r.Some? {
          r := Some(Pipe(left, r.value));
        }
      }
    }

    /** parseline. */
    method WholeLine() returns (r: Option<Cmd<Span>>)
      requires Valid()
      modifies this`s
      ensures Valid() && Gives(ParseLine(buf, old(s)), r, s)
      decreases |buf| - s, 3
    {
      hide GetToken, SkipWs, ParsePipe, ParseExec;
      r := Pipes();
      if r.None? {
        return;
      }
      ghost var s0, c0 := s, r.value;
      Skipped(buf, s);
      var more := PeekAt("&");
      while more
        invariant Valid() && r.Some? && s0 <= s == SkipWs(buf, s) && more == Peek(buf, s, "&")
        invariant ParseBacks(buf, s, r.value) == ParseBacks(buf, s0, c0)
        decreases |buf| - s
      {
        PeekMoves(buf, s, "&");
        var _, _, _ := Next();
        r := Some(Back(r.value));
        Skipped(buf, s);
        more := PeekAt("&");
      }
      assert ParseBacks(buf, s0, c0) == (r.value, s);
      PeekMoves(buf, s, ";");
      more := PeekAt(";");
      if more {
        var left := r.value;
        var _, _, _ := Next();
        r := WholeLine();
        if r.Some? {
          r := Some(List(left, r.value));
        }
      }
    }

    /** nulterminate: exactly the characters after the words become NUL. */
    method NulTerminate(c: Cmd<Span>)
      requires forall w :: w in Words(c) ==> w.eq <= |buf|
      modifies this`buf
      ensures buf == Zeroed(old(buf), Ends(Words(c)))
      decreases c
    {
      match c
      case Exec(argv) =>
        var i := 0;
        while i < |argv|
          invariant i <= |argv| && |buf| == |old(buf)| && buf == Zeroed(old(buf), Ends(Members(argv[..i])))
        {
          assert argv[i] in Words(c);
          ghost var b0 := buf;
          PutNul(argv[i].eq);
          ZeroMore(old(buf), Members(argv[..i]), argv[i]);
          assert Members(argv[..i + 1]) == Members(argv[..i]) + {argv[i]};
          i := i + 1;
        }
        assert argv[..|argv|] == argv;
      case Redir(d, f, _) =>
        NulTerminate(d);
        PutNul(f.eq);
        ZeroMore(old(buf), Words(d), f);
      case Pipe(l, r) =>
        NulTerminate(l);
        NulTerminate(r);
        ZeroBoth(old(buf), Words(l), Words(r));
      case List(l, r) =>
        NulTerminate(l);
        NulTerminate(r);
        ZeroBoth(old(buf), Words(l), Words(r));
      case Back(d) =>
        NulTerminate(d);
    }

    /** *p = 0; at the end of the line there is a NUL already. */
    method PutNul(p: nat)
      requires p <= |buf|
      modifies this`buf
      ensures buf == Zeroed(old(buf), {p})
    {
      if p < |buf| {
        buf := buf[p := '\0'];
      }
    }

    /** parsecmd, up to the special case for cd: a parsed line with its words terminated. */
    method Parsecmd() returns (r: Option<Cmd<Span>>)
      requires s == 0 && NulFree(buf)
      modifies this
      ensures r == ParseCmd(old(buf))
      ensures r.Some? ==>
                |buf| == |old(buf)| &&
                forall w :: w in Words(r.value) ==> w.q <= |buf| && CString(buf, w.q) == Text(old(buf), w)
      ensures r.None? ==> buf == old(buf)
    {
      hide SkipWs, GetToken, ParseLine, Text;
      r := WholeLine();
      if r.None? {
        return;
      }
      var _ := PeekAt("");
      if s != |buf| {
        return None;
      }
      LineOk(buf, 0);
      NulTerminate(r.value);
      forall w | w in Words(r.value) ensures w.q <= |old(buf)| && CString(buf, w.q) == Text(old(buf), w) {
        WordsIntact(old(buf), Words(r.value), w);
      }
    }
  }

  lemma ZeroMore(buf: string, ws: set<Span>, w: Span)
    ensures Zeroed(Zeroed(buf, Ends(ws)), {w.eq}) == Zeroed(buf, Ends(ws + {w}))
  {
    assert Ends(ws + {w}) == Ends(ws) + {w.eq};
  }

  lemma ZeroBoth(buf: string, a: set<Span>, b: set<Span>)
    ensures Zeroed(Zeroed(buf, Ends(a)), Ends(b)) == Zeroed(buf, Ends(a + b))
  {
    assert Ends(a + b) == Ends(a) + Ends(b);
  }

  /** A peek that succeeds has a character to consume. */
  lemma PeekMoves(buf: string, s: nat, toks: string)
    requires s <= |buf|
    ensures Peek(buf, s, toks) ==> GetToken(buf, s).next > s
  {
  }

  // ------------------------------------------------------------ parseexec's loop

  /** Arguments stored in the execcmd at the bottom of a chain of redirections. */
  function Fill(c: Cmd<Span>, args: seq<Span>): Cmd<Span> {
    match c
    case Exec(_) => Exec(args)
    case Redir(d, f, m) => Redir(Fill(d, args), f, m)
    case _ => c
  }

  lemma {:induction false} FillWrap(c: Cmd<Span>, rs: seq<Redirection>, args: seq<Span>)
    ensures Fill(Wrap(c, rs), args) == Wrap(Fill(c, args), rs)
    decreases |rs|
  {
    if rs != [] { FillWrap(Redir(c, rs[0].file, rs[0].mode), rs[1..], args); }
  }

  lemma {:induction false} WrapTwice(c: Cmd<Span>, a: seq<Redirection>, b: seq<Redirection>)
    ensures Wrap(Wrap(c, a), b) == Wrap(c, a + b)
    decreases |a|
  {
    if a == [] {
      assert a + b == b;
    } else {
      WrapTwice(Redir(c, a[0].file, a[0].mode), a[1..], b);
      assert (a + b)[1..] == a[1..] + b;
    }
  }

  /** The rest of the argument loop, from arguments and redirections gathered so far. */
  function ArgsResult(buf: string, s: nat, args: seq<Span>, ret: Cmd<Span>): Option<(Cmd<Span>, nat)>
    requires s <= |buf|
  {
    match ParseArgs(buf, s, |args|)
    case None => None
    case Some((a, rs, e)) => Some((Fill(Wrap(ret, rs), args + a), e))
  }

  lemma SkippedArgs(buf: string, s: nat, args: seq<Span>, ret: Cmd<Span>)
    requires s <= |buf|
    ensures ArgsResult(buf, SkipWs(buf, s), args, ret) == ArgsResult(buf, s, args, ret)
  {
    Skipped(buf, s);
  }

  lemma SkippedExec(buf: string, s: nat)
    requires s <= |buf|
    ensures ParseExec(buf, SkipWs(buf, s)) == ParseExec(buf, s)
    ensures Peek(buf, s, "(") ==> ParseExec(buf, s) == ParseBlock(buf, SkipWs(buf, s))
  {
    hide ParseBlock, ParseArgs, ParseRedirs;
    Skipped(buf, s);
  }

  lemma ExecStart(buf: string, s: nat)
    requires s <= |buf| && !Peek(buf, s, "(")
    ensures match RedirResult(buf, s, Exec([]))
            case None => ParseExec(buf, s) == None
            case Some((c, e)) => ParseExec(buf, s) == ArgsResult(buf, e, [], c)
  {
    hide ParseBlock, ParseArgs, ParseRedirs, Wrap, Fill;
    if ParseRedirs(buf, s).Some? {
      var (rs, e) := ParseRedirs(buf, s).value;
      if ParseArgs(buf, e, 0).Some? {
        var (a, rs', e') := ParseArgs(buf, e, 0).value;
        WrapTwice(Exec([]), rs, rs');
        FillWrap(Exec([]), rs + rs', [] + a);
        FillExec(a);
      }
    }
  }

  lemma FillExec(a: seq<Span>)
    ensures Fill(Exec([]), [] + a) == Exec(a)
  {
    assert [] + a == a;
  }

  lemma ArgDone(buf: string, s: nat, args: seq<Span>, ret: Cmd<Span>)
    requires s <= |buf| && Peek(buf, s, "|)&;") && SkipWs(buf, s) == s
    ensures ArgsResult(buf, s, args, ret) == Some((Fill(ret, args), s))
  {
    assert args + [] == args;
  }

  /** One round of the loop, by the token it reads. */
  lemma ArgStep(buf: string, s: nat, args: seq<Span>, ret: Cmd<Span>)
    requires s <= |buf| && !Peek(buf, s, "|)&;")
    ensures var t := GetToken(buf, s);
            && (t.kind == '\0' ==> ArgsResult(buf, s, args, ret) == Some((Fill(ret, args), t.next)))
            && (t.kind != '\0' && (t.kind != 'a' || |args| + 1 >= MAXARGS) ==> ArgsResult(buf, s, args, ret) == None)
            && (t.kind == 'a' && |args| + 1 < MAXARGS ==> t.next > s && ArgWord(buf, s, t, args, ret))
  {
    hide ParseRedirs, Wrap, Fill, SkipWs, ArgWord;
    var t := GetToken(buf, s);
    if t.kind == '\0' {
      assert args + [] == args;
      WrapNone(ret);
    }
    if t.kind == 'a' && |args| + 1 < MAXARGS { ArgWordOk(buf, s, t, args, ret); }
  }

  /** A word: redirections after it, and the rest of the loop with one argument more. */
  predicate ArgWord(buf: string, s: nat, t: Token, args: seq<Span>, ret: Cmd<Span>)
    requires s <= |buf| && t.next <= |buf|
  {
    match RedirResult(buf, t.next, ret)
    case None => ArgsResult(buf, s, args, ret) == None
    case Some((c, e)) => ArgsResult(buf, s, args, ret) == ArgsResult(buf, e, args + [Span(t.q, t.eq)], c)
  }

  lemma ArgWordOk(buf: string, s: nat, t: Token, args: seq<Span>, ret: Cmd<Span>)
    requires s <= |buf| && !Peek(buf, s, "|)&;") && t == GetToken(buf, s) && t.kind == 'a' && |args| + 1 < MAXARGS
    ensures ArgWord(buf, s, t, args, ret)
  {
    hide ParseRedirs, Wrap, Fill, SkipWs, GetToken, Peek;
    if ParseRedirs(buf, t.next).Some? {
      var (rs, e) := ParseRedirs(buf, t.next).value;
      var w := Span(t.q, t.eq);
      if ParseArgs(buf, e, |args| + 1).Some? {
        var (a, rs', e') := ParseArgs(buf, e, |args| + 1).value;
        WrapTwice(ret, rs, rs');
        assert args + ([w] + a) == args + [w] + a;
      }
    }
  }

  lemma WrapNone(c: Cmd<Span>)
    ensures Wrap(c, []) == c
  {
  }

  /** What a parser returns and where it leaves the position; after a panic neither matters. */
  predicate Gives(want: Option<(Cmd<Span>, nat)>, r: Option<Cmd<Span>>, s: nat) {
    match want case None => r == None case Some((c, e)) => r == Some(c) && s == e
  }

  function RedirResult(buf: string, s: nat, c: Cmd<Span>): Option<(Cmd<Span>, nat)>
    requires s <= |buf|
  {
    match ParseRedirs(buf, s) case None => None case Some((rs, e)) => Some((Wrap(c, rs), e))
  }

  lemma SkippedRedirs(buf: string, s: nat, c: Cmd<Span>)
    requires s <= |buf|
    ensures RedirResult(buf, SkipWs(buf, s), c) == RedirResult(buf, s, c)
  {
    Skipped(buf, s);
  }

  lemma RedirDone(buf: string, s: nat, c: Cmd<Span>)
    requires s <= |buf| && !Peek(buf, s, "<>") && SkipWs(buf, s) == s
    ensures RedirResult(buf, s, c) == Some((c, s))
  {
  }

  lemma RedirStep(buf: string, s: nat, c: Cmd<Span>)
    requires s <= |buf| && Peek(buf, s, "<>")
    ensures var t := GetToken(buf, s);
            var f := GetToken(buf, t.next);
            && t.kind in "<>+" && f.next > s
            && RedirResult(buf, s, c) ==
               if f.kind != 'a' then None else RedirResult(buf, f.next, Redir(c, Span(f.q, f.eq), ModeOf(t.kind)))
  {
    var t := GetToken(buf, s);
    var f := GetToken(buf, t.next);
    if f.kind == 'a' && ParseRedirs(buf, f.next).Some? {
      var rs := ParseRedirs(buf, f.next).value.0;
      var x := Redirection(Span(f.q, f.eq), ModeOf(t.kind));
      assert ([x] + rs)[1..] == rs;
    }
  }
}
