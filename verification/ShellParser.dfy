/** user/sh.c: the shell's tokeniser and parsers, as functions of the line and a position. A
    panic of the parser is None. The NUL that ends the line is its end. */
module ShellParser {
  import opened Base

  const MAXARGS: nat := 10

  datatype Mode = Read | Write | Append

  /** A parsed command; words are strings in a tree and spans of the line in a parse. */
  datatype Cmd<W> =
    | Exec(argv: seq<W>)
    | Redir(cmd: Cmd<W>, file: W, mode: Mode)
    | Pipe(left: Cmd<W>, right: Cmd<W>)
    | List(left: Cmd<W>, right: Cmd<W>)
    | Back(cmd: Cmd<W>)

  datatype Span = Span(q: nat, eq: nat)
  datatype Redirection = Redirection(file: Span, mode: Mode)

  predicate IsWs(c: char) {
    c == ' ' || c == '\t' || c == '\r' || c == '\n' || c == '\U{b}'
  }

  predicate IsSymbol(c: char) {
    c == '<' || c == '|' || c == '>' || c == '&' || c == ';' || c == '(' || c == ')'
  }

  predicate IsWordChar(c: char) {
    !IsWs(c) && !IsSymbol(c)
  }

  // ------------------------------------------------------------ tokens

  function SkipWs(buf: string, s: nat): (r: nat)
    requires s <= |buf|
    ensures s <= r <= |buf| && (r < |buf| ==> !IsWs(buf[r]))
    decreases |buf| - s
  {
    if s < |buf| && IsWs(buf[s]) then SkipWs(buf, s + 1) else s
  }

  function WordEnd(buf: string, s: nat): (r: nat)
    requires s <= |buf|
    ensures s <= r <= |buf| && (r < |buf| ==> !IsWordChar(buf[r]))
    ensures forall i :: s <= i < r ==> IsWordChar(buf[i])
    decreases |buf| - s
  {
    if s < |buf| && IsWordChar(buf[s]) then WordEnd(buf, s + 1) else s
  }

  /** A token's kind ('\0' at the end, 'a' for a word, '+' for >>), its span, and where the scan
      goes on. */
  datatype Token = Token(kind: char, q: nat, eq: nat, next: nat)

  function GetToken(buf: string, s: nat): (t: Token)
    requires s <= |buf|
    ensures s <= t.q <= t.eq <= t.next <= |buf|
    ensures t.kind != '\0' ==> t.q < t.eq
    ensures t.kind == 'a' ==>
              (forall i :: t.q <= i < t.eq ==> IsWordChar(buf[i])) && (t.eq < |buf| ==> !IsWordChar(buf[t.eq]))
  {
    var q := SkipWs(buf, s);
    if q == |buf| then Token('\0', q, q, q)
    else if buf[q] == '>' then
      if q + 1 < |buf| && buf[q + 1] == '>' then Token('+', q, q + 2, SkipWs(buf, q + 2))
        else Token('>', q, q + 1, SkipWs(buf, q + 1))
    else if IsSymbol(buf[q]) then Token(buf[q], q, q + 1, SkipWs(buf, q + 1))
    else
      var e := WordEnd(buf, q);
      Token('a', q, e, SkipWs(buf, e))
  }

  /** peek: is the next character one of `toks`? */
  predicate Peek(buf: string, s: nat, toks: string)
    requires s <= |buf|
  {
    SkipWs(buf, s) < |buf| && buf[SkipWs(buf, s)] in toks
  }

  // ------------------------------------------------------------ parsers

  function ModeOf(kind: char): Mode {
    if kind == '<' then Read else if kind == '>' then Write else Append
  }

  function Wrap(c: Cmd<Span>, rs: seq<Redirection>): Cmd<Span>
    decreases |rs|
  {
    if rs == [] then c else Wrap(Redir(c, rs[0].file, rs[0].mode), rs[1..])
  }

  function ParseRedirs(buf: string, s: nat): (r: Option<(seq<Redirection>, nat)>)
    requires s <= |buf|
    ensures r.Some? ==> s <= r.value.1 <= |buf|
    decreases |buf| - s
  {
    if !Peek(buf, s, "<>") then Some(([], SkipWs(buf, s)))
    else
      var t := GetToken(buf, s);
      var f := GetToken(buf, t.next);
      if f.kind != 'a' then None
      else
        match ParseRedirs(buf, f.next)
        case None => None
        case Some((rs, e)) => Some(([Redirection(Span(f.q, f.eq), ModeOf(t.kind))] + rs, e))
  }

  /** The argument loop of parseexec, after `n` arguments. */
  function ParseArgs(buf: string, s: nat, n: nat): (r: Option<(seq<Span>, seq<Redirection>, nat)>)
    requires s <= |buf|
    ensures r.Some? ==> s <= r.value.2 <= |buf|
    decreases |buf| - s
  {
    if Peek(buf, s, "|)&;") then Some(([], [], SkipWs(buf, s)))
    else
      var t := GetToken(buf, s);
      if t.kind == '\0' then Some(([], [], t.next))
      else if t.kind != 'a' || n + 1 >= MAXARGS then None
      else
        match ParseRedirs(buf, t.next)
        case None => None
        case Some((rs, e)) =>
          match ParseArgs(buf, e, n + 1)
          case None => None
          case Some((args, rs', e')) => Some(([Span(t.q, t.eq)] + args, rs + rs', e'))
  }

  function ParseExec(buf: string, s: nat): (r: Option<(Cmd<Span>, nat)>)
    requires s <= |buf|
    ensures r.Some? ==> s <= r.value.1 <= |buf|
    decreases |buf| - s, 1
  {
    if Peek(buf, s, "(") then ParseBlock(buf, SkipWs(buf, s))
    else
      match ParseRedirs(buf, s)
      case None => None
      case Some((rs, e)) =>
        match ParseArgs(buf, e, 0)
        case None => None
        case Some((args, rs', e')) => Some((Wrap(Exec(args), rs + rs'), e'))
  }

  function ParseBlock(buf: string, s: nat): (r: Option<(Cmd<Span>, nat)>)
    requires s <= |buf| && Peek(buf, s, "(")
    ensures r.Some? ==> s <= r.value.1 <= |buf|
    decreases |buf| - s, 0
  {
    match ParseLine(buf, GetToken(buf, s).next)
    case None => None
    case Some((c, e)) =>
      if !Peek(buf, e, ")") then None
      else
        match ParseRedirs(buf, GetToken(buf, e).next)
        case None => None
        case Some((rs, e')) => Some((Wrap(c, rs), e'))
  }

  function ParsePipe(buf: string, s: nat): (r: Option<(Cmd<Span>, nat)>)
    requires s <= |buf|
    ensures r.Some? ==> s <= r.value.1 <= |buf|
    decreases |buf| - s, 2
  {
    match ParseExec(buf, s)
    case None => None
    case Some((c, e)) =>
      if !Peek(buf, e, "|") then Some((c, SkipWs(buf, e)))
      else
        match ParsePipe(buf, GetToken(buf, e).next)
        case None => None
        case Some((c', e')) => Some((Pipe(c, c'), e'))
  }

  /** The '&' loop of parseline. */
  function ParseBacks(buf: string, s: nat, c: Cmd<Span>): (r: (Cmd<Span>, nat))
    requires s <= |buf|
    ensures s <= r.1 <= |buf|
    decreases |buf| - s
  {
    if Peek(buf, s, "&") then ParseBacks(buf, GetToken(buf, s).next, Back(c)) else (c, SkipWs(buf, s))
  }

  function ParseLine(buf: string, s: nat): (r: Option<(Cmd<Span>, nat)>)
    requires s <= |buf|
    ensures r.Some? ==> s <= r.value.1 <= |buf|
    decreases |buf| - s, 3
  {
    match ParsePipe(buf, s)
    case None => None
    case Some((c, e)) =>
      var (c1, e1) := ParseBacks(buf, e, c);
      if !Peek(buf, e1, ";") then Some((c1, SkipWs(buf, e1)))
      else
        match ParseLine(buf, GetToken(buf, e1).next)
        case None => None
        case Some((c', e')) => Some((List(c1, c'), e'))
  }

  /** parsecmd: a line parsed to its end. */
  function ParseCmd(buf: string): Option<Cmd<Span>> {
    match ParseLine(buf, 0)
    case None => None
    case Some((c, e)) => if SkipWs(buf, e) == |buf| then Some(c) else None
  }

  // ------------------------------------------------------------ trees

  function Text(buf: string, w: Span): string {
    if w.q <= w.eq <= |buf| then buf[w.q..w.eq] else ""
  }

  function Texts(buf: string, ws: seq<Span>): (r: seq<string>)
    ensures |r| == |ws| && forall i :: 0 <= i < |ws| ==> r[i] == Text(buf, ws[i])
  {
    if ws == [] then [] else [Text(buf, ws[0])] + Texts(buf, ws[1..])
  }

  /** The tree that a parse stands for. */
  function Tree(buf: string, c: Cmd<Span>): Cmd<string> {
    match c
    case Exec(argv) => Exec(Texts(buf, argv))
    case Redir(d, f, m) => Redir(Tree(buf, d), Text(buf, f), m)
    case Pipe(l, r) => Pipe(Tree(buf, l), Tree(buf, r))
    case List(l, r) => List(Tree(buf, l), Tree(buf, r))
    case Back(d) => Back(Tree(buf, d))
  }

  predicate IsWord(w: string) {
    w != "" && forall i :: 0 <= i < |w| ==> IsWordChar(w[i])
  }

  /** Non-empty words without white space and symbols, and fewer than MAXARGS of them. */
  predicate Printable(c: Cmd<string>) {
    match c
    case Exec(argv) => |argv| < MAXARGS && forall i :: 0 <= i < |argv| ==> IsWord(argv[i])
    case Redir(d, f, _) => Printable(d) && IsWord(f)
    case Pipe(l, r) => Printable(l) && Printable(r)
    case List(l, r) => Printable(l) && Printable(r)
    case Back(d) => Printable(d)
  }

  function Join(ws: seq<string>): string {
    if |ws| == 0 then "" else if |ws| == 1 then ws[0] else ws[0] + " " + Join(ws[1..])
  }

  function Op(m: Mode): string {
    match m case Read => "<" case Write => ">" case Append => ">>"
  }

  /** The fully parenthesised text of a tree. */
  function Print(c: Cmd<string>): string {
    match c
    case Exec(argv) => Join(argv)
    case Redir(d, f, m) => "(" + Print(d) + ")" + Op(m) + f
    case Pipe(l, r) => "(" + Print(l) + ")|(" + Print(r) + ")"
    case List(l, r) => "(" + Print(l) + ");(" + Print(r) + ")"
    case Back(d) => "(" + Print(d) + ")&"
  }
}
