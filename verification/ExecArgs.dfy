/** kernel/exec.c: the arguments on the stack of a new program. */
module ExecArgs {
  import opened Base

  type Bytes = seq<byte>

  const MAXARG: nat := 32

  /** A string as sys_exec passes it: fetched into one page, the NUL not counted. */
  predicate IsArg(s: Bytes) {
    |s| < 4096 && forall i :: 0 <= i < |s| ==> s[i] != 0
  }

  // ------------------------------------------------------------ the space it takes

  function Up16(n: nat): nat {
    (n + 15) / 16 * 16
  }

  /** What the strings take, each rounded up. */
  function Need(args: seq<Bytes>): nat {
    if args == [] then 0 else Need(args[..|args| - 1]) + Up16(|args[|args| - 1]| + 1)
  }

  /** With the array of addresses. */
  function NeedAll(args: seq<Bytes>): nat {
    Need(args) + Up16(8 * (|args| + 1))
  }

  lemma NeedNext(args: seq<Bytes>, k: nat)
    requires k < |args|
    ensures Need(args[..k + 1]) == Need(args[..k]) + Up16(|args[k]| + 1)
  {
    assert args[..k + 1][..k] == args[..k];
  }

  lemma {:induction false} NeedGrows(args: seq<Bytes>, k: nat)
    requires k <= |args|
    ensures Need(args[..k]) <= Need(args)
    decreases |args| - k
  {
    if k == |args| {
      assert args[..k] == args;
    } else {
      NeedNext(args, k);
      NeedGrows(args, k + 1);
    }
  }

  /** Going down and aligning is going down by the rounded size. */
  lemma DownIsUp(x: int, n: nat)
    requires x % 16 == 0
    ensures x - n - (x - n) % 16 == x - Up16(n) && (x - Up16(n)) % 16 == 0 && Up16(n) >= n
  {
    assert x == 16 * (x / 16) && Up16(n) == 16 * ((n + 15) / 16);
  }

  // ------------------------------------------------------------ reading memory

  /** The string that starts at an offset. */
  function CString(page: Bytes, at: nat): Bytes
    decreases |page| - at
  {
    if at >= |page| || page[at] == 0 then [] else [page[at]] + CString(page, at + 1)
  }

  /** A little-endian number. */
  function Value(s: Bytes): nat {
    if s == [] then 0 else s[0] + 256 * Value(s[1..])
  }

  function LittleEndian(v: nat, k: nat): (s: Bytes)
    ensures |s| == k
  {
    if k == 0 then [] else [v % 256] + LittleEndian(v / 256, k - 1)
  }

  function Power(k: nat): nat {
    if k == 0 then 1 else 256 * Power(k - 1)
  }

  lemma {:induction false} ValueRoundTrip(v: nat, k: nat)
    requires v < Power(k)
    ensures Value(LittleEndian(v, k)) == v
    decreases k
  {
    if k > 0 {
      ValueRoundTrip(v / 256, k - 1);
      assert LittleEndian(v, k)[1..] == LittleEndian(v / 256, k - 1);
    }
  }

  lemma Power8()
    ensures Power(8) == 0x1_0000_0000_0000_0000
  {
    assert Power(2) == 0x1_0000;
    assert Power(4) == 0x1_0000_0000;
    assert Power(6) == 0x1_0000_0000_0000;
  }

  lemma {:induction false} ZeroValue(s: Bytes)
    requires forall i :: 0 <= i < |s| ==> s[i] == 0
    ensures Value(s) == 0
  {
    if s != [] { ZeroValue(s[1..]); }
  }

  /** Bytes above `lo` decide what strings above `lo` are. */
  lemma {:induction false} CStringKept(a: Bytes, b: Bytes, lo: nat, at: nat)
    requires |a| == |b| && lo <= at && forall i :: lo <= i < |a| ==> a[i] == b[i]
    ensures CString(a, at) == CString(b, at)
    decreases |a| - at
  {
    if at < |a| && a[at] != 0 {
      CStringKept(a, b, lo, at + 1);
    }
  }

  lemma {:induction false} CStringIs(page: Bytes, at: nat, s: Bytes)
    requires at + |s| < |page| && page[at..at + |s|] == s && page[at + |s|] == 0
    requires forall i :: 0 <= i < |s| ==> s[i] != 0
    ensures CString(page, at) == s
    decreases |s|
  {
    if s != [] {
      assert page[at] == page[at..at + |s|][0];
      assert page[at + 1..at + 1 + |s[1..]|] == page[at..at + |s|][1..];
      CStringIs(page, at + 1, s[1..]);
    }
  }

  // ------------------------------------------------------------ writing it

  function Put(page: Bytes, at: nat, s: Bytes): (r: Bytes)
    requires at + |s| <= |page|
    ensures |r| == |page|
  {
    page[..at] + s + page[at + |s|..]
  }

  lemma PutThere(page: Bytes, at: nat, s: Bytes)
    requires at + |s| <= |page|
    ensures var r := Put(page, at, s);
            && r[at..at + |s|] == s && r[..at] == page[..at]
            && forall i :: at + |s| <= i < |page| ==> r[i] == page[i]
  {
  }

  function Addresses(p: seq<nat>): (s: Bytes)
    ensures |s| == 8 * |p|
  {
    if p == [] then [] else Addresses(p[..|p| - 1]) + LittleEndian(p[|p| - 1], 8)
  }

  lemma {:induction false} AddressAt(p: seq<nat>, i: nat)
    requires i < |p| && p[i] < 0x1_0000_0000_0000_0000
    ensures Value(Addresses(p)[8 * i..8 * i + 8]) == p[i]
    decreases |p|
  {
    var q := p[..|p| - 1];
    if i == |q| {
      assert Addresses(p)[8 * i..8 * i + 8] == LittleEndian(p[i], 8);
      Power8();
      ValueRoundTrip(p[i], 8);
    } else {
      assert Addresses(p)[8 * i..8 * i + 8] == Addresses(q)[8 * i..8 * i + 8];
      AddressAt(q, i);
    }
  }

  /** What a program finds at `sp` if `page` lies at address `base`: its arguments, by addresses
      into the page, and then a null pointer. */
  ghost predicate ArgvIs(page: Bytes, base: nat, sp: nat, args: seq<Bytes>) {
    && |page| == 4096 && base <= sp && sp + 8 * (|args| + 1) <= base + 4096 && sp % 16 == 0
    && (forall i :: 0 <= i < |args| ==> ArgIs(page, base, AddressIn(page, sp - base, i), args[i]))
    && AddressIn(page, sp - base, |args|) == 0
  }

  function AddressIn(page: Bytes, at: nat, i: nat): nat
    requires at + 8 * i + 8 <= |page|
  {
    Value(page[at + 8 * i..at + 8 * i + 8])
  }

  ghost predicate ArgIs(page: Bytes, base: nat, p: nat, s: Bytes) {
    base <= p < base + |page| && CString(page, p - base) == s
  }

  /** The strings pushed so far, with nothing written below `sp`. */
  ghost predicate Pushing(page0: Bytes, page: Bytes, base: nat, sp: nat, ustack: seq<nat>, args: seq<Bytes>) {
    && |page| == |page0| == 4096 && base <= sp <= base + 4096 && |ustack| <= |args|
    && page[..sp - base] == page0[..sp - base]
    && forall i :: 0 <= i < |ustack| ==> sp <= ustack[i] && ArgIs(page, base, ustack[i], args[i])
  }

  lemma PushNext(page0: Bytes, page: Bytes, base: nat, sp: nat, ustack: seq<nat>, args: seq<Bytes>, sp': nat)
    requires Pushing(page0, page, base, sp, ustack, args) && |ustack| < |args| && IsArg(args[|ustack|])
    requires base <= sp' && sp' + |args[|ustack|]| + 1 <= sp
    ensures Pushing(page0, Put(page, sp' - base, args[|ustack|] + [0]), base, sp', ustack + [sp'], args)
  {
    hide CString;
    var s := args[|ustack|];
    var page' := Put(page, sp' - base, s + [0]);
    PutThere(page, sp' - base, s + [0]);
    PushedOne(page, base, sp', s);
    Below(page0, page, page', sp - base, sp' - base);
    forall i | 0 <= i < |ustack| ensures sp' <= ustack[i] && ArgIs(page', base, ustack[i], args[i]) {
      CStringKept(page, page', sp - base, ustack[i] - base);
    }
  }

  lemma Below(a: Bytes, b: Bytes, c: Bytes, m: nat, n: nat)
    requires n <= m <= |a| && m <= |b| && m <= |c| && a[..m] == b[..m] && b[..n] == c[..n]
    ensures c[..n] == a[..n]
  {
    assert a[..n] == a[..m][..n] == b[..m][..n] == b[..n];
  }

  lemma PushedOne(page: Bytes, base: nat, sp: nat, s: Bytes)
    requires |page| == 4096 && base <= sp && sp + |s| + 1 <= base + 4096 && IsArg(s)
    ensures ArgIs(Put(page, sp - base, s + [0]), base, sp, s)
  {
    var at := sp - base;
    var page' := Put(page, at, s + [0]);
    PutThere(page, at, s + [0]);
    assert page'[at..at + |s|] == page'[at..at + |s| + 1][..|s|] == s;
    assert page'[at + |s|] == page'[at..at + |s| + 1][|s|] == 0;
    CStringIs(page', at, s);
  }

  lemma PushEnd(page0: Bytes, page: Bytes, base: nat, sp: nat, ustack: seq<nat>, args: seq<Bytes>, sp': nat)
    requires Pushing(page0, page, base, sp, ustack, args) && |ustack| == |args| && base < 0x40_0000_0000
    requires base <= sp' && sp' + 8 * (|args| + 1) <= sp && sp' % 16 == 0
    ensures var page' := Put(page, sp' - base, Addresses(ustack + [0]));
            ArgvIs(page', base, sp', args) && page'[..sp' - base] == page0[..sp' - base]
  {
    hide CString, Value, Addresses;
    var p := ustack + [0];
    var page' := Put(page, sp' - base, Addresses(p));
    PutThere(page, sp' - base, Addresses(p));
    Below(page0, page, page', sp - base, sp' - base);
    forall i | 0 <= i < |args| ensures ArgIs(page', base, AddressIn(page', sp' - base, i), args[i]) {
      AddressBack(page', sp' - base, p, i);
      CStringKept(page, page', sp - base, ustack[i] - base);
    }
    AddressBack(page', sp' - base, p, |args|);
  }

  lemma AddressBack(page: Bytes, at: nat, p: seq<nat>, i: nat)
    requires i < |p| && p[i] < 0x1_0000_0000_0000_0000 && at + 8 * |p| <= |page|
    requires page[at..at + 8 * |p|] == Addresses(p)
    ensures AddressIn(page, at, i) == p[i]
  {
    hide Value, Addresses;
    Slice(page, at, at + 8 * |p|, 8 * i, 8 * i + 8);
    AddressAt(p, i);
  }

  lemma Slice(s: Bytes, a: nat, b: nat, c: nat, d: nat)
    requires a <= b <= |s| && c <= d <= b - a
    ensures s[a..b][c..d] == s[a + c..a + d]
  {
    var l, r := s[a..b][c..d], s[a + c..a + d];
    assert forall i :: 0 <= i < |l| ==> l[i] == s[a..b][c + i] == s[a + c + i] == r[i];
  }

  /** How the pushes end. `ustack` has room for MAXARG addresses; one more for the null address at the
      end of MAXARG arguments lies past it. */
  datatype PushResult = Pushed(sp: nat, page: Bytes) | Refused | Overruns

  /** The pushes of exec, onto a stack page at address `base`. They succeed if and only if there are
      fewer than MAXARG arguments and they fit, and then what is pushed reads as the arguments. With
      exactly MAXARG arguments that fit, the store of the null address overruns `ustack`. */
  method PushArgs(page0: Bytes, base: nat, args: seq<Bytes>) returns (r: PushResult)
    requires |page0| == 4096 && base % 4096 == 0 && 4096 <= base < 0x40_0000_0000
    requires forall i :: 0 <= i < |args| ==> IsArg(args[i])
    ensures r.Pushed? <==> |args| < MAXARG && NeedAll(args) <= 4096
    ensures r.Overruns? <==> |args| == MAXARG && Need(args) <= 4096
    ensures r.Pushed? ==>
              && |r.page| == 4096 && base <= r.sp <= base + 4096 && ArgvIs(r.page, base, r.sp, args)
              && r.page[..r.sp - base] == page0[..r.sp - base]
  {
    hide Need, Up16, Pushing, ArgvIs, Put, Addresses;
    var ustack: seq<nat> := [];
    var sp, argc, page := base + 4096, 0, page0;
    PushStart(page0, base, args);
    while argc < |args|
      invariant argc == |ustack| <= |args| && argc <= MAXARG && |page| == 4096
      invariant base <= sp == base + 4096 - Need(args[..argc]) && sp % 16 == 0
      invariant Pushing(page0, page, base, sp, ustack, args)
    {
      if argc >= MAXARG {
        return Refused;
      }
      NeedNext(args, argc);
      NeedGrows(args, argc + 1);
      DownIsUp(sp, |args[argc]| + 1);
      ghost var top := sp;
      sp := sp - (|args[argc]| + 1);
      sp := sp - sp % 16;
      if sp < base {
        return Refused;
      }
      PushNext(page0, page, base, top, ustack, args, sp);
      page := Put(page, sp - base, args[argc] + [0]);
      ustack := ustack + [sp];
      argc := argc + 1;
    }
    assert args[..argc] == args;
    if argc == MAXARG {
      return Overruns;
    }
    DownIsUp(sp, 8 * (argc + 1));
    ghost var top := sp;
    sp := sp - 8 * (argc + 1);
    sp := sp - sp % 16;
    if sp < base {
      return Refused;
    }
    PushEnd(page0, page, base, top, ustack, args, sp);
    page := Put(page, sp - base, Addresses(ustack + [0]));
    r := Pushed(sp, page);
  }

  /** MAXARG empty strings are such arguments. */
  lemma OverrunExists()
    ensures exists args: seq<Bytes> ::
              |args| == MAXARG && Need(args) <= 4096 && forall i :: 0 <= i < |args| ==> IsArg(args[i])
  {
    var args: seq<Bytes> := seq(MAXARG, _ => []);
    EmptyNeed(args);
    assert |args| == MAXARG && Need(args) <= 4096;
  }

  lemma {:induction false} EmptyNeed(args: seq<Bytes>)
    requires forall i :: 0 <= i < |args| ==> args[i] == []
    ensures Need(args) == 16 * |args|
  {
    if args != [] {
      EmptyNeed(args[..|args| - 1]);
    }
  }

  lemma PushStart(page0: Bytes, base: nat, args: seq<Bytes>)
    requires |page0| == 4096 && base % 4096 == 0
    ensures Pushing(page0, page0, base, base + 4096, [], args) && Need(args[..0]) == 0 && (base + 4096) % 16 == 0
  {
    hide CString;
    assert base == 16 * (256 * (base / 4096));
  }

  // ------------------------------------------------------------ sys_exec

  /** What sys_exec finds when it looks for one more argument. */
  datatype Fetched = BadAddress | NullAddress | NoPage | BadString | Arg(s: Bytes)

  /** The user's argument vector ends properly after n arguments. */
  predicate EndsAt(user: seq<Fetched>, n: nat) {
    n < |user| && user[n] == NullAddress && forall i :: 0 <= i < n ==> user[i].Arg?
  }

  /** The argument loop of sys_exec. It passes on the user's arguments if and only if there are fewer
      than MAXARG of them and each can be fetched, so exec never gets enough to overrun `ustack`. */
  method FetchArgs(user: seq<Fetched>) returns (r: Option<seq<Bytes>>)
    requires forall i :: 0 <= i < |user| && user[i].Arg? ==> IsArg(user[i].s)
    ensures r.Some? <==> exists n: nat :: n < MAXARG && EndsAt(user, n)
    ensures r.Some? ==> |r.value| < MAXARG && EndsAt(user, |r.value|)
    ensures r.Some? ==> forall i :: 0 <= i < |r.value| ==> user[i] == Arg(r.value[i]) && IsArg(r.value[i])
  {
    var argv: seq<Bytes> := [];
    var i := 0;
    while i < MAXARG
      invariant i == |argv| <= MAXARG && i <= |user|
      invariant forall j :: 0 <= j < i ==> user[j] == Arg(argv[j])
    {
      if i >= |user| {
        return None;
      }
      match user[i] {
        case NullAddress =>
          assert EndsAt(user, i);
          return Some(argv);
        case Arg(s) =>
          argv := argv + [s];
        case _ =>
          return None;
      }
      i := i + 1;
    }
    r := None;
  }

  // ------------------------------------------------------------ bytes and words

  /** The bytes of a page of 64-bit words. */
  function Unwords(w: seq<nat>): (page: Bytes)
    requires |w| == 512
    ensures |page| == 4096 && forall i :: 0 <= i < 4096 ==> page[i] == LittleEndian(w[i / 8], 8)[i % 8]
  {
    seq(4096, i requires 0 <= i < 4096 => LittleEndian(w[i / 8], 8)[i % 8])
  }

  lemma {:induction false} BytesBack(s: Bytes)
    ensures LittleEndian(Value(s), |s|) == s
  {
    if s != [] {
      BytesBack(s[1..]);
      assert Value(s) / 256 == Value(s[1..]) && Value(s) % 256 == s[0];
    }
  }

  lemma UnwordsWords(page: Bytes)
    requires |page| == 4096
    ensures Unwords(Words(page)) == page
  {
    hide Value, LittleEndian;
    var r := Unwords(Words(page));
    forall i | 0 <= i < 4096 ensures r[i] == page[i] {
      var k := i / 8;
      BytesBack(page[8 * k..8 * k + 8]);
      assert page[8 * k..8 * k + 8][i % 8] == page[i];
    }
  }

  /** The page as the 64-bit words of physical memory. */
  function Words(page: Bytes): (w: seq<nat>)
    requires |page| == 4096
    ensures |w| == 512 && forall i :: 0 <= i < 512 ==> w[i] == Value(page[8 * i..8 * i + 8])
  {
    seq(512, i requires 0 <= i < 512 => Value(page[8 * i..8 * i + 8]))
  }
}
