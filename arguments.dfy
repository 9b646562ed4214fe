/** The command line (main.c:117-127, 327-348): the renderer token the
    parent formats for its child, the %d scanning that reads it back, and
    the argument loop that sets the configuration. Strings are the C
    strings of argv, without their terminating NUL. */
module Arguments {
  import opened Base

  /** The three descriptors handed to the Renderer: control in, control
      out and the heap's memfd. */
  datatype FdTriple = FdTriple(ctrlIn: int, ctrlOut: int, memfd: int)

  const RENDERER_PREFIX: string := "renderer-"
  /** sizeof(child_renderer): the token buffer, terminating NUL included. */
  const TOKEN_BUFFER_BYTES: nat := 32

  // ---------------------------------------------------------------------
  // printf's %d

  function DigitChar(d: nat): char
    requires d < 10
  {
    "0123456789"[d]
  }

  predicate IsDigit(c: char)
  {
    '0' <= c <= '9'
  }

  predicate AllDigits(s: string)
  {
    forall i :: 0 <= i < |s| ==> IsDigit(s[i])
  }

  /** The decimal digits of n, most significant first, no leading zero. */
  function NatDigits(n: nat): (s: string)
    ensures |s| > 0 && AllDigits(s)
  {
    if n < 10 then [DigitChar(n)] else NatDigits(n / 10) + [DigitChar(n % 10)]
  }

  /** %d: an optional minus sign and the digits of the magnitude. */
  function Decimal(n: int): string
  {
    if n < 0 then "-" + NatDigits(-n) else NatDigits(n)
  }

  // ---------------------------------------------------------------------
  // scanf's %d

  /** isspace in the C locale. */
  predicate IsSpace(c: char)
  {
    c == ' ' || '\t' <= c <= '\r'
  }

  /** %d first skips white space. */
  function SkipSpace(s: string): (t: string)
    ensures |t| <= |s|
    ensures t != [] ==> !IsSpace(t[0])
  {
    if s != [] && IsSpace(s[0]) then SkipSpace(s[1..]) else s
  }

  /** The length of the longest run of digits at the front of s. */
  function DigitRun(s: string): (n: nat)
    ensures n <= |s|
    ensures n < |s| ==> !IsDigit(s[n])
  {
    if s != [] && IsDigit(s[0]) then 1 + DigitRun(s[1..]) else 0
  }

  function DigitOf(c: char): nat
  {
    if IsDigit(c) then c as int - '0' as int else 0
  }

  /** The value of a run of decimal digits. */
  function DigitsValue(s: string): nat
  {
    if s == [] then 0
    else DigitsValue(s[..|s| - 1]) * 10 + DigitOf(s[|s| - 1])
  }

  /** The digits of a conversion after its sign: at least one digit, then
      as many as follow. */
  function ScanUnsigned(u: string): Option<(nat, string)>
  {
    var n := DigitRun(u);
    if n == 0 then None else Some((DigitsValue(u[..n]), u[n..]))
  }

  /** One %d conversion: white space, an optional sign and the digits. The
      value and the rest of the input, or None for a matching failure.
      Values beyond int are not modelled. */
  function ScanInt(s: string): Option<(int, string)>
  {
    var t := SkipSpace(s);
    if t != [] && t[0] == '-' then
      match ScanUnsigned(t[1..])
      case None => None
      case Some((v, rest)) => Some((-(v as int), rest))
    else if t != [] && t[0] == '+' then
      match ScanUnsigned(t[1..])
      case None => None
      case Some((v, rest)) => Some((v, rest))
    else
      match ScanUnsigned(t)
      case None => None
      case Some((v, rest)) => Some((v, rest))
  }

  /** `count` %d conversions separated by a literal '-' each: the values,
      or None at the first matching failure. Whatever follows the last
      conversion is ignored. */
  function ScanFields(s: string, count: nat): (r: Option<seq<int>>)
    ensures r.Some? ==> |r.value| == count
    decreases count
  {
    if count == 0 then Some([])
    else match ScanInt(s)
      case None => None
      case Some((v, rest)) =>
        if count == 1 then Some([v])
        else if rest == [] || rest[0] != '-' then None
        else match ScanFields(rest[1..], count - 1)
          case None => None
          case Some(vs) => Some([v] + vs)
  }

  /** sscanf(s, "%d-%d-%d", ...) == 3. */
  function ScanFds(s: string): Option<FdTriple>
  {
    match ScanFields(s, 3)
    case None => None
    case Some(vs) => Some(FdTriple(vs[0], vs[1], vs[2]))
  }

  // ---------------------------------------------------------------------
  // the renderer token

  /** snprintf(child_renderer, 32, "renderer-%d-%d-%d", ...): fatal when
      the text and its NUL do not fit the buffer. */
  function FormatRendererToken(fds: FdTriple): (r: Result<string>)
    ensures r.Err? <==> |RENDERER_PREFIX| + |Decimal(fds.ctrlIn)| + 1 + |Decimal(fds.ctrlOut)| + 1
                        + |Decimal(fds.memfd)| >= TOKEN_BUFFER_BYTES
    ensures r.Err? ==> r.error == RendererStringTooLong
    ensures r.Ok? ==> |r.value| < TOKEN_BUFFER_BYTES
    ensures r.Ok? ==> HasRendererPrefix(r.value)
    ensures r.Ok? ==> ScanFds(r.value[|RENDERER_PREFIX|..]) == Some(fds)
  {
    var body := Decimal(fds.ctrlIn) + "-" + Decimal(fds.ctrlOut) + "-" + Decimal(fds.memfd);
    var s := RENDERER_PREFIX + body;
    assert s[..|RENDERER_PREFIX|] == RENDERER_PREFIX && s[|RENDERER_PREFIX|..] == body;
    ScanFormatted(fds);
    if |s| >= TOKEN_BUFFER_BYTES then Err(RendererStringTooLong) else Ok(s)
  }

  /** The word the parent passes after the token (main.c:125). */
  function ModeWord(useUdmabuf: bool): string
  {
    if useUdmabuf then "udmabuf" else "memfd"
  }

  // ---------------------------------------------------------------------
  // the argument loop

  /** The configuration the loop writes: app.config.use_udmabuf (the same
      value as renderer_args.use_udmabuf), app.config.is_coherent, and the
      descriptors of renderer_args when a renderer token was seen. */
  datatype Options = Options(useUdmabuf: bool, isCoherent: bool, renderer: Option<FdTriple>)

  /** The defaults of main: memfd import, coherent heap, Controller role. */
  const DefaultOptions: Options := Options(false, true, None)

  /** How main goes on after the loop: with a configuration, with the usage
      message and exit(1), or with a fatal error. */
  datatype Invocation = Run(options: Options) | Usage | Abort(fault: Fault)

  /** strncmp(arg, "renderer-", 9) == 0. */
  predicate HasRendererPrefix(arg: string)
  {
    |arg| >= |RENDERER_PREFIX| && arg[..|RENDERER_PREFIX|] == RENDERER_PREFIX
  }

  /** What one argument means to the loop. */
  datatype Token =
    | RendererArgs(fds: Option<FdTriple>)  // renderer-..., scanned or not
    | ImportMode(udmabuf: bool)            // udmabuf / memfd
    | Coherency(coherent: bool)            // coherent / incoherent
    | Unknown

  function CoherencyWord(coherent: bool): string
  {
    if coherent then "coherent" else "incoherent"
  }

  /** The strncmp / strcmp chain of the loop body, in its order. */
  function Classify(arg: string): (t: Token)
    ensures t.RendererArgs? <==> HasRendererPrefix(arg)
    ensures t.RendererArgs? ==> t.fds == ScanFds(arg[|RENDERER_PREFIX|..])
    ensures t.ImportMode? ==> arg == ModeWord(t.udmabuf)
    ensures t.Coherency? ==> arg == CoherencyWord(t.coherent)
    ensures t == Unknown ==>
              && !HasRendererPrefix(arg)
              && arg != ModeWord(true) && arg != ModeWord(false)
              && arg != CoherencyWord(true) && arg != CoherencyWord(false)
  {
    if HasRendererPrefix(arg) then RendererArgs(ScanFds(arg[|RENDERER_PREFIX|..]))
    else if arg == "udmabuf" then ImportMode(true)
    else if arg == "memfd" then ImportMode(false)
    else if arg == "coherent" then Coherency(true)
    else if arg == "incoherent" then Coherency(false)
    else Unknown
  }

  /** The words the parent passes are recognised as what they say. */
  lemma ClassifyWords(b: bool)
    ensures Classify(ModeWord(b)) == ImportMode(b)
    ensures Classify(CoherencyWord(b)) == Coherency(b)
  {
    assert !HasRendererPrefix(ModeWord(b)) && !HasRendererPrefix(CoherencyWord(b)) by {
      assert "incoherent"[..9] != RENDERER_PREFIX by { assert "incoherent"[0] != RENDERER_PREFIX[0]; }
    }
  }

  /** A token the loop accepts without exiting. */
  predicate Accepted(arg: string)
  {
    match Classify(arg)
    case RendererArgs(fds) => fds.Some?
    case Unknown => false
    case _ => true
  }

  /** How a rejected token ends the program: a renderer token that does not
      scan is fatal, any other unknown token prints the usage. */
  function Reject(arg: string): Invocation
  {
    if HasRendererPrefix(arg) then Abort(InvalidRendererArgs) else Usage
  }

  /** One iteration of the loop: the options after `arg`, or how main ends
      on it. */
  function Apply(o: Options, arg: string): (r: Invocation)
    ensures r.Run? <==> Accepted(arg)
    ensures !Accepted(arg) ==> r == Reject(arg)
  {
    match Classify(arg)
    case RendererArgs(None) => Abort(InvalidRendererArgs)
    case RendererArgs(Some(fds)) => Run(o.(renderer := Some(fds)))
    case ImportMode(b) => Run(o.(useUdmabuf := b))
    case Coherency(b) => Run(o.(isCoherent := b))
    case Unknown => Usage
  }

  /** The loop over argv[1..], stopping at the first rejected token. */
  function Interpret(args: seq<string>): Invocation
  {
    if args == [] then Run(DefaultOptions)
    else
      match Interpret(args[..|args| - 1])
      case Run(o) => Apply(o, args[|args| - 1])
      case other => other
  }

  /** The import mode of the last udmabuf / memfd word, or the default. */
  function LastImportMode(args: seq<string>): bool
  {
    if args == [] then DefaultOptions.useUdmabuf
    else match Classify(args[|args| - 1])
      case ImportMode(b) => b
      case _ => LastImportMode(args[..|args| - 1])
  }

  /** The coherency of the last coherent / incoherent word, or the default. */
  function LastCoherency(args: seq<string>): bool
  {
    if args == [] then DefaultOptions.isCoherent
    else match Classify(args[|args| - 1])
      case Coherency(b) => b
      case _ => LastCoherency(args[..|args| - 1])
  }

  /** The descriptors of the last renderer token, if any. */
  function LastRendererFds(args: seq<string>): Option<FdTriple>
  {
    if args == [] then DefaultOptions.renderer
    else match Classify(args[|args| - 1])
      case RendererArgs(fds) => fds
      case _ => LastRendererFds(args[..|args| - 1])
  }

  /** The argument loop of main (main.c:327-348), overwriting the
      configuration token by token. */
  method ParseArguments(args: seq<string>) returns (r: Invocation)
    ensures r == Interpret(args)
  {
    var useUdmabuf := DefaultOptions.useUdmabuf;
    var isCoherent := DefaultOptions.isCoherent;
    var renderer: Option<FdTriple> := DefaultOptions.renderer;
    for i := 0 to |args|
      invariant Interpret(args[..i]) == Run(Options(useUdmabuf, isCoherent, renderer))
    {
      assert args[..i + 1][..i] == args[..i];
      match Classify(args[i])
      case RendererArgs(fds) =>
        if fds.None? {
          InterpretStops(args, i + 1);
          return Abort(InvalidRendererArgs);
        }
        renderer := fds;
      case ImportMode(b) =>
        useUdmabuf := b;
      case Coherency(b) =>
        isCoherent := b;
      case Unknown =>
        InterpretStops(args, i + 1);
        return Usage;
    }
    assert args[..|args|] == args;
    r := Run(Options(useUdmabuf, isCoherent, renderer));
  }

  // ---------------------------------------------------------------------
  // properties of the loop

  /** An accepted last token moves the settings of the earlier tokens to
      the settings of all of them. */
  lemma ApplyLast(args: seq<string>, o: Options)
    requires args != [] && Accepted(args[|args| - 1])
    requires var init := args[..|args| - 1];
             o == Options(LastImportMode(init), LastCoherency(init), LastRendererFds(init))
    ensures Apply(o, args[|args| - 1])
            == Run(Options(LastImportMode(args), LastCoherency(args), LastRendererFds(args)))
  {
  }

  /** The loop runs to the end exactly when every token is accepted, and then
      the last occurrence of each setting wins. */
  lemma {:induction false} InterpretRuns(args: seq<string>)
    ensures Interpret(args).Run? <==> forall i :: 0 <= i < |args| ==> Accepted(args[i])
    ensures Interpret(args).Run? ==>
              Interpret(args).options
              == Options(LastImportMode(args), LastCoherency(args), LastRendererFds(args))
  {
    if args != [] {
      var init := args[..|args| - 1];
      InterpretRuns(init);
      assert forall i :: 0 <= i < |init| ==> init[i] == args[i];
      if Interpret(init).Run? && Accepted(args[|args| - 1]) {
        ApplyLast(args, Interpret(init).options);
      }
    }
  }

  /** Once the loop has stopped, later tokens change nothing. */
  lemma {:induction false} InterpretStops(args: seq<string>, k: nat)
    requires k <= |args| && !Interpret(args[..k]).Run?
    ensures Interpret(args) == Interpret(args[..k])
  {
    if k == |args| {
      assert args[..k] == args;
    } else {
      var init := args[..|args| - 1];
      assert init[..k] == args[..k];
      InterpretStops(init, k);
    }
  }

  /** The loop stops at the first rejected token, and that token alone
      decides between the usage message and the fatal error. */
  lemma {:induction false} InterpretStopsAtFirstRejected(args: seq<string>, j: nat)
    requires j < |args| && !Accepted(args[j])
    requires forall i :: 0 <= i < j ==> Accepted(args[i])
    ensures Interpret(args) == Reject(args[j])
  {
    var init := args[..|args| - 1];
    if j == |args| - 1 {
      InterpretRuns(init);
      assert forall i :: 0 <= i < |init| ==> init[i] == args[i];
    } else {
      InterpretStopsAtFirstRejected(init, j);
    }
  }

  // ---------------------------------------------------------------------
  // the round trip of the renderer token

  lemma {:induction false} DigitsValueOfNatDigits(n: nat)
    ensures DigitsValue(NatDigits(n)) == n
  {
    if n >= 10 {
      DigitsValueOfNatDigits(n / 10);
      var s := NatDigits(n);
      assert s[..|s| - 1] == NatDigits(n / 10);
    }
  }

  lemma DigitRunOf(d: string, rest: string)
    requires AllDigits(d)
    requires rest == [] || !IsDigit(rest[0])
    ensures DigitRun(d + rest) == |d|
    decreases |d|
  {
    if d != [] {
      assert (d + rest)[1..] == d[1..] + rest;
      DigitRunOf(d[1..], rest);
    } else {
      assert d + rest == rest;
    }
  }

  lemma ScanDigits(d: string, rest: string)
    requires |d| > 0 && AllDigits(d)
    requires rest == [] || !IsDigit(rest[0])
    ensures ScanUnsigned(d + rest) == Some((DigitsValue(d), rest))
  {
    var u := d + rest;
    DigitRunOf(d, rest);
    assert u[..|d|] == d && u[|d|..] == rest;
  }

  /** %d reads back what %d printed, for every int, as long as the next
      character is not a digit. */
  lemma ScanDecimal(n: int, rest: string)
    requires rest == [] || !IsDigit(rest[0])
    ensures ScanInt(Decimal(n) + rest) == Some((n, rest))
  {
    var m := if n < 0 then -n else n;
    var d := NatDigits(m);
    ScanDigits(d, rest);
    DigitsValueOfNatDigits(m);
    if n < 0 {
      assert Decimal(n) + rest == ['-'] + (d + rest);
      ScanNegative(d + rest);
    } else {
      assert Decimal(n) + rest == d + rest;
      ScanNonNegative(d + rest);
    }
  }

  lemma ScanNegative(u: string)
    ensures ScanInt(['-'] + u) == match ScanUnsigned(u)
                                  case None => None
                                  case Some((v, rest)) => Some((-(v as int), rest))
  {
    var s := ['-'] + u;
    assert SkipSpace(s) == s;
    assert s[1..] == u;
  }

  lemma ScanNonNegative(u: string)
    requires u != [] && IsDigit(u[0])
    ensures ScanInt(u) == ScanUnsigned(u)
  {
    assert SkipSpace(u) == u;
  }

  /** The token scans back to the descriptors it was formatted from. */
  lemma ScanFormatted(fds: FdTriple)
    ensures var body := Decimal(fds.ctrlIn) + "-" + Decimal(fds.ctrlOut) + "-" + Decimal(fds.memfd);
            ScanFds(body) == Some(fds)
  {
    var a, b, c := Decimal(fds.ctrlIn), Decimal(fds.ctrlOut), Decimal(fds.memfd);
    var r2 := ['-'] + c;
    var r1 := ['-'] + (b + r2);
    var body := a + "-" + b + "-" + c;
    assert body == a + r1;
    assert r1[1..] == b + r2;
    assert r2[1..] == c + [];
    ScanDecimal(fds.memfd, []);
    assert ScanFields(r2[1..], 1) == Some([fds.memfd]);
    ScanDecimal(fds.ctrlOut, r2);
    assert ScanInt(r1[1..]) == Some((fds.ctrlOut, r2));
    assert r2 != [] && r2[0] == '-';
    assert [fds.ctrlOut] + [fds.memfd] == [fds.ctrlOut, fds.memfd];
    assert ScanFields(r1[1..], 2) == Some([fds.ctrlOut, fds.memfd]);
    ScanDecimal(fds.ctrlIn, r1);
    assert ScanInt(body) == Some((fds.ctrlIn, r1));
    assert r1 != [] && r1[0] == '-';
    assert [fds.ctrlIn] + [fds.ctrlOut, fds.memfd] == [fds.ctrlIn, fds.ctrlOut, fds.memfd];
    assert ScanFields(body, 3) == Some([fds.ctrlIn, fds.ctrlOut, fds.memfd]);
  }

  /** The child's command line (main.c:122-127) reproduces the parent's
      import mode and descriptors in the child: a formatted token followed by
      the mode word selects the Renderer role with exactly those values. */
  lemma ChildArgvRoundTrip(fds: FdTriple, useUdmabuf: bool)
    requires FormatRendererToken(fds).Ok?
    ensures Interpret([FormatRendererToken(fds).value, ModeWord(useUdmabuf)])
            == Run(Options(useUdmabuf, DefaultOptions.isCoherent, Some(fds)))
  {
    var token := FormatRendererToken(fds).value;
    assert Classify(token) == RendererArgs(Some(fds));
    ClassifyWords(useUdmabuf);
    var args := [token, ModeWord(useUdmabuf)];
    assert args[..1] == [token] && [token][..0] == [];
    assert Interpret([token]) == Run(DefaultOptions.(renderer := Some(fds)));
  }

  lemma DigitsBound(n: nat, k: nat)
    requires n < Pow10(k) && k > 0
    ensures |NatDigits(n)| <= k
  {
    if n >= 10 {
      DigitsBound(n / 10, k - 1);
    }
  }

  function Pow10(k: nat): (p: nat)
    ensures p > 0
  {
    if k == 0 then 1 else 10 * Pow10(k - 1)
  }

  /** Descriptors below one million always fit the 32-byte token. */
  lemma SmallFdsFit(fds: FdTriple)
    requires 0 <= fds.ctrlIn < 1_000_000 && 0 <= fds.ctrlOut < 1_000_000 && 0 <= fds.memfd < 1_000_000
    ensures FormatRendererToken(fds).Ok?
  {
    assert Pow10(6) == 1_000_000;
    DigitsBound(fds.ctrlIn, 6);
    DigitsBound(fds.ctrlOut, 6);
    DigitsBound(fds.memfd, 6);
  }
}
