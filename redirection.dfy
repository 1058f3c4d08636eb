/** The full shell's redirection resolver, `handle_redirection_in_tokens`:
    it walks a NULL-terminated token array, and for each `<`, `>` or `>>`
    opens the token after it, removes both tokens by shifting the rest of
    the array left, and remembers the descriptor. */
module Redirection {
  import opened Text
  import opened Os

  /** The mode a redirection operator opens its file with, if the token is one. */
  function OperatorMode(tok: string): Option<Mode>
  {
    if tok == "<" then Some(Read)
    else if tok == ">" then Some(Truncate)
    else if tok == ">>" then Some(Append)
    else None
  }

  datatype Redirect = Redirect(mode: Mode, path: string)

  /** A token list read as arguments and redirections: the tokens that are
      neither an operator nor the file after one, the operators with their
      files in order, and whether the list ends in an operator with no file. */
  datatype Parsed = Parsed(args: seq<string>, redirects: seq<Redirect>, dangling: bool)

  function Parse(toks: seq<string>): (p: Parsed)
    ensures |toks| == |p.args| + 2 * |p.redirects| + (if p.dangling then 1 else 0)
    ensures forall a :: a in p.args ==> OperatorMode(a).None?
    decreases |toks|
  {
    if toks == [] then Parsed([], [], false)
    else match OperatorMode(toks[0])
      case Some(m) =>
        if |toks| == 1 then Parsed([], [], true)
        else
          var p := Parse(toks[2..]);
          Parsed(p.args, [Redirect(m, toks[1])] + p.redirects, p.dangling)
      case None =>
        var p := Parse(toks[1..]);
        Parsed([toks[0]] + p.args, p.redirects, p.dangling)
  }

  /** The tokens that spell the redirections `rs`. */
  function Render(rs: seq<Redirect>): seq<string>
  {
    if rs == [] then []
    else [match rs[0].mode case Read => "<" case Truncate => ">" case Append => ">>", rs[0].path] + Render(rs[1..])
  }

  /** Tokens that contain no operator are all arguments. */
  lemma {:induction false} ParsePlainArgs(args: seq<string>)
    requires forall a :: a in args ==> OperatorMode(a).None?
    ensures Parse(args) == Parsed(args, [], false)
  {
    if args != [] {
      assert args[0] in args;
      assert forall a :: a in args[1..] ==> a in args;
      ParsePlainArgs(args[1..]);
      assert args == [args[0]] + args[1..];
    }
  }

  /** Rendered redirections parse back to themselves. */
  lemma {:induction false} ParseRender(rs: seq<Redirect>)
    ensures Parse(Render(rs)) == Parsed([], rs, false)
  {
    if rs != [] {
      var t := Render(rs);
      assert t[2..] == Render(rs[1..]);
      ParseRender(rs[1..]);
      assert rs == [rs[0]] + rs[1..];
    }
  }

  lemma ParseArgument(a: string, rest: seq<string>)
    requires OperatorMode(a).None?
    ensures var p := Parse(rest);
            Parse([a] + rest) == Parsed([a] + p.args, p.redirects, p.dangling)
  {
    assert ([a] + rest)[1..] == rest;
  }

  /** Arguments followed by redirections parse back into the two. */
  lemma {:induction false} ParseRoundTrip(args: seq<string>, rs: seq<Redirect>)
    requires forall a :: a in args ==> OperatorMode(a).None?
    ensures Parse(args + Render(rs)) == Parsed(args, rs, false)
    decreases |args|
  {
    if args == [] {
      assert args + Render(rs) == Render(rs);
      ParseRender(rs);
    } else {
      var a, rest := args[0], args[1..];
      assert args == [a] + rest && a in args;
      ParseRoundTrip(rest, rs);
      assert args + Render(rs) == [a] + (rest + Render(rs));
      ParseArgument(a, rest + Render(rs));
    }
  }

  /** What the resolver ends with: the remaining arguments, the input and
      output descriptors (-1 for none), the append flag and the next free
      descriptor; or a failure, with the next free descriptor. */
  datatype Resolution =
    | Resolved(args: seq<string>, inFd: int, outFd: int, append: bool, next: int)
    | Failed(next: int)

  /** The scan of the unscanned tokens `toks`, given the arguments kept so
      far, the descriptors recorded so far and the next free descriptor. */
  function ResolveFrom(toks: seq<string>, fs: FileSystem, args: seq<string>,
                       inFd: int, outFd: int, append: bool, next: int): Resolution
    decreases |toks|
  {
    if toks == [] then Resolved(args, inFd, outFd, append, next)
    else match OperatorMode(toks[0])
      case None => ResolveFrom(toks[1..], fs, args + [toks[0]], inFd, outFd, append, next)
      case Some(m) =>
        if |toks| == 1 || !CanOpen(fs, toks[1], m) then Failed(next)
        else if m == Read then ResolveFrom(toks[2..], fs, args, next, outFd, append, next + 1)
        else ResolveFrom(toks[2..], fs, args, inFd, next, m == Append, next + 1)
  }

  /** The resolver on a whole token list, starting from no redirection. */
  function Resolve(toks: seq<string>, fs: FileSystem, next: int): Resolution
  {
    ResolveFrom(toks, fs, [], -1, -1, false, next)
  }

  /** Position of the last redirection of the input (or, with `input` false,
      of the output) in `rs`; -1 when there is none. */
  function LastIndex(rs: seq<Redirect>, input: bool): (i: int)
    ensures -1 <= i < |rs|
    ensures 0 <= i ==> (rs[i].mode == Read) == input
    ensures forall j :: i < j < |rs| ==> (rs[j].mode == Read) != input
  {
    if rs == [] then -1
    else
      var i := LastIndex(rs[1..], input);
      if 0 <= i then 1 + i
      else if (rs[0].mode == Read) == input then 0
      else -1
  }

  /** The descriptor the last redirection of one direction received, when
      the redirections were opened in order from `next` on; `dflt` if none. */
  function LastFd(rs: seq<Redirect>, input: bool, dflt: int, next: int): int
  {
    var i := LastIndex(rs, input);
    if i < 0 then dflt else next + i
  }

  /** The resolver succeeds exactly when no operator is left without a file
      and every file opens. */
  lemma {:induction false} ResolveFromSucceeds(toks: seq<string>, fs: FileSystem, args: seq<string>,
                                               inFd: int, outFd: int, append: bool, next: int)
    ensures ResolveFrom(toks, fs, args, inFd, outFd, append, next).Resolved? <==>
      !Parse(toks).dangling && forall r :: r in Parse(toks).redirects ==> CanOpen(fs, r.path, r.mode)
    decreases |toks|
  {
    if toks != [] {
      match OperatorMode(toks[0])
      case None =>
        ResolveFromSucceeds(toks[1..], fs, args + [toks[0]], inFd, outFd, append, next);
      case Some(m) =>
        if |toks| > 1 && CanOpen(fs, toks[1], m) {
          if m == Read {
            ResolveFromSucceeds(toks[2..], fs, args, next, outFd, append, next + 1);
          } else {
            ResolveFromSucceeds(toks[2..], fs, args, inFd, next, m == Append, next + 1);
          }
        } else if |toks| > 1 {
          assert Redirect(m, toks[1]) in Parse(toks).redirects;
        }
    }
  }

  /** The append flag of the last output redirection in `rs`; `dflt` if none. */
  function LastAppend(rs: seq<Redirect>, dflt: bool): bool
  {
    var i := LastIndex(rs, false);
    if i < 0 then dflt else rs[i].mode == Append
  }

  lemma LastFdCons(rs: seq<Redirect>, input: bool, dflt: int, next: int)
    requires rs != []
    ensures LastFd(rs, input, dflt, next) ==
            LastFd(rs[1..], input, if (rs[0].mode == Read) == input then next else dflt, next + 1)
  {
  }

  lemma LastAppendCons(rs: seq<Redirect>, dflt: bool)
    requires rs != []
    ensures LastAppend(rs, dflt) == LastAppend(rs[1..], if rs[0].mode != Read then rs[0].mode == Append else dflt)
  {
    var i := LastIndex(rs[1..], false);
    if 0 <= i {
      assert rs[1 + i] == rs[1..][i];
    }
  }

  /** On success the arguments are the non-redirection tokens in order and
      one descriptor was used per redirection. */
  lemma {:induction false} ResolveFromArgs(toks: seq<string>, fs: FileSystem, args: seq<string>,
                                           inFd: int, outFd: int, append: bool, next: int)
    requires ResolveFrom(toks, fs, args, inFd, outFd, append, next).Resolved?
    ensures var o := ResolveFrom(toks, fs, args, inFd, outFd, append, next);
            o.args == args + Parse(toks).args && o.next == next + |Parse(toks).redirects|
    decreases |toks|
  {
    if toks != [] {
      match OperatorMode(toks[0])
      case None =>
        ResolveFromArgs(toks[1..], fs, args + [toks[0]], inFd, outFd, append, next);
        assert args + [toks[0]] + Parse(toks[1..]).args == args + Parse(toks).args;
      case Some(m) =>
        if m == Read {
          ResolveFromArgs(toks[2..], fs, args, next, outFd, append, next + 1);
        } else {
          ResolveFromArgs(toks[2..], fs, args, inFd, next, m == Append, next + 1);
        }
    }
  }

  /** On success the input and output descriptors are those of the last
      redirection in each direction, and the append flag that of the last
      output one. */
  lemma {:induction false} ResolveFromFds(toks: seq<string>, fs: FileSystem, args: seq<string>,
                                          inFd: int, outFd: int, append: bool, next: int)
    requires ResolveFrom(toks, fs, args, inFd, outFd, append, next).Resolved?
    ensures var o := ResolveFrom(toks, fs, args, inFd, outFd, append, next);
            var rs := Parse(toks).redirects;
            o.inFd == LastFd(rs, true, inFd, next) && o.outFd == LastFd(rs, false, outFd, next) &&
            o.append == LastAppend(rs, append)
    decreases |toks|
  {
    if toks != [] {
      match OperatorMode(toks[0])
      case None =>
        ResolveFromFds(toks[1..], fs, args + [toks[0]], inFd, outFd, append, next);
      case Some(m) =>
        var rs := Parse(toks).redirects;
        assert rs != [] && rs[0].mode == m && rs[1..] == Parse(toks[2..]).redirects;
        LastFdCons(rs, true, inFd, next);
        LastFdCons(rs, false, outFd, next);
        LastAppendCons(rs, append);
        if m == Read {
          ResolveFromFds(toks[2..], fs, args, next, outFd, append, next + 1);
        } else {
          ResolveFromFds(toks[2..], fs, args, inFd, next, m == Append, next + 1);
        }
    }
  }

  /** On success the arguments are the non-redirection tokens in order, one
      descriptor was used per redirection, and the input and output
      descriptors are those of the last redirection in each direction. */
  lemma ResolveFromResult(toks: seq<string>, fs: FileSystem, args: seq<string>,
                          inFd: int, outFd: int, append: bool, next: int)
    requires ResolveFrom(toks, fs, args, inFd, outFd, append, next).Resolved?
    ensures var o := ResolveFrom(toks, fs, args, inFd, outFd, append, next);
            var rs := Parse(toks).redirects;
            o.args == args + Parse(toks).args && o.next == next + |rs| &&
            o.inFd == LastFd(rs, true, inFd, next) && o.outFd == LastFd(rs, false, outFd, next) &&
            o.append == LastAppend(rs, append)
  {
    ResolveFromArgs(toks, fs, args, inFd, outFd, append, next);
    ResolveFromFds(toks, fs, args, inFd, outFd, append, next);
  }

  /** Whatever the outcome, the resolver only allocates descriptors. */
  lemma {:induction false} ResolveFromNext(toks: seq<string>, fs: FileSystem, args: seq<string>,
                                           inFd: int, outFd: int, append: bool, next: int)
    ensures ResolveFrom(toks, fs, args, inFd, outFd, append, next).next >= next
    decreases |toks|
  {
    if toks != [] {
      match OperatorMode(toks[0])
      case None =>
        ResolveFromNext(toks[1..], fs, args + [toks[0]], inFd, outFd, append, next);
      case Some(m) =>
        if |toks| > 1 && CanOpen(fs, toks[1], m) {
          if m == Read {
            ResolveFromNext(toks[2..], fs, args, next, outFd, append, next + 1);
          } else {
            ResolveFromNext(toks[2..], fs, args, inFd, next, m == Append, next + 1);
          }
        }
    }
  }

  /** Removes the operator at `i` and the token after it, moving the tokens
      after them two places left and NULL-ing the two freed slots. */
  method RemovePair(tokens: array<Option<string>>, i: nat, ghost kept: seq<string>, ghost rest: seq<string>)
    requires Holds(tokens, kept + rest) && |kept| == i && 2 <= |rest|
    modifies tokens
    ensures Holds(tokens, kept + rest[2..])
  {
    ghost var n := |kept + rest|;
    ghost var after := kept + rest[2..];
    var j := i;
    while tokens[j + 2].Some?
      invariant i <= j <= n - 2
      invariant forall t :: 0 <= t < j ==> tokens[t] == Some(after[t])
      invariant forall t :: j <= t < tokens.Length ==> tokens[t] == old(tokens[t])
      decreases n - j
    {
      tokens[j] := tokens[j + 2];
      j := j + 1;
    }
    assert j == n - 2;
    tokens[j] := None;
    tokens[j + 1] := None;
  }

  /** Opens the file named after the operator at `i` and, when that
      succeeds, removes the operator and the file name from the array. */
  method OpenOperand(tokens: array<Option<string>>, i: nat, ghost kept: seq<string>, ghost rest: seq<string>,
                     mode: Mode, k: Kernel) returns (fd: int)
    requires Holds(tokens, kept + rest) && |kept| == i && 2 <= |rest| && tokens[i + 1] == Some(rest[1])
    requires k.Valid()
    modifies tokens, k`nextFd, k`open
    ensures k.Valid()
    ensures CanOpen(k.fs, rest[1], mode) ==>
              fd == old(k.nextFd) && k.nextFd == fd + 1 && k.open == old(k.open) + {fd} &&
              Holds(tokens, kept + rest[2..])
    ensures !CanOpen(k.fs, rest[1], mode) ==> fd == -1 && k.nextFd == old(k.nextFd) && k.open == old(k.open)
  {
    fd := k.Open(tokens[i + 1].value, mode);
    if fd >= 0 {
      RemovePair(tokens, i, kept, rest);
    }
  }

  /** The scan keeps a token that is not an operator as an argument. */
  lemma ResolveFromPlain(toks: seq<string>, fs: FileSystem, args: seq<string>,
                         inFd: int, outFd: int, append: bool, next: int)
    requires toks != [] && OperatorMode(toks[0]).None?
    ensures ResolveFrom(toks, fs, args, inFd, outFd, append, next) ==
            ResolveFrom(toks[1..], fs, args + [toks[0]], inFd, outFd, append, next)
  {
  }

  lemma FdRangeSnoc(from: int, fd: int)
    requires from <= fd
    ensures FdRange(from, fd + 1) == FdRange(from, fd) + {fd}
  {
  }

  lemma KeepFirst(kept: seq<string>, rest: seq<string>)
    requires rest != []
    ensures (kept + [rest[0]]) + rest[1..] == kept + rest
  {
    assert rest == [rest[0]] + rest[1..];
  }

  /** What the scan sees at slot `i` of an array holding `kept + rest`. */
  lemma Lookahead(tokens: array<Option<string>>, kept: seq<string>, rest: seq<string>)
    requires Holds(tokens, kept + rest) && rest != []
    ensures tokens[|kept|] == Some(rest[0])
    ensures tokens[|kept| + 1].Some? <==> |rest| > 1
    ensures |rest| > 1 ==> tokens[|kept| + 1] == Some(rest[1])
  {
    assert tokens[|kept|] == Some((kept + rest)[|kept|]);
    if |rest| > 1 {
      assert tokens[|kept| + 1] == Some((kept + rest)[|kept| + 1]);
    }
  }

  /** One operator of the scan, at slot `i` of an array holding
      `kept + rest`, when the scan is to end with `goal` and has opened the
      descriptors from `base` on: the scan fails when the operator is the
      last token or its file does not open; otherwise the file is opened,
      the operator and the file name leave the array, and the scan goes on
      with the descriptor recorded. */
  method Operand(tokens: array<Option<string>>, i: nat, ghost kept: seq<string>, ghost rest: seq<string>,
                 mode: Mode, k: Kernel, ghost inFd: int, ghost outFd: int, ghost append: bool,
                 ghost goal: Resolution, ghost start: set<int>, ghost base: int) returns (fd: int)
    requires Holds(tokens, kept + rest) && |kept| == i && rest != [] && OperatorMode(rest[0]) == Some(mode)
    requires k.Valid() && base <= k.nextFd && k.open == start + FdRange(base, k.nextFd)
    requires goal == ResolveFrom(rest, k.fs, kept, inFd, outFd, append, k.nextFd)
    modifies tokens, k`nextFd, k`open
    ensures k.Valid() && base <= k.nextFd && k.open == start + FdRange(base, k.nextFd)
    ensures fd < 0 ==> goal == Failed(k.nextFd)
    ensures 0 <= fd ==> 2 <= |rest| && k.nextFd == fd + 1 && Holds(tokens, kept + rest[2..]) &&
                        goal == if mode == Read then ResolveFrom(rest[2..], k.fs, kept, fd, outFd, append, k.nextFd)
                                else ResolveFrom(rest[2..], k.fs, kept, inFd, fd, mode == Append, k.nextFd)
  {
    Lookahead(tokens, kept, rest);
    if tokens[i + 1].None? {
      return -1;
    }
    fd := OpenOperand(tokens, i, kept, rest, mode, k);
    if 0 <= fd {
      FdRangeSnoc(base, fd);
    }
  }

  /** `handle_redirection_in_tokens`: returns 0 and leaves the remaining
      arguments in `tokens` when every operator has a file and every file
      opens, -1 otherwise; every successful `open` along the way stays open. */
  method HandleRedirectionInTokens(tokens: array<Option<string>>, ghost argv: seq<string>, k: Kernel)
    returns (rc: int, inFd: int, outFd: int, append: bool)
    requires Holds(tokens, argv) && k.Valid()
    modifies tokens, k`nextFd, k`open
    ensures k.Valid()
    ensures var o := Resolve(argv, k.fs, old(k.nextFd));
            k.nextFd == o.next && k.open == old(k.open) + FdRange(old(k.nextFd), o.next) &&
            (rc == 0 || rc == -1) && (rc == 0 <==> o.Resolved?) &&
            (o.Resolved? ==> Holds(tokens, o.args) && inFd == o.inFd && outFd == o.outFd && append == o.append)
  {
    inFd, outFd, append := -1, -1, false;
    ghost var kept: seq<string> := [];
    ghost var rest := argv;
    var i: int := 0;
    while tokens[i].Some?
      invariant 0 <= i == |kept| && Holds(tokens, kept + rest)
      invariant k.Valid() && old(k.nextFd) <= k.nextFd
      invariant k.open == old(k.open) + FdRange(old(k.nextFd), k.nextFd)
      invariant Resolve(argv, k.fs, old(k.nextFd)) == ResolveFrom(rest, k.fs, kept, inFd, outFd, append, k.nextFd)
      decreases |rest|
    {
      assert rest != [];
      Lookahead(tokens, kept, rest);
      var op := OperatorMode(tokens[i].value);
      if op == Some(Read) {
        var fd := Operand(tokens, i, kept, rest, Read, k, inFd, outFd, append,
                          Resolve(argv, k.fs, old(k.nextFd)), old(k.open), old(k.nextFd));
        if fd < 0 { return -1, inFd, outFd, append; }
        inFd := fd;
        rest := rest[2..];
        i := i - 1;  // look at the token moved into this slot
      } else if op.Some? {
        ghost var append0 := append;
        append := op.value == Append;
        var fd := Operand(tokens, i, kept, rest, op.value, k, inFd, outFd, append0,
                          Resolve(argv, k.fs, old(k.nextFd)), old(k.open), old(k.nextFd));
        if fd < 0 { return -1, inFd, outFd, append; }
        outFd := fd;
        rest := rest[2..];
        i := i - 1;
      } else {
        ResolveFromPlain(rest, k.fs, kept, inFd, outFd, append, k.nextFd);
        KeepFirst(kept, rest);
        kept := kept + [rest[0]];
        rest := rest[1..];
      }
      i := i + 1;
    }
    assert rest == [];
    assert kept + rest == kept;
    rc := 0;
  }
}
