/** The earlier shell (CP.c): `main`'s loop with its bounded history and
    `!n` recall, the builtins it runs itself, external commands with a
    trailing "&" and the first `>` or `<`, and pipelines of at most nine
    stages. As for the full shell, each operation is a method on the kernel
    and the history log specified by a function from the old world to the
    new one. */
module ShellCp {
  import opened Text
  import opened Numerals
  import opened Os
  import opened History
  import opened Plumbing

  const MaxHistory: nat := 100
  const MaxTokens: nat := 100
  /** `commands[10]` has room for nine stages and the NULL after them. */
  const MaxStages: nat := 9
  const Blanks := " \t\n"
  const Welcome := "Welcome to MyShell! Type 'exit' to quit."
  const Goodbye := "Exiting MyShell..."
  const NoEntryMessage := "No such command in history"
  const CdMissing := "cd: missing argument"
  const BackgroundNotice := "[Background] PID running..."

  /** What `execvp(args[0], args)` leads to: with a NULL name it fails and
      the child exits. */
  function Execvp(argv: seq<string>): (p: Program)
    ensures p.Abort? <==> argv == []
  {
    if argv == [] then Abort else Exec(argv)
  }

  // ----------------------------------------------------------------- builtins

  predicate IsBuiltin(name: string)
  {
    name in {"cd", "pwd", "echo", "history"}
  }

  /** `handle_builtin` on a non-empty argument vector: the new world and the
      value it returns. */
  function Builtin(w: World, args: seq<string>): (r: (World, int))
    requires args != []
    ensures r.1 == 0 || r.1 == 1
    ensures r.1 == 1 <==> IsBuiltin(args[0])
    ensures r.1 == 0 ==> r.0 == w
    ensures r.1 == 1 ==> r.0.builtins == w.builtins + [BuiltinRun(args, Inherit, Inherit)] &&
                         r.0.launches == w.launches && r.0.open == w.open
    ensures (r.0.console == w.console + [CdMissing]) <==> args == ["cd"]
  {
    if !IsBuiltin(args[0]) then (w, 0)
    else
      var v := w.(builtins := w.builtins + [BuiltinRun(args, Inherit, Inherit)]);
      if args[0] == "cd" && |args| == 1 then (v.(console := v.console + [CdMissing]), 1) else (v, 1)
  }

  // --------------------------------------------------------- external commands

  /** The operators the child of `execute_command` looks for. */
  function OperatorMode(tok: string): Option<Mode>
  {
    if tok == ">" then Some(Truncate) else if tok == "<" then Some(Read) else None
  }

  /** Position of the first `>` or `<` in `args`; `|args|` when there is none. */
  function FirstOperator(args: seq<string>): (j: nat)
    ensures j <= |args|
    ensures forall i :: 0 <= i < j ==> OperatorMode(args[i]).None?
    ensures j < |args| ==> OperatorMode(args[j]).Some?
  {
    if args == [] || OperatorMode(args[0]).Some? then 0 else 1 + FirstOperator(args[1..])
  }

  /** What the child of `execute_command` starts with. */
  datatype Setup = Setup(program: Program, stdin: Stream, stdout: Stream)

  /** The child's redirection: the first operator is honoured and the vector
      ends just before it; an operator without a file, or a file that does
      not open, makes the child exit. */
  function ChildSetup(fs: FileSystem, args: seq<string>): Setup
  {
    var j := FirstOperator(args);
    if j == |args| then Setup(Execvp(args), Inherit, Inherit)
    else
      var m := OperatorMode(args[j]).value;
      if j + 1 == |args| || !CanOpen(fs, args[j + 1], m) then Setup(Abort, Inherit, Inherit)
      else if m == Read then Setup(Execvp(args[..j]), File(args[j + 1], Read), Inherit)
      else Setup(Execvp(args[..j]), Inherit, File(args[j + 1], Truncate))
  }

  /** `execute_command`: a final "&" is dropped and asks for the background;
      one child is launched with the shell's descriptors; the shell waits for
      it or reports it; the value is always 1. */
  function External(w: World, fs: FileSystem, args: seq<string>): World
  {
    var (rest, background) := DropBackground(args);
    var s := ChildSetup(fs, rest);
    var v := w.(launches := w.launches + [Launch(0, s.program, s.stdin, s.stdout, w.open)]);
    if background then v.(console := v.console + [BackgroundNotice]) else v.(waits := v.waits + 1)
  }

  /** Only the first operator counts: the words before it are the argument
      vector, its file is the redirected stream, and whatever follows the
      file, other operators included, is ignored. */
  lemma FirstOperatorOnly(fs: FileSystem, before: seq<string>, op: string, path: string, after: seq<string>)
    requires forall i :: 0 <= i < |before| ==> OperatorMode(before[i]).None?
    requires OperatorMode(op).Some? && CanOpen(fs, path, OperatorMode(op).value)
    ensures var s := ChildSetup(fs, before + [op, path] + after);
            s.program == Execvp(before) &&
            s.stdin == (if op == "<" then File(path, Read) else Inherit) &&
            s.stdout == (if op == ">" then File(path, Truncate) else Inherit)
  {
    var args := before + [op, path] + after;
    assert args[|before|] == op && args[|before| + 1] == path;
    assert FirstOperator(args) == |before|;
    assert args[..|before|] == before;
  }

  /** Without an operator the child runs the whole vector with the shell's
      streams. */
  lemma NoOperator(fs: FileSystem, args: seq<string>)
    requires forall i :: 0 <= i < |args| ==> OperatorMode(args[i]).None?
    ensures ChildSetup(fs, args) == Setup(Execvp(args), Inherit, Inherit)
  {
  }

  /** A command ending in "&" launches the same child as without it, and
      the shell reports it instead of waiting. */
  lemma BackgroundCommand(w: World, fs: FileSystem, args: seq<string>)
    requires args == [] || args[|args| - 1] != "&"
    ensures var fg := External(w, fs, args);
            var bg := External(w, fs, args + ["&"]);
            var s := ChildSetup(fs, args);
            bg.launches == fg.launches == w.launches + [Launch(0, s.program, s.stdin, s.stdout, w.open)] &&
            bg.waits == w.waits && bg.console == w.console + [BackgroundNotice] &&
            fg.waits == w.waits + 1 && fg.console == w.console
  {
    assert DropBackground(args + ["&"]) == (args, true);
  }

  // ---------------------------------------------------------------- pipelines

  /** The words of each stage: one `tokenize_input` per '|' field; when the
      line has no field at all, `tokenize_input` gets the NULL in
      `commands[0]`, `strtok` resumes at the end of the line, and the single
      stage has no word. */
  function StageArgs(line: string): (A: seq<seq<string>>)
    ensures |A| == if Fields(line, "|") == [] then 1 else |Fields(line, "|")|
  {
    var F := Fields(line, "|");
    var C := if F == [] then [""] else F;
    seq(|C|, i requires 0 <= i < |C| => Take(Fields(C[i], Blanks), MaxTokens - 1))
  }

  /** The child of stage `i` of `n`, with pipes `P`: it reads the previous
      pipe unless it is the first stage and writes its own pipe unless it is
      the last; it holds what the shell held, less every pipe descriptor. */
  function StageLaunch(P: seq<(int, int)>, A: seq<seq<string>>, i: nat, held: set<int>): Launch
    requires |P| + 1 == |A| && i < |A|
  {
    Launch(i, Execvp(A[i]), if i != 0 then Fd(P[i - 1].0) else Inherit,
           if i < |A| - 1 then Fd(P[i].1) else Inherit, held)
  }

  /** The children of the first `i` stages, in order. */
  function StageLaunches(P: seq<(int, int)>, A: seq<seq<string>>, i: nat, held: set<int>): (ls: seq<Launch>)
    requires |P| + 1 == |A| && i <= |A|
    ensures |ls| == i
  {
    if i == 0 then [] else StageLaunches(P, A, i - 1, held) + [StageLaunch(P, A, i - 1, held)]
  }

  lemma {:induction false} StageLaunchesAt(P: seq<(int, int)>, A: seq<seq<string>>, i: nat, held: set<int>, m: nat)
    requires |P| + 1 == |A| && m < i <= |A|
    ensures StageLaunches(P, A, i, held)[m] == StageLaunch(P, A, m, held)
  {
    if m < i - 1 {
      StageLaunchesAt(P, A, i - 1, held, m);
    }
  }

  /** `execute_pipeline` on the stages `A`: one pipe fewer than stages, one
      child per stage, then the shell closes every pipe descriptor and waits
      once per stage. */
  function Piped(w: World, A: seq<seq<string>>): World
    requires A != []
  {
    var n := |A|;
    var v := Pipes(w, n - 1);
    var P := NewPipes(w, n - 1);
    var held := v.open - PipeFds(P);
    v.(open := held, launches := v.launches + StageLaunches(P, A, n, held), waits := v.waits + n)
  }

  /** `execute_pipeline` on a line. */
  function Pipeline(w: World, line: string): World
  {
    Piped(w, StageArgs(line))
  }

  /** A pipeline of `n` stages makes `n - 1` fresh pipes, launches `n`
      children with what the shell held before, and leaves the shell holding
      exactly what it held before, having waited `n` times. */
  lemma PipelineShape(w: World, A: seq<seq<string>>)
    requires A != [] && forall fd :: fd in w.open ==> fd < w.nextFd
    ensures var r := Piped(w, A);
            var P := NewPipes(w, |A| - 1);
            r.pipes == w.pipes + P && r.waits == w.waits + |A| && r.open == w.open &&
            PipeFds(P) == FdRange(w.nextFd, w.nextFd + 2 * (|A| - 1))
  {
    PipesKeep(w, |A| - 1);
    PipesHeld(w, |A| - 1);
  }

  /** The children of a pipeline come after those launched before it and
      hold what the shell held before it. */
  lemma PipelineLaunches(w: World, A: seq<seq<string>>)
    requires A != [] && forall fd :: fd in w.open ==> fd < w.nextFd
    ensures Piped(w, A).launches == w.launches + StageLaunches(NewPipes(w, |A| - 1), A, |A|, w.open)
  {
    PipesKeep(w, |A| - 1);
    PipesHeld(w, |A| - 1);
  }

  /** The child of stage `i` of the `|A|` stages runs the stage's words,
      reads the read end of pipe `i - 1` and writes the write end of pipe
      `i`; the first stage keeps the shell's input and the last its output,
      and it holds `held` and no pipe descriptor. */
  predicate Wired(l: Launch, P: seq<(int, int)>, A: seq<seq<string>>, i: nat, held: set<int>)
    requires |P| + 1 == |A| && i < |A|
  {
    l.stage == i && l.program == Execvp(A[i]) &&
    l.stdin == (if i == 0 then Inherit else Fd(P[i - 1].0)) &&
    l.stdout == (if i == |A| - 1 then Inherit else Fd(P[i].1)) &&
    l.openAtExec == held && held !! PipeFds(P)
  }

  /** Every child of a pipeline is wired to its neighbours through the new
      pipes and holds what the shell held before, which includes no pipe
      descriptor. */
  lemma PipelineWiring(w: World, A: seq<seq<string>>)
    requires A != [] && forall fd :: fd in w.open ==> fd < w.nextFd
    ensures var r := Piped(w, A);
            |r.launches| == |w.launches| + |A| && r.launches[..|w.launches|] == w.launches &&
            var L := r.launches[|w.launches|..];
            forall i :: 0 <= i < |A| ==> Wired(L[i], NewPipes(w, |A| - 1), A, i, w.open)
  {
    var n := |A|;
    var P := NewPipes(w, n - 1);
    PipelineShape(w, A);
    PipelineLaunches(w, A);
    FreshRange(w.open, w.nextFd, w.nextFd + 2 * (n - 1));
    var L := StageLaunches(P, A, n, w.open);
    var r := Piped(w, A);
    assert r.launches[|w.launches|..] == L;
    forall i | 0 <= i < n
      ensures Wired(L[i], P, A, i, w.open)
    {
      StageLaunchesAt(P, A, n, w.open, i);
    }
  }

  // ---------------------------------------------------------------- main loop

  /** A line `execute_pipeline` can take: at most nine '|' fields. */
  predicate Fits(line: string)
  {
    |Fields(line, "|")| <= MaxStages
  }

  /** The `!n` recall of `main`, against the history that already holds the
      raw input: the line to run, or none when the index is out of range. */
  function Expand(input: string, entries: seq<string>): (e: Option<string>)
    requires input != []
    ensures input[0] != '!' ==> e == Some(input)
    ensures e.Some? && input[0] == '!' ==> e.value in entries
  {
    if input[0] != '!' then Some(input)
    else
      var index := Atoi(input[1..]) - 1;
      if 0 <= index < |entries| then Some(entries[index]) else None
  }

  /** A line without '|': its words, and if there are any, a builtin or
      else an external command. */
  function Simple(w: World, fs: FileSystem, line: string): World
  {
    var args := Take(Fields(line, Blanks), MaxTokens - 1);
    if args == [] then w
    else
      var b := Builtin(w, args);
      if b.1 == 1 then b.0 else External(w, fs, args)
  }

  function Dispatch(w: World, fs: FileSystem, line: string): World
  {
    if '|' in line then Pipeline(w, line) else Simple(w, fs, line)
  }

  /** What `main` prints after the `!n` recall: the recalled line, or the
      message for an index out of range; nothing for other lines. */
  function Announced(w: World, input: string, e: Option<string>): World
    requires input != []
  {
    match e
    case None => w.(console := w.console + [NoEntryMessage])
    case Some(line) => if input[0] == '!' then w.(console := w.console + [line]) else w
  }

  /** One pass of `main`'s loop on the line read: the new world, the new
      history, and whether the shell leaves. */
  function Step(w: World, fs: FileSystem, entries: seq<string>, input: string): (r: (World, seq<string>, bool))
    requires |entries| <= MaxHistory
    ensures r.1 == if input == [] then entries else Oldest(entries + [input], MaxHistory)
    ensures r.2 <==> input == "exit"
    ensures |r.1| <= MaxHistory
  {
    if input == [] then (w, entries, false)
    else
      var h := Recorded(entries, input, MaxHistory);
      if input == "exit" then (w.(console := w.console + [Goodbye]), h, true)
      else
        var e := Expand(input, h);
        var v := Announced(w, input, e);
        if e.None? then (v, h, false) else (Dispatch(v, fs, e.value), h, false)
  }

  /** `!n` recalls the n-th line recorded, counting the `!n` line itself:
      an earlier line when `n` is at most the number recorded before it,
      and the raw `!n` text when it names its own slot, which it has only
      when the history was not full; a full history still recalls its 100
      lines. */
  lemma RecallNumbered(entries: seq<string>, n: nat)
    requires |entries| <= MaxHistory
    ensures var input := "!" + Decimal(n);
            var h := Recorded(entries, input, MaxHistory);
            (1 <= n <= |entries| ==> Expand(input, h) == Some(entries[n - 1])) &&
            (n == |entries| + 1 ==> Expand(input, h) == if |entries| < MaxHistory then Some(input) else None) &&
            (n == 0 || n > |entries| + 1 ==> Expand(input, h) == None)
  {
    var input := "!" + Decimal(n);
    assert input[1..] == Decimal(n);
    AtoiDecimal(n);
  }

  /** Only the literal line `exit` leaves the shell: a recalled `exit` is
      run as an external program. */
  lemma RecalledExit(w: World, fs: FileSystem, entries: seq<string>, n: nat)
    requires |entries| <= MaxHistory && 1 <= n <= |entries| && entries[n - 1] == "exit"
    ensures var r := Step(w, fs, entries, "!" + Decimal(n));
            !r.2 && r.0.launches == w.launches + [Launch(0, Exec(["exit"]), Inherit, Inherit, w.open)] &&
            r.0.waits == w.waits + 1
  {
    RecallNumbered(entries, n);
    var input := "!" + Decimal(n);
    assert input != "exit" by { assert input[0] == '!'; }
    FieldsOfJoin(["exit"], ' ', Blanks);
    assert Fields("exit", Blanks) == ["exit"] by {
      assert Join(["exit"], ' ') == "exit";
    }
    assert DropBackground(["exit"]) == (["exit"], false);
    NoOperator(fs, ["exit"]);
  }

  /** The pass of `main` over several lines until `exit` or the end of the
      input: the world, the history, and how many lines were read. */
  function Session(w: World, fs: FileSystem, entries: seq<string>, inputs: seq<string>): (r: (World, seq<string>, nat))
    requires |entries| <= MaxHistory
    ensures r.2 <= |inputs| && |r.1| <= MaxHistory
    decreases |inputs|
  {
    if inputs == [] then (w, entries, 0)
    else
      var s := Step(w, fs, entries, inputs[0]);
      if s.2 then (s.0, s.1, 1)
      else
        var t := Session(s.0, fs, s.1, inputs[1..]);
        (t.0, t.1, t.2 + 1)
  }

  /** The lines of `xs` that are not empty. */
  function NonEmpty(xs: seq<string>): (r: seq<string>)
    ensures "" !in r
  {
    if xs == [] then [] else (if xs[0] == "" then [] else [xs[0]]) + NonEmpty(xs[1..])
  }

  lemma {:induction false} NonEmptyAppend(xs: seq<string>, ys: seq<string>)
    ensures NonEmpty(xs + ys) == NonEmpty(xs) + NonEmpty(ys)
  {
    if xs != [] {
      assert (xs + ys)[0] == xs[0] && (xs + ys)[1..] == xs[1..] + ys;
      NonEmptyAppend(xs[1..], ys);
    } else {
      assert xs + ys == ys;
    }
  }

  /** The history after the first line and then `m` more is the history of
      all `m + 1` lines. */
  lemma NonEmptyThen(entries: seq<string>, inputs: seq<string>, m: nat, h1: seq<string>, h2: seq<string>)
    requires m < |inputs|
    requires h1 == Oldest(entries + NonEmpty(inputs[..1]), MaxHistory)
    requires h2 == Oldest(h1 + NonEmpty(inputs[1..][..m]), MaxHistory)
    ensures h2 == Oldest(entries + NonEmpty(inputs[..m + 1]), MaxHistory)
  {
    var head := NonEmpty(inputs[..1]);
    var later := NonEmpty(inputs[1..][..m]);
    assert NonEmpty(inputs[..m + 1]) == head + later by {
      assert inputs[..m + 1] == inputs[..1] + inputs[1..][..m];
      NonEmptyAppend(inputs[..1], inputs[1..][..m]);
    }
    OldestThen(entries, head, later);
  }

  lemma OldestThen(entries: seq<string>, head: seq<string>, later: seq<string>)
    ensures Oldest(Oldest(entries + head, MaxHistory) + later, MaxHistory) == Oldest(entries + (head + later), MaxHistory)
  {
    OldestOfOldest(entries + head, later, MaxHistory);
    assert entries + head + later == entries + (head + later);
  }

  /** After a session the history holds the first 100 non-empty lines
      read, in order, `!n` lines as typed. */
  lemma {:induction false} SessionHistory(w: World, fs: FileSystem, entries: seq<string>, inputs: seq<string>)
    requires |entries| <= MaxHistory
    ensures var r := Session(w, fs, entries, inputs);
            r.1 == Oldest(entries + NonEmpty(inputs[..r.2]), MaxHistory)
    decreases |inputs|
  {
    if inputs == [] {
      assert entries + [] == entries;
    } else {
      var s := Step(w, fs, entries, inputs[0]);
      assert NonEmpty(inputs[..1]) == if inputs[0] == "" then [] else [inputs[0]] by {
        assert inputs[..1][1..] == [];
      }
      assert s.1 == Oldest(entries + NonEmpty(inputs[..1]), MaxHistory);
      if !s.2 {
        SessionHistory(s.0, fs, s.1, inputs[1..]);
        var t := Session(s.0, fs, s.1, inputs[1..]);
        NonEmptyThen(entries, inputs, t.2, s.1, t.1);
      }
    }
  }

  // ------------------------------------------------------------------ methods

  /** `handle_builtin`. */
  method HandleBuiltin(args: array<Option<string>>, ghost argv: seq<string>, k: Kernel) returns (handled: int)
    requires Holds(args, argv) && argv != []
    modifies k`builtins, k`console
    ensures (k.State(), handled) == Builtin(old(k.State()), argv)
  {
    var name := args[0].value;
    if name == "cd" {
      var a := ArgvOf(args, argv);
      k.RunBuiltin(BuiltinRun(a, Inherit, Inherit));
      if args[1].None? {
        k.Say(CdMissing);
      }
      return 1;
    }
    if name == "pwd" || name == "echo" || name == "history" {
      var a := ArgvOf(args, argv);
      k.RunBuiltin(BuiltinRun(a, Inherit, Inherit));
      return 1;
    }
    return 0;
  }

  /** The child's scan of `execute_command` for the first `>` or `<`: it
      opens the file, puts NULL over the operator and stops. The child works
      on its own copy of `args`; the shell does not read `args` again. */
  method ChildRedirect(args: array<Option<string>>, ghost argv: seq<string>, fs: FileSystem) returns (s: Setup)
    requires Holds(args, argv)
    modifies args
    ensures s == ChildSetup(fs, argv)
  {
    var j := 0;
    ghost var first := FirstOperator(argv);
    while args[j].Some?
      invariant 0 <= j <= first && Holds(args, argv)
      decreases |argv| - j
    {
      var mode := OperatorMode(args[j].value);
      if mode.Some? {
        assert j == first;
        if args[j + 1].None? || !CanOpen(fs, args[j + 1].value, mode.value) {
          return Setup(Abort, Inherit, Inherit);
        }
        var path := args[j + 1].value;
        args[j] := None;
        assert Holds(args, argv[..j]);
        var a := ArgvOf(args, argv[..j]);
        if mode.value == Read {
          return Setup(Execvp(a), File(path, Read), Inherit);
        }
        return Setup(Execvp(a), Inherit, File(path, Truncate));
      }
      j := j + 1;
    }
    var a := ArgvOf(args, argv);
    s := Setup(Execvp(a), Inherit, Inherit);
  }

  /** `execute_command`; it always returns 1. */
  method ExecuteCommand(args: array<Option<string>>, ghost argv: seq<string>, k: Kernel) returns (rc: int)
    requires Holds(args, argv)
    modifies args, k`launches, k`waits, k`console
    ensures rc == 1 && k.State() == External(old(k.State()), k.fs, argv)
  {
    var background;
    ghost var rest;
    background, rest := StripBackground(args, argv);
    // the child
    var s := ChildRedirect(args, rest, k.fs);
    k.Spawn(Launch(0, s.program, s.stdin, s.stdout, k.open));
    // the shell
    if !background {
      k.Wait();
    } else {
      k.Say(BackgroundNotice);
    }
    rc := 1;
  }

  /** The '|' split of `execute_pipeline` into `commands`, NULL included;
      `n` counts the slots written, the NULL too, and the loop's condition
      writes a second NULL when the first `strtok` already found nothing. */
  method CollectStages(line: string) returns (commands: array<Option<string>>, n: nat)
    requires Fits(line)
    ensures commands.Length == MaxStages + 1 && Holds(commands, Fields(line, "|"))
    ensures n == if Fields(line, "|") == [] then 2 else |Fields(line, "|")| + 1
  {
    commands := new Option<string>[MaxStages + 1](_ => None);
    ghost var F := Fields(line, "|");
    var tok := Strtok(line, 0, "|");
    var cursor := 0;
    ghost var done: seq<string> := [];
    n := 0;
    while true
      invariant cursor <= |line| && tok == Strtok(line, cursor, "|")
      invariant F == done + FieldsFrom(line, cursor, "|")
      invariant n == |done| <= MaxStages
      invariant forall i :: 0 <= i < n ==> commands[i] == Some(done[i])
      decreases |line| - cursor
    {
      if tok.None? {
        break;
      }
      var w := tok.value.0;
      assert FieldsFrom(line, cursor, "|") == [w] + FieldsFrom(line, tok.value.1, "|");
      assert F == (done + [w]) + FieldsFrom(line, tok.value.1, "|");
      commands[n] := Some(w);
      done := done + [w];
      n := n + 1;
      cursor := tok.value.1;
      tok := Strtok(line, cursor, "|");
    }
    assert done == F;
    // the NULL ending the list, then the extra one when the list is empty
    commands[n] := None;
    n := n + 1;
    if n == 1 {
      commands[n] := None;
      n := n + 1;
    }
  }

  /** `tokenize_input(commands[i], " \t\n")` for stage `i`; on the empty
      list the NULL in `commands[0]` makes `strtok` resume at the end of the
      line, where it finds no word. */
  method StageTokens(commands: array<Option<string>>, ghost line: string, i: nat) returns (args: array<Option<string>>)
    requires Holds(commands, Fields(line, "|")) && i < |StageArgs(line)|
    ensures fresh(args) && Holds(args, StageArgs(line)[i])
  {
    ghost var F := Fields(line, "|");
    var text: string := "";
    if commands[i].Some? {
      text := commands[i].value;
    }
    assert text == (if F == [] then [""] else F)[i];
    args := TokenizeBounded(text, Blanks, MaxTokens);
  }

  /** The child of stage `i`: `dup2` of the write end in slot `j + 1`
      unless it is the last stage, of the read end in slot `j - 2` unless it
      is the first, then the loop that closes every slot of `pipefds`. */
  method StageChild(pipefds: array<int>, ghost P: seq<(int, int)>, numPipes: nat, i: nat, j: nat,
                    argv: seq<string>, ghost A: seq<seq<string>>, open: set<int>) returns (l: Launch)
    requires pipefds[..] == Ends(P) && |P| == numPipes && |A| == numPipes + 1
    requires i < |A| && j == 2 * i && argv == A[i]
    ensures l == StageLaunch(P, A, i, open - PipeFds(P))
  {
    var stdout := Inherit;
    if i < numPipes {
      EndsAt(P, i);
      stdout := Fd(pipefds[j + 1]);
    }
    var stdin := Inherit;
    if i != 0 {
      EndsAt(P, i - 1);
      stdin := Fd(pipefds[j - 2]);
    }
    var held := ChildCloseAll(open, pipefds, P);
    l := Launch(i, Execvp(argv), stdin, stdout, held);
  }

  /** The loop of `execute_pipeline` that forks one child per stage, with
      the pipe slot counter `j` two ahead of the stage. */
  method LaunchStages(commands: array<Option<string>>, ghost line: string, pipefds: array<int>,
                      ghost P: seq<(int, int)>, numPipes: nat, ghost held: set<int>, k: Kernel)
    requires Holds(commands, Fields(line, "|")) && |StageArgs(line)| == numPipes + 1
    requires pipefds[..] == Ends(P) && |P| == numPipes && held == k.open - PipeFds(P)
    modifies k`launches
    ensures k.launches == old(k.launches) + StageLaunches(P, StageArgs(line), numPipes + 1, held)
    ensures k.State() == old(k.State()).(launches := k.launches)
  {
    ghost var A := StageArgs(line);
    var j := 0;
    var i := 0;
    while i < numPipes + 1
      invariant 0 <= i <= numPipes + 1 && j == 2 * i
      invariant k.launches == old(k.launches) + StageLaunches(P, A, i, held)
    {
      var args := StageTokens(commands, line, i);
      var argv := ArgvOf(args, A[i]);
      var l := StageChild(pipefds, P, numPipes, i, j, argv, A, k.open);
      k.Spawn(l);
      j := j + 2;
      i := i + 1;
    }
  }

  /** `execute_pipeline`: `num_pipes = n - 2` pipes, one child per stage,
      then the shell's clean-up. */
  method ExecutePipeline(line: string, k: Kernel)
    requires k.Valid() && Fits(line)
    modifies k`nextFd, k`open, k`pipes, k`launches, k`waits
    ensures k.Valid() && k.State() == Pipeline(old(k.State()), line)
  {
    var commands, n := CollectStages(line);
    var numPipes := n - 2;
    assert |StageArgs(line)| == numPipes + 1;
    var pipefds := MakePipes(k, numPipes);
    ghost var P := k.pipes[|old(k.pipes)|..];
    ghost var v := k.State();
    assert P == NewPipes(old(k.State()), numPipes);
    ghost var held := v.open - PipeFds(P);
    LaunchStages(commands, line, pipefds, P, numPipes, held, k);
    CloseAll(k, pipefds, P);
    WaitTimes(k, numPipes + 1);
  }

  /** The `!n` branch of `main`: the recalled line, echoed, or the message
      for an index out of range; other lines pass through unechoed. */
  method RecallLine(input: string, h: HistoryLog, k: Kernel) returns (next: Option<string>)
    requires input != [] && h.Valid()
    modifies k`console
    ensures next == Expand(input, h.Entries())
    ensures k.State() == Announced(old(k.State()), input, next)
  {
    if input[0] == '!' {
      var index := Atoi(input[1..]) - 1;
      if 0 <= index < h.count {
        next := Some(h.slots[index]);
        k.Say(next.value);
      } else {
        next := None;
        k.Say(NoEntryMessage);
      }
    } else {
      next := Some(input);
    }
  }

  /** The dispatch of `main`: a line with '|' to `execute_pipeline`, any
      other to `tokenize_input`, then `handle_builtin` and, when that
      declines, `execute_command`. */
  method DispatchLine(line: string, k: Kernel)
    requires k.Valid() && Fits(line)
    modifies k`nextFd, k`open, k`pipes, k`launches, k`builtins, k`waits, k`console
    ensures k.Valid() && k.State() == Dispatch(old(k.State()), k.fs, line)
  {
    if '|' in line {
      ExecutePipeline(line, k);
    } else {
      var args := TokenizeBounded(line, Blanks, MaxTokens);
      ghost var argv := Take(Fields(line, Blanks), MaxTokens - 1);
      if args[0].Some? {
        var handled := HandleBuiltin(args, argv, k);
        if handled == 0 {
          var _ := ExecuteCommand(args, argv, k);
        }
      }
    }
  }

  /** One pass of `main`'s loop on the line `input` read from the terminal. */
  method RunInput(input: string, h: HistoryLog, k: Kernel) returns (leave: bool)
    requires h.Valid() && h.capacity == MaxHistory && k.Valid()
    requires Fits(input) && forall e :: e in h.Entries() ==> Fits(e)
    modifies h`count, h.slots, k`nextFd, k`open, k`pipes, k`launches, k`builtins, k`waits, k`console
    ensures h.Valid() && k.Valid()
    ensures (k.State(), h.Entries(), leave) == Step(old(k.State()), k.fs, old(h.Entries()), input)
  {
    if |input| == 0 {
      return false;
    }
    ghost var before := h.Entries();
    h.Record(input);
    if input == "exit" {
      k.Say(Goodbye);
      return true;
    }
    var next := RecallLine(input, h, k);
    if next.None? {
      return false;
    }
    if input[0] == '!' {
      OldestIn(before + [input], MaxHistory, next.value);
    }
    DispatchLine(next.value, k);
    leave := false;
  }

  /** The end of a session that has read `c` lines so far and is now in
      `w` with history `entries`. */
  function Resumed(w: World, fs: FileSystem, entries: seq<string>, inputs: seq<string>, c: nat): (World, seq<string>, nat)
    requires |entries| <= MaxHistory && c <= |inputs|
  {
    var t := Session(w, fs, entries, inputs[c..]);
    (t.0, t.1, t.2 + c)
  }

  /** One more line of a session: `Step` on it, then the rest. */
  lemma SessionAt(w: World, fs: FileSystem, entries: seq<string>, inputs: seq<string>, c: nat, s: (World, seq<string>, bool))
    requires |entries| <= MaxHistory && c < |inputs| && s == Step(w, fs, entries, inputs[c])
    ensures s.2 ==> Resumed(w, fs, entries, inputs, c) == (s.0, s.1, c + 1)
    ensures !s.2 ==> Resumed(w, fs, entries, inputs, c) == Resumed(s.0, fs, s.1, inputs, c + 1)
  {
    assert inputs[c..][0] == inputs[c] && inputs[c..][1..] == inputs[c + 1..];
  }

  /** Recording a line keeps every line of the history a pipeline of at
      most nine stages. */
  lemma RecordedFits(entries: seq<string>, input: string)
    requires Fits(input) && forall e :: e in entries ==> Fits(e)
    ensures forall e :: e in Oldest(entries + [input], MaxHistory) ==> Fits(e)
  {
    forall e | e in Oldest(entries + [input], MaxHistory)
      ensures Fits(e)
    {
      OldestIn(entries + [input], MaxHistory, e);
    }
  }

  /** One pass of the loop of `main`, on line `consumed` of the session
      that is to end as `whole`. */
  method SessionStep(inputs: seq<string>, consumed: nat, h: HistoryLog, k: Kernel,
                     ghost whole: (World, seq<string>, nat)) returns (leave: bool)
    requires consumed < |inputs| && h.Valid() && h.capacity == MaxHistory && k.Valid()
    requires forall e :: e in h.Entries() ==> Fits(e)
    requires forall x :: x in inputs ==> Fits(x)
    requires whole == Resumed(k.State(), k.fs, h.Entries(), inputs, consumed)
    modifies h`count, h.slots, k`nextFd, k`open, k`pipes, k`launches, k`builtins, k`waits, k`console
    ensures h.Valid() && k.Valid() && forall e :: e in h.Entries() ==> Fits(e)
    ensures leave ==> whole == (k.State(), h.Entries(), consumed + 1)
    ensures !leave ==> whole == Resumed(k.State(), k.fs, h.Entries(), inputs, consumed + 1)
  {
    ghost var w := k.State();
    ghost var entries := h.Entries();
    var input := inputs[consumed];
    leave := RunInput(input, h, k);
    ghost var s := (k.State(), h.Entries(), leave);
    SessionAt(w, k.fs, entries, inputs, consumed, s);
    if input != [] {
      RecordedFits(entries, input);
    }
  }

  /** `main`: the welcome line, then one pass per line read until `exit` or
      the end of the input. */
  method RunSession(inputs: seq<string>, h: HistoryLog, k: Kernel) returns (consumed: nat)
    requires h.Valid() && h.capacity == MaxHistory && k.Valid()
    requires forall e :: e in h.Entries() ==> Fits(e)
    requires forall x :: x in inputs ==> Fits(x)
    modifies h`count, h.slots, k`nextFd, k`open, k`pipes, k`launches, k`builtins, k`waits, k`console
    ensures h.Valid() && k.Valid()
    ensures var w := old(k.State()).(console := old(k.console) + [Welcome]);
            (k.State(), h.Entries(), consumed) == Session(w, k.fs, old(h.Entries()), inputs)
  {
    k.Say(Welcome);
    ghost var whole := Session(k.State(), k.fs, h.Entries(), inputs);
    assert inputs[0..] == inputs;
    consumed := 0;
    while consumed < |inputs|
      invariant consumed <= |inputs| && h.Valid() && h.capacity == MaxHistory && k.Valid()
      invariant forall e :: e in h.Entries() ==> Fits(e)
      invariant whole == Resumed(k.State(), k.fs, h.Entries(), inputs, consumed)
      decreases |inputs| - consumed
    {
      var leave := SessionStep(inputs, consumed, h, k, whole);
      consumed := consumed + 1;
      if leave {
        return;
      }
    }
  }
}
