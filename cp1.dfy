/** The full shell's command engine (CP_1.c): history expansion and exit
    detection in `execute_line`, the builtin classifier, a command run in the
    shell itself or in one child, and pipelines of up to 63 stages wired
    through `pipe`. Each operation is a method on the kernel and the history
    log, specified by a function from the old world to the new one; the
    properties the shell promises are lemmas about those functions. */
module ShellCp1 {
  import opened Text
  import opened Numerals
  import opened Os
  import opened History
  import opened Redirection
  import opened Plumbing

  const MaxHistory: nat := 1000
  const MaxTokens: nat := 256
  const MaxCommands: nat := 64
  /** The delimiters between the words of a command. */
  const Blanks := " \t\n"
  const SyntaxError := "Redirection syntax error"
  const BackgroundNotice := "[Background] pipeline launched"
  const NoHistoryMessage := "No history"
  const NoEntryMessage := "No such command in history"

  // ----------------------------------------------------------------- builtins

  /** `is_builtin`: a NULL name is not a builtin. */
  predicate IsBuiltin(cmd: Option<string>)
  {
    cmd.Some? && cmd.value in {"cd", "pwd", "echo", "exit", "history"}
  }

  /** What a pipeline child runs: `handle_builtin_child` takes every builtin
      but `exit`, which falls through to `execvp`; a stage without words
      reaches `execvp` with a NULL name, which fails. */
  function ChildProgram(args: seq<string>): (p: Program)
    ensures p.ChildBuiltin? <==> args != [] && args[0] in {"cd", "pwd", "echo", "history"}
    ensures p.Abort? <==> args == []
    ensures p.Exec? ==> p.argv == args && !(args[0] in {"cd", "pwd", "echo", "history"})
    ensures p.ChildBuiltin? ==> p.args == args
  {
    if args == [] then Abort
    else if IsBuiltin(Some(args[0])) && args[0] != "exit" then ChildBuiltin(args)
    else Exec(args)
  }

  // -------------------------------------------------------- history expansion

  /** What the history expander makes of a trimmed line: the line itself, a
      recalled entry, or one of its two errors. */
  datatype Expansion = Plain | Recalled(line: string) | NoHistory | NoSuchEntry

  /** `!!` (any line whose first two characters are `!`) recalls the newest
      entry; any other line starting with `!` recalls the entry numbered by
      `atoi` of the rest, counting from 1. */
  function ExpandHistory(line: string, entries: seq<string>): (e: Expansion)
    ensures e.Plain? <==> line == [] || line[0] != '!'
    ensures e.NoHistory? <==> 2 <= |line| && line[0] == '!' && line[1] == '!' && entries == []
    ensures e.Recalled? ==> e.line in entries
    ensures 2 <= |line| && line[..2] == "!!" && entries != [] ==> e == Recalled(entries[|entries| - 1])
  {
    if line == [] || line[0] != '!' then Plain
    else if 2 <= |line| && line[1] == '!' then
      if entries == [] then NoHistory else Recalled(entries[|entries| - 1])
    else
      var idx := Atoi(line[1..]) - 1;
      if idx < 0 || idx >= |entries| then NoSuchEntry else Recalled(entries[idx])
  }

  /** The line `execute_line` goes on to record and run, if any. */
  function ExpandedLine(t: string, entries: seq<string>): Option<string>
  {
    match ExpandHistory(t, entries)
    case Plain => Some(t)
    case Recalled(line) => Some(line)
    case NoHistory => None
    case NoSuchEntry => None
  }

  // --------------------------------------------------------- single commands

  /** `execute_simple_command` with the remaining arguments `args`: nothing
      for an empty vector; a builtin runs in the shell with its streams
      swapped in, and returns 1 except for `exit`, which returns 0; anything
      else is launched with the shell's descriptors and waited for unless in
      the background. */
  function SimpleCommand(w: World, args: seq<string>, inFd: int, outFd: int, background: bool): (r: (World, int))
    ensures r.1 == 0 || r.1 == 1
    ensures r.1 == 1 <==> args != [] && args[0] in {"cd", "pwd", "echo", "history"}
    ensures args == [] ==> r.0 == w
    ensures args != [] && IsBuiltin(Some(args[0])) ==>
              r.0.launches == w.launches && r.0.waits == w.waits &&
              r.0.builtins == w.builtins + [BuiltinRun(args, Override(inFd), Override(outFd))]
    ensures args != [] && !IsBuiltin(Some(args[0])) ==>
              r.0.builtins == w.builtins && r.0.waits == w.waits + (if background then 0 else 1) &&
              r.0.launches == w.launches + [Launch(0, Exec(args), Override(inFd), Override(outFd), w.open)]
    ensures r.0.open == w.open && r.0.nextFd == w.nextFd && r.0.pipes == w.pipes && r.0.console == w.console
  {
    if args == [] then (w, 0)
    else if IsBuiltin(Some(args[0])) then
      (w.(builtins := w.builtins + [BuiltinRun(args, Override(inFd), Override(outFd))]),
       if args[0] == "exit" then 0 else 1)
    else
      (w.(launches := w.launches + [Launch(0, Exec(args), Override(inFd), Override(outFd), w.open)],
          waits := if background then w.waits else w.waits + 1), 0)
  }

  /** A command outside a pipeline, from its word list: a final "&" is
      dropped and sets the background flag, the redirections are resolved
      (a failure is reported and nothing runs), the command runs, and the
      shell closes the two descriptors it handed over. */
  function Command(w: World, fs: FileSystem, toks: seq<string>, background: bool): (World, int)
  {
    var d := DropBackground(toks);
    match Resolve(d.0, fs, w.nextFd)
    case Failed(next) => (Opened(w, next).(console := w.console + [SyntaxError]), 0)
    case Resolved(args, inFd, outFd, _, next) =>
      var r := SimpleCommand(Opened(w, next), args, inFd, outFd, background || d.1);
      (r.0.(open := Closed(Closed(r.0.open, inFd), outFd)), r.1)
  }

  // ---------------------------------------------------------------- pipelines

  function TrimAll(parts: seq<string>): (r: seq<string>)
    ensures |r| == |parts|
  {
    seq(|parts|, i requires 0 <= i < |parts| => Trimmed(parts[i]))
  }

  lemma TrimAllSnoc(parts: seq<string>, p: string)
    ensures TrimAll(parts + [p]) == TrimAll(parts) + [Trimmed(p)]
  {
  }

  /** The stages of a pipeline line: its '|'-separated parts, at most 63,
      each trimmed. */
  function Parts(line: string): seq<string>
  {
    TrimAll(Take(Fields(line, "|"), MaxCommands - 1))
  }

  /** The words of stage `i`; only the last stage loses a final "&". */
  function StageTokens(cmds: seq<string>, i: nat): seq<string>
    requires i < |cmds|
  {
    var toks := Take(Fields(cmds[i], Blanks), MaxTokens - 1);
    if i == |cmds| - 1 then DropBackground(toks).0 else toks
  }

  /** The words of every stage. */
  function StageWords(cmds: seq<string>): (T: seq<seq<string>>)
    ensures |T| == |cmds|
  {
    seq(|cmds|, i requires 0 <= i < |cmds| => StageTokens(cmds, i))
  }

  /** Whether the pipeline runs in the background: the caller said so, or
      the last stage ends with "&". */
  function PipelineBackground(cmds: seq<string>, isBackground: bool): bool
    requires cmds != []
  {
    isBackground || DropBackground(Take(Fields(cmds[|cmds| - 1], Blanks), MaxTokens - 1)).1
  }

  /** The child's standard input: the read end of the previous pipe, or for
      the first stage its own input redirection. */
  function StageStdin(P: seq<(int, int)>, i: nat, inFd: int): Stream
    requires i <= |P|
  {
    if i != 0 then Fd(P[i - 1].0) else Override(inFd)
  }

  /** The child's standard output: the write end of its own pipe, or for the
      last stage its own output redirection. */
  function StageStdout(P: seq<(int, int)>, n: nat, i: nat, outFd: int): Stream
    requires |P| + 1 == n && i < n
  {
    if i != n - 1 then Fd(P[i].1) else Override(outFd)
  }

  /** Stage `i` of `n`: its redirections are resolved (a failure is reported
      and the stage is skipped); the child gets its pipe ends or
      redirections, closes every pipe descriptor and both redirection
      descriptors, and runs its program; the shell closes the redirection
      descriptors. */
  function Stage(w: World, fs: FileSystem, P: seq<(int, int)>, n: nat, i: nat, toks: seq<string>): World
    requires |P| + 1 == n && i < n
  {
    match Resolve(toks, fs, w.nextFd)
    case Failed(next) => Opened(w, next).(console := w.console + [SyntaxError])
    case Resolved(args, inFd, outFd, _, next) =>
      var v := Opened(w, next);
      var held := Closed(Closed(v.open - PipeFds(P), inFd), outFd);
      var l := Launch(i, ChildProgram(args), StageStdin(P, i, inFd), StageStdout(P, n, i, outFd), held);
      v.(open := Closed(Closed(v.open, inFd), outFd), launches := v.launches + [l])
  }

  /** The first `i` stages, in order, of the stages whose words are `T`. */
  function Stages(w: World, fs: FileSystem, P: seq<(int, int)>, T: seq<seq<string>>, i: nat): World
    requires |P| + 1 == |T| && i <= |T|
  {
    if i == 0 then w else Stage(Stages(w, fs, P, T, i - 1), fs, P, |T|, i - 1, T[i - 1])
  }

  /** `execute_pipeline`: no stage does nothing; one stage runs as a command;
      otherwise `n - 1` pipes are made, the stages run in order, the shell
      closes every pipe descriptor and then waits `n` times, or reports the
      pipeline as running in the background. */
  function Pipeline(w: World, fs: FileSystem, line: string, isBackground: bool): World
  {
    var cmds := Parts(line);
    if |cmds| == 0 then w
    else if |cmds| == 1 then Command(w, fs, Take(Fields(cmds[0], Blanks), MaxTokens - 1), isBackground).0
    else Piped(w, fs, cmds, isBackground)
  }

  /** A pipeline of two or more stages. */
  function Piped(w: World, fs: FileSystem, cmds: seq<string>, isBackground: bool): World
    requires 2 <= |cmds|
  {
    var v := Pipes(w, |cmds| - 1);
    var P := NewPipes(w, |cmds| - 1);
    Finished(Stages(v, fs, P, StageWords(cmds), |cmds|), P, |cmds|, PipelineBackground(cmds, isBackground))
  }

  /** The end of a pipeline of `n` stages: the shell closes every pipe
      descriptor, then waits `n` times or reports the background pipeline. */
  function Finished(u: World, P: seq<(int, int)>, n: nat, background: bool): World
  {
    u.(open := u.open - PipeFds(P),
       waits := if background then u.waits else u.waits + n,
       console := if background then u.console + [BackgroundNotice] else u.console)
  }

  // --------------------------------------------------------------- a line

  /** What the shell prints while expanding: the recalled line, or the
      message for a failed recall. */
  function Echoed(w: World, e: Expansion): World
  {
    match e
    case Plain => w
    case Recalled(line) => w.(console := w.console + [line])
    case NoHistory => w.(console := w.console + [NoHistoryMessage])
    case NoSuchEntry => w.(console := w.console + [NoEntryMessage])
  }

  /** `execute_line` on the text `text`, with history `entries`: the new
      world, the new history and the return code. */
  function Line(w: World, fs: FileSystem, entries: seq<string>, text: string): (r: (World, seq<string>, int))
    requires |entries| <= MaxHistory
  {
    var t := Trimmed(text);
    if t == [] then (w, entries, 0)
    else
      var v := Echoed(w, ExpandHistory(t, entries));
      match ExpandedLine(t, entries)
      case None => (v, entries, 0)
      case Some(line) => Run(v, fs, entries, line)
  }

  /** A line returns 2, the request to leave the shell, exactly when the line
      it expands to has no '|' and starts with the word `exit`, and returns 0
      otherwise; the history gains the expanded line, or stays as it was when
      the line is blank or its expansion fails. */
  lemma LineOutcome(w: World, fs: FileSystem, entries: seq<string>, text: string)
    requires |entries| <= MaxHistory
    ensures var r := Line(w, fs, entries, text);
            var t := Trimmed(text);
            var e := if t == [] then None else ExpandedLine(t, entries);
            (r.2 == 0 || r.2 == 2) &&
            r.1 == (if e.Some? then Appended(entries, e.value, MaxHistory) else entries) &&
            (r.2 == 2 <==> e.Some? && '|' !in e.value && Fields(e.value, Blanks) != [] &&
                           Fields(e.value, Blanks)[0] == "exit")
  {
  }

  /** The rest of `execute_line` once `line` is known: it is recorded, then
      run as a pipeline if it contains '|', otherwise as a command unless its
      first word is `exit`. */
  function Run(w: World, fs: FileSystem, entries: seq<string>, line: string): (r: (World, seq<string>, int))
    requires |entries| <= MaxHistory
    ensures r.1 == Appended(entries, line, MaxHistory)
    ensures r.2 == 2 <==> '|' !in line && Fields(line, Blanks) != [] && Fields(line, Blanks)[0] == "exit"
    ensures r.2 == 0 || r.2 == 2
  {
    var h := Appended(entries, line, MaxHistory);
    var background := line != [] && line[|line| - 1] == '&';
    if '|' in line then (Pipeline(w, fs, line, background), h, 0)
    else
      var toks := Take(Fields(line, Blanks), MaxTokens - 1);
      if toks == [] then (w, h, 0)
      else if toks[0] == "exit" then (w, h, 2)
      else (Command(w, fs, toks, background).0, h, 0)
  }

  // --------------------------------------------------------------- properties

  /** `!n` recalls the n-th entry, counting from 1, and any other number is
      rejected. */
  lemma RecallNumbered(n: nat, entries: seq<string>)
    ensures 1 <= n <= |entries| ==> ExpandHistory("!" + Decimal(n), entries) == Recalled(entries[n - 1])
    ensures !(1 <= n <= |entries|) ==> ExpandHistory("!" + Decimal(n), entries) == NoSuchEntry
  {
    var line := "!" + Decimal(n);
    assert line[1..] == Decimal(n);
    AtoiDecimal(n);
    assert IsDigit(line[1]);
  }

  /** After a line has been run, `!!` recalls it. */
  lemma RecallLast(w: World, fs: FileSystem, entries: seq<string>, line: string)
    requires |entries| <= MaxHistory && line != ""
    ensures ExpandHistory("!!", Run(w, fs, entries, line).1) == Recalled(line)
  {
  }

  /** Whether the words of a command resolve: no operator lacks its file and
      every file opens. */
  predicate Launchable(fs: FileSystem, toks: seq<string>)
  {
    !Parse(toks).dangling && forall r :: r in Parse(toks).redirects ==> CanOpen(fs, r.path, r.mode)
  }

  /** A command whose redirections resolve ends the resolver with the
      parsed arguments, the descriptors of its last input and last output
      redirection, and one descriptor used per redirection. */
  lemma CommandResolves(w: World, fs: FileSystem, toks: seq<string>)
    requires Launchable(fs, DropBackground(toks).0)
    ensures var p := Parse(DropBackground(toks).0);
            var o := Resolve(DropBackground(toks).0, fs, w.nextFd);
            o.Resolved? && o.args == p.args && o.inFd == LastFd(p.redirects, true, -1, w.nextFd) &&
            o.outFd == LastFd(p.redirects, false, -1, w.nextFd) && o.next == w.nextFd + |p.redirects|
  {
    var d := DropBackground(toks);
    ResolveFromSucceeds(d.0, fs, [], -1, -1, false, w.nextFd);
    ResolveFromResult(d.0, fs, [], -1, -1, false, w.nextFd);
    assert [] + Parse(d.0).args == Parse(d.0).args;
  }

  /** A command whose redirections do not resolve only reports the syntax
      error: nothing runs. */
  lemma CommandFails(w: World, fs: FileSystem, toks: seq<string>, background: bool)
    requires !Launchable(fs, DropBackground(toks).0)
    ensures var r := Command(w, fs, toks, background).0;
            r.launches == w.launches && r.builtins == w.builtins && r.console == w.console + [SyntaxError]
  {
    ResolveFromSucceeds(DropBackground(toks).0, fs, [], -1, -1, false, w.nextFd);
  }

  /** Whatever a command does, the shell keeps every descriptor it held
      and makes no pipe. */
  lemma CommandKeeps(w: World, fs: FileSystem, toks: seq<string>, background: bool)
    requires forall fd :: fd in w.open ==> fd < w.nextFd
    ensures var r := Command(w, fs, toks, background).0;
            w.open <= r.open && r.pipes == w.pipes
  {
    var d := DropBackground(toks);
    var o := Resolve(d.0, fs, w.nextFd);
    if Launchable(fs, d.0) {
      CommandResolves(w, fs, toks);
      CommandRuns(w, fs, toks, background, o.args, o.inFd, o.outFd, o.next);
    } else {
      ResolveFromSucceeds(d.0, fs, [], -1, -1, false, w.nextFd);
      assert Command(w, fs, toks, background).0 == Opened(w, o.next).(console := w.console + [SyntaxError]);
    }
  }

  /** A command with redirections only runs nothing. */
  lemma CommandEmpty(w: World, fs: FileSystem, toks: seq<string>, background: bool)
    requires forall fd :: fd in w.open ==> fd < w.nextFd
    requires Launchable(fs, DropBackground(toks).0) && Parse(DropBackground(toks).0).args == []
    ensures var r := Command(w, fs, toks, background).0;
            r.launches == w.launches && r.builtins == w.builtins
  {
    var o := Resolve(DropBackground(toks).0, fs, w.nextFd);
    CommandResolves(w, fs, toks);
    CommandRuns(w, fs, toks, background, o.args, o.inFd, o.outFd, o.next);
  }

  /** A builtin runs once in the shell, its input and output being the
      descriptors of its last input and last output redirection. */
  lemma CommandBuiltin(w: World, fs: FileSystem, toks: seq<string>, background: bool)
    requires forall fd :: fd in w.open ==> fd < w.nextFd
    requires var p := Parse(DropBackground(toks).0);
             Launchable(fs, DropBackground(toks).0) && p.args != [] && IsBuiltin(Some(p.args[0]))
    ensures var p := Parse(DropBackground(toks).0);
            var r := Command(w, fs, toks, background).0;
            r.launches == w.launches &&
            r.builtins == w.builtins + [BuiltinRun(p.args, Override(LastFd(p.redirects, true, -1, w.nextFd)),
                                                   Override(LastFd(p.redirects, false, -1, w.nextFd)))]
  {
    var o := Resolve(DropBackground(toks).0, fs, w.nextFd);
    CommandResolves(w, fs, toks);
    CommandRuns(w, fs, toks, background, o.args, o.inFd, o.outFd, o.next);
  }

  /** Any other command is launched once, with the descriptors of its last
      input and last output redirection as its streams and holding every
      descriptor the shell holds, the redirection ones included; the shell
      waits for it unless it runs in the background. */
  lemma CommandExternal(w: World, fs: FileSystem, toks: seq<string>, background: bool)
    requires forall fd :: fd in w.open ==> fd < w.nextFd
    requires var p := Parse(DropBackground(toks).0);
             Launchable(fs, DropBackground(toks).0) && p.args != [] && !IsBuiltin(Some(p.args[0]))
    ensures var d := DropBackground(toks);
            var p := Parse(d.0);
            var r := Command(w, fs, toks, background).0;
            r.builtins == w.builtins &&
            r.launches == w.launches + [Launch(0, Exec(p.args), Override(LastFd(p.redirects, true, -1, w.nextFd)),
                                               Override(LastFd(p.redirects, false, -1, w.nextFd)),
                                               w.open + FdRange(w.nextFd, w.nextFd + |p.redirects|))] &&
            r.waits == w.waits + (if background || d.1 then 0 else 1)
  {
    var o := Resolve(DropBackground(toks).0, fs, w.nextFd);
    CommandResolves(w, fs, toks);
    CommandRuns(w, fs, toks, background, o.args, o.inFd, o.outFd, o.next);
  }

  /** A command whose redirections resolve to the arguments `args` and the
      descriptors `inFd` and `outFd`: it runs `args` with those descriptors,
      and the shell keeps what it held. */
  lemma CommandRuns(w: World, fs: FileSystem, toks: seq<string>, background: bool,
                    args: seq<string>, inFd: int, outFd: int, next: int)
    requires var o := Resolve(DropBackground(toks).0, fs, w.nextFd);
             o.Resolved? && o.args == args && o.inFd == inFd && o.outFd == outFd && o.next == next
    requires forall fd :: fd in w.open ==> fd < w.nextFd
    requires (inFd == -1 || w.nextFd <= inFd) && (outFd == -1 || w.nextFd <= outFd)
    ensures var r := Command(w, fs, toks, background).0;
            w.open <= r.open && r.pipes == w.pipes &&
            (args == [] ==> r.launches == w.launches && r.builtins == w.builtins) &&
            (args != [] && IsBuiltin(Some(args[0])) ==>
               r.launches == w.launches && r.builtins == w.builtins + [BuiltinRun(args, Override(inFd), Override(outFd))]) &&
            (args != [] && !IsBuiltin(Some(args[0])) ==>
               r.builtins == w.builtins &&
               r.launches == w.launches + [Launch(0, Exec(args), Override(inFd), Override(outFd), w.open + FdRange(w.nextFd, next))] &&
               r.waits == w.waits + (if background || DropBackground(toks).1 then 0 else 1))
  {
    var v := Opened(w, next);
    var s := SimpleCommand(v, args, inFd, outFd, background || DropBackground(toks).1);
    var r := Command(w, fs, toks, background).0;
    assert r == s.0.(open := Closed(Closed(s.0.open, inFd), outFd));
    assert s.0.open == v.open;
  }

  /** How stage `stage` of a pipeline is wired when it starts in the world
      `v`: the previous pipe's read end as input and its own pipe's write end
      as output, except that the first stage reads the descriptor of its last
      `<` and the last stage writes the descriptor of its last `>` or `>>`
      (its redirections take descriptors from `v.nextFd` on, in order); the
      child holds what the shell held and the stage's redirection
      descriptors, less every pipe descriptor and the two descriptors of its
      last `<` and last `>`; and it runs the program its words name. */
  predicate Wired(l: Launch, P: seq<(int, int)>, T: seq<seq<string>>, v: World)
    requires |P| + 1 == |T|
  {
    l.stage < |T| &&
    var rs := Parse(T[l.stage]).redirects;
    var inFd := LastFd(rs, true, -1, v.nextFd);
    var outFd := LastFd(rs, false, -1, v.nextFd);
    l.program == ChildProgram(Parse(T[l.stage]).args) &&
    l.stdin == (if l.stage != 0 then Fd(P[l.stage - 1].0) else Override(inFd)) &&
    l.stdout == (if l.stage != |T| - 1 then Fd(P[l.stage].1) else Override(outFd)) &&
    l.openAtExec == Closed(Closed((v.open + FdRange(v.nextFd, v.nextFd + |rs|)) - PipeFds(P), inFd), outFd) &&
    l.openAtExec !! PipeFds(P)
  }

  /** `after` is `before` followed by one launch per stage listed in `S`,
      in that order, each wired as its stage requires in the world where it
      starts: `w` after the stages before it. */
  predicate LaunchedInOrder(before: seq<Launch>, after: seq<Launch>, S: seq<nat>,
                            w: World, fs: FileSystem, P: seq<(int, int)>, T: seq<seq<string>>)
    requires |P| + 1 == |T|
  {
    |after| == |before| + |S| && after[..|before|] == before &&
    forall j :: 0 <= j < |S| ==>
      S[j] < |T| && after[|before| + j].stage == S[j] && Wired(after[|before| + j], P, T, Stages(w, fs, P, T, S[j]))
  }

  /** The stages among the first `i` whose words resolve, in order. */
  function StagesOf(fs: FileSystem, T: seq<seq<string>>, i: nat): (r: seq<nat>)
    requires i <= |T|
    ensures forall j :: 0 <= j < |r| ==> r[j] < i
  {
    if i == 0 then []
    else StagesOf(fs, T, i - 1) + (if Launchable(fs, T[i - 1]) then [i - 1] else [])
  }

  /** One stage leaves every descriptor the shell held open, opens only
      fresh ones, and touches neither the pipes nor the wait count. */
  lemma StageKeepsOpen(v: World, fs: FileSystem, P: seq<(int, int)>, T: seq<seq<string>>, i: nat)
    requires |P| + 1 == |T| && i < |T|
    requires forall fd :: fd in v.open ==> fd < v.nextFd
    ensures var r := Stage(v, fs, P, |T|, i, T[i]);
            v.nextFd <= r.nextFd && (forall fd :: fd in r.open ==> fd < r.nextFd) && v.open <= r.open &&
            r.pipes == v.pipes && r.waits == v.waits
  {
    var toks := T[i];
    ResolveFromNext(toks, fs, [], -1, -1, false, v.nextFd);
    var o := Resolve(toks, fs, v.nextFd);
    if o.Resolved? {
      ResolveFromResult(toks, fs, [], -1, -1, false, v.nextFd);
      assert o.inFd == -1 || v.nextFd <= o.inFd;
      assert o.outFd == -1 || v.nextFd <= o.outFd;
    }
  }

  /** One stage launches one correctly wired child exactly when its words
      resolve. */
  lemma StageFacts(w: World, fs: FileSystem, P: seq<(int, int)>, T: seq<seq<string>>, i: nat)
    requires |P| + 1 == |T| && i < |T| && 0 <= Stages(w, fs, P, T, i).nextFd
    ensures LaunchedInOrder(Stages(w, fs, P, T, i).launches, Stages(w, fs, P, T, i + 1).launches,
                            if Launchable(fs, T[i]) then [i] else [], w, fs, P, T)
  {
    var v := Stages(w, fs, P, T, i);
    var toks := T[i];
    ResolveFromSucceeds(toks, fs, [], -1, -1, false, v.nextFd);
    var o := Resolve(toks, fs, v.nextFd);
    var r := Stages(w, fs, P, T, i + 1);
    assert r == Stage(v, fs, P, |T|, i, toks);
    if o.Resolved? {
      ResolveFromResult(toks, fs, [], -1, -1, false, v.nextFd);
      assert o.args == Parse(toks).args;
      var held := Closed(Closed(Opened(v, o.next).open - PipeFds(P), o.inFd), o.outFd);
      var l := Launch(i, ChildProgram(o.args), StageStdin(P, i, o.inFd), StageStdout(P, |T|, i, o.outFd), held);
      assert r.launches == v.launches + [l];
      StageWired(v, P, T, i, o.args, o.inFd, o.outFd, o.next);
      LaunchedOne(v.launches, l, w, fs, P, T);
    } else {
      assert r.launches == v.launches;
      LaunchedNone(v.launches, w, fs, P, T);
    }
  }

  /** The child a resolving stage launches is wired as its stage requires. */
  lemma StageWired(v: World, P: seq<(int, int)>, T: seq<seq<string>>, i: nat,
                   args: seq<string>, inFd: int, outFd: int, next: int)
    requires |P| + 1 == |T| && i < |T|
    requires var rs := Parse(T[i]).redirects;
             args == Parse(T[i]).args && next == v.nextFd + |rs| &&
             inFd == LastFd(rs, true, -1, v.nextFd) && outFd == LastFd(rs, false, -1, v.nextFd)
    ensures Wired(Launch(i, ChildProgram(args), StageStdin(P, i, inFd), StageStdout(P, |T|, i, outFd),
                         Closed(Closed(Opened(v, next).open - PipeFds(P), inFd), outFd)), P, T, v)
  {
  }

  lemma LaunchedOne(before: seq<Launch>, l: Launch, w: World, fs: FileSystem, P: seq<(int, int)>, T: seq<seq<string>>)
    requires |P| + 1 == |T| && l.stage < |T| && Wired(l, P, T, Stages(w, fs, P, T, l.stage))
    ensures LaunchedInOrder(before, before + [l], [l.stage], w, fs, P, T)
  {
    assert (before + [l])[..|before|] == before;
    assert (before + [l])[|before| + 0] == l;
  }

  lemma LaunchedNone(before: seq<Launch>, w: World, fs: FileSystem, P: seq<(int, int)>, T: seq<seq<string>>)
    requires |P| + 1 == |T|
    ensures LaunchedInOrder(before, before, [], w, fs, P, T)
  {
    assert before[..|before|] == before;
  }

  lemma LaunchedInOrderTrans(a: seq<Launch>, b: seq<Launch>, c: seq<Launch>, S1: seq<nat>, S2: seq<nat>,
                             w: World, fs: FileSystem, P: seq<(int, int)>, T: seq<seq<string>>)
    requires |P| + 1 == |T|
    requires LaunchedInOrder(a, b, S1, w, fs, P, T) && LaunchedInOrder(b, c, S2, w, fs, P, T)
    ensures LaunchedInOrder(a, c, S1 + S2, w, fs, P, T)
  {
    assert c[..|a|] == b[..|b|][..|a|];
    forall j | 0 <= j < |S1 + S2|
      ensures (S1 + S2)[j] < |T| && c[|a| + j].stage == (S1 + S2)[j] &&
              Wired(c[|a| + j], P, T, Stages(w, fs, P, T, (S1 + S2)[j]))
    {
      if j < |S1| {
        assert c[|a| + j] == b[|a| + j];
      } else {
        assert c[|a| + j] == c[|b| + (j - |S1|)];
      }
    }
  }

  /** The first `i` stages close no descriptor of the shell's, open only
      fresh ones, and touch neither the pipes nor the wait count. */
  lemma {:induction false} StagesKeepOpen(w: World, fs: FileSystem, P: seq<(int, int)>, T: seq<seq<string>>, i: nat)
    requires |P| + 1 == |T| && i <= |T|
    requires forall fd :: fd in w.open ==> fd < w.nextFd
    ensures var r := Stages(w, fs, P, T, i);
            w.nextFd <= r.nextFd && (forall fd :: fd in r.open ==> fd < r.nextFd) && w.open <= r.open &&
            r.pipes == w.pipes && r.waits == w.waits
  {
    if i > 0 {
      StagesKeepOpen(w, fs, P, T, i - 1);
      StageKeepsOpen(Stages(w, fs, P, T, i - 1), fs, P, T, i - 1);
    }
  }

  /** The first `i` stages: one wired launch per resolving stage, in stage
      order. */
  lemma {:induction false} StagesFacts(w: World, fs: FileSystem, P: seq<(int, int)>, T: seq<seq<string>>, i: nat)
    requires |P| + 1 == |T| && i <= |T| && 0 <= w.nextFd
    requires forall fd :: fd in w.open ==> fd < w.nextFd
    ensures LaunchedInOrder(w.launches, Stages(w, fs, P, T, i).launches, StagesOf(fs, T, i), w, fs, P, T)
  {
    if i > 0 {
      StagesFacts(w, fs, P, T, i - 1);
      StagesKeepOpen(w, fs, P, T, i - 1);
      StageFacts(w, fs, P, T, i - 1);
      LaunchedInOrderTrans(w.launches, Stages(w, fs, P, T, i - 1).launches, Stages(w, fs, P, T, i).launches,
                           StagesOf(fs, T, i - 1), if Launchable(fs, T[i - 1]) then [i - 1] else [], w, fs, P, T);
    } else {
      assert w.launches[..|w.launches|] == w.launches;
    }
  }

  /** A pipeline of two or more stages is the run of its stages over the
      world with its pipes made, followed by the shell's clean-up. */
  lemma PipedStagesOver(w: World, fs: FileSystem, cmds: seq<string>, isBackground: bool)
    requires 2 <= |cmds|
    ensures var P := NewPipes(w, |cmds| - 1);
            var u := Stages(Pipes(w, |cmds| - 1), fs, P, StageWords(cmds), |cmds|);
            var r := Piped(w, fs, cmds, isBackground);
            r.pipes == u.pipes && r.launches == u.launches && r.open == u.open - PipeFds(P) &&
            r.waits == u.waits + (if PipelineBackground(cmds, isBackground) then 0 else |cmds|)
  {
  }

  /** A pipeline of `n` stages creates `n - 1` pipes, all of fresh
      descriptors, and launches one child per stage whose words resolve, in
      stage order, each reading the previous pipe and writing its own. */
  lemma PipelineWiring(w: World, fs: FileSystem, cmds: seq<string>, isBackground: bool)
    requires 2 <= |cmds| && 0 <= w.nextFd
    requires forall fd :: fd in w.open ==> fd < w.nextFd
    ensures var r := Piped(w, fs, cmds, isBackground);
            var S := StagesOf(fs, StageWords(cmds), |cmds|);
            var P := NewPipes(w, |cmds| - 1);
            r.pipes == w.pipes + P && w.open !! PipeFds(P) &&
            LaunchedInOrder(w.launches, r.launches, S, Pipes(w, |cmds| - 1), fs, P, StageWords(cmds))
  {
    var n := |cmds| - 1;
    PipesShape(w, n);
    var v := Pipes(w, n);
    var P := NewPipes(w, n);
    assert 0 <= v.nextFd && forall fd :: fd in v.open ==> fd < v.nextFd;
    StagesFacts(v, fs, P, StageWords(cmds), |cmds|);
    StagesKeepOpen(v, fs, P, StageWords(cmds), |cmds|);
    PipedStagesOver(w, fs, cmds, isBackground);
    FreshRange(w.open, w.nextFd, w.nextFd + 2 * n);
    var u := Stages(v, fs, P, StageWords(cmds), |cmds|);
    var r := Piped(w, fs, cmds, isBackground);
    var S := StagesOf(fs, StageWords(cmds), |cmds|);
    assert v.launches == w.launches;
    assert r.launches == u.launches;
    assert r.pipes == w.pipes + P;
  }

  /** After a pipeline the shell holds no pipe descriptor, still holds every
      descriptor it held before, and has waited once per stage unless the
      pipeline runs in the background. */
  lemma PipelineCleanup(w: World, fs: FileSystem, cmds: seq<string>, isBackground: bool)
    requires 2 <= |cmds| && 0 <= w.nextFd
    requires forall fd :: fd in w.open ==> fd < w.nextFd
    ensures var r := Piped(w, fs, cmds, isBackground);
            var P := NewPipes(w, |cmds| - 1);
            w.open <= r.open && r.open !! PipeFds(P) &&
            r.waits == w.waits + (if PipelineBackground(cmds, isBackground) then 0 else |cmds|)
  {
    var n := |cmds| - 1;
    PipesShape(w, n);
    var v := Pipes(w, n);
    var P := NewPipes(w, n);
    assert forall fd :: fd in v.open ==> fd < v.nextFd;
    StagesKeepOpen(v, fs, P, StageWords(cmds), |cmds|);
    PipedStagesOver(w, fs, cmds, isBackground);
  }

  // ------------------------------------------------------------------ methods

  /** `execute_simple_command`. */
  method ExecuteSimpleCommand(tokens: array<Option<string>>, ghost args: seq<string>,
                              inFd: int, outFd: int, background: bool, k: Kernel) returns (rc: int)
    requires Holds(tokens, args)
    modifies k`launches, k`builtins, k`waits
    ensures (k.State(), rc) == SimpleCommand(old(k.State()), args, inFd, outFd, background)
  {
    if tokens[0].None? {
      return 0;
    }
    var argv := ArgvOf(tokens, args);
    if IsBuiltin(tokens[0]) {
      k.RunBuiltin(BuiltinRun(argv, Override(inFd), Override(outFd)));
      rc := if argv[0] == "exit" then 0 else 1;
      return;
    }
    k.Spawn(Launch(0, Exec(argv), Override(inFd), Override(outFd), k.open));
    if !background {
      k.Wait();
    }
    rc := 0;
  }

  /** The tail shared by `execute_line` and the one-stage case of
      `execute_pipeline`: strip "&", resolve the redirections, run, close. */
  method RunCommand(tokens: array<Option<string>>, ghost toks: seq<string>, isBackground: bool, k: Kernel)
    returns (rc: int)
    requires Holds(tokens, toks) && k.Valid()
    modifies tokens, k`nextFd, k`open, k`launches, k`builtins, k`waits, k`console
    ensures k.Valid() && (k.State(), rc) == Command(old(k.State()), k.fs, toks, isBackground)
  {
    var amp;
    ghost var rest;
    amp, rest := StripBackground(tokens, toks);
    var background := isBackground || amp;
    ghost var s := k.State();
    var r, inFd, outFd, append := HandleRedirectionInTokens(tokens, rest, k);
    ghost var o := Resolve(rest, k.fs, s.nextFd);
    if r < 0 {
      k.Say(SyntaxError);
      return 0;
    }
    rc := ExecuteSimpleCommand(tokens, o.args, inFd, outFd, background, k);
    if inFd != -1 {
      k.Close(inFd);
    }
    if outFd != -1 {
      k.Close(outFd);
    }
  }

  /** The loop that splits a line at '|' with `strtok_r`, trimming each part
      and keeping at most 63. */
  method SplitPipeline(line: string) returns (cmds: seq<string>)
    ensures cmds == Parts(line)
  {
    cmds := [];
    var cursor := 0;
    ghost var done: seq<string> := [];
    var part := Strtok(line, cursor, "|");
    var limit := MaxCommands - 1;
    while part.Some? && |cmds| < limit
      invariant cursor <= |line| && |cmds| == |done| <= limit
      invariant part == Strtok(line, cursor, "|")
      invariant Fields(line, "|") == done + FieldsFrom(line, cursor, "|")
      invariant cmds == TrimAll(done)
      decreases |line| - cursor
    {
      var p := part.value.0;
      assert FieldsFrom(line, cursor, "|") == [p] + FieldsFrom(line, part.value.1, "|");
      assert done + FieldsFrom(line, cursor, "|") == (done + [p]) + FieldsFrom(line, part.value.1, "|");
      TrimAllSnoc(done, p);
      cmds := cmds + [Trimmed(p)];
      done := done + [p];
      cursor := part.value.1;
      part := Strtok(line, cursor, "|");
    }
    TakeWhenDone(line, "|", done, cursor, limit);
  }

  /** One iteration of the stage loop of `execute_pipeline`, from the
      redirection scan on. */
  method RunStage(k: Kernel, pipefds: array<int>, ghost P: seq<(int, int)>, n: nat, i: nat,
                  tokens: array<Option<string>>, ghost toks: seq<string>)
    requires k.Valid() && Holds(tokens, toks) && pipefds[..] == Ends(P) && |P| + 1 == n && i < n
    modifies tokens, k`nextFd, k`open, k`launches, k`console
    ensures k.Valid() && k.State() == Stage(old(k.State()), k.fs, P, n, i, toks)
  {
    var r, inFd, outFd, append := HandleRedirectionInTokens(tokens, toks, k);
    ghost var o := Resolve(toks, k.fs, old(k.nextFd));
    ghost var v := k.State();
    assert v == Opened(old(k.State()), o.next);
    if r < 0 {
      k.Say(SyntaxError);
      return;
    }
    var argv := ArgvOf(tokens, o.args);
    // the child
    var stdin, stdout;
    if i != 0 {
      EndsAt(P, i - 1);
      stdin := Fd(pipefds[(i - 1) * 2]);
    } else {
      stdin := Override(inFd);
    }
    if i != n - 1 {
      EndsAt(P, i);
      stdout := Fd(pipefds[i * 2 + 1]);
    } else {
      stdout := Override(outFd);
    }
    var held := ChildCloseAll(k.open, pipefds, P);
    if inFd != -1 {
      held := held - {inFd};
    }
    if outFd != -1 {
      held := held - {outFd};
    }
    assert held == Closed(Closed(v.open - PipeFds(P), o.inFd), o.outFd);
    assert stdin == StageStdin(P, i, o.inFd) && stdout == StageStdout(P, n, i, o.outFd);
    k.Spawn(Launch(i, ChildProgram(argv), stdin, stdout, held));
    // the shell
    if inFd != -1 {
      k.Close(inFd);
    }
    if outFd != -1 {
      k.Close(outFd);
    }
  }

  /** `execute_pipeline`; it always returns 0. */
  method ExecutePipeline(line: string, isBackground: bool, k: Kernel) returns (rc: int)
    requires k.Valid()
    modifies k`nextFd, k`open, k`pipes, k`launches, k`builtins, k`waits, k`console
    ensures k.Valid() && rc == 0
    ensures k.State() == Pipeline(old(k.State()), k.fs, line, isBackground)
  {
    var cmds := SplitPipeline(line);
    if |cmds| == 0 {
      return 0;
    }
    if |cmds| == 1 {
      var tokens := TokenizeBounded(cmds[0], Blanks, MaxTokens);
      var r := RunCommand(tokens, Take(Fields(cmds[0], Blanks), MaxTokens - 1), isBackground, k);
      return 0;
    }
    PipedStages(cmds, isBackground, k);
    rc := 0;
  }

  /** The part of `execute_pipeline` after the split, for two or more stages:
      make the pipes, run the stages, close the pipes, wait. */
  method PipedStages(cmds: seq<string>, isBackground: bool, k: Kernel)
    requires k.Valid() && 2 <= |cmds|
    modifies k`nextFd, k`open, k`pipes, k`launches, k`waits, k`console
    ensures k.Valid() && k.State() == Piped(old(k.State()), k.fs, cmds, isBackground)
  {
    ghost var w := k.State();
    PipesShape(w, |cmds| - 1);
    var pipefds := MakePipes(k, |cmds| - 1);
    ghost var P := NewPipes(w, |cmds| - 1);
    assert k.pipes[|w.pipes|..] == P;
    var background := StageLoop(cmds, isBackground, pipefds, P, k);
    FinishPipeline(k, pipefds, P, |cmds|, background);
  }

  /** The tail of `execute_pipeline`. */
  method FinishPipeline(k: Kernel, pipefds: array<int>, ghost P: seq<(int, int)>, n: nat, background: bool)
    requires k.Valid() && pipefds[..] == Ends(P)
    modifies k`open, k`waits, k`console
    ensures k.Valid() && k.State() == Finished(old(k.State()), P, n, background)
  {
    CloseAll(k, pipefds, P);
    if !background {
      WaitTimes(k, n);
    } else {
      k.Say(BackgroundNotice);
    }
  }

  /** The loop over the stages of `execute_pipeline`; it also learns whether
      the last stage ends with "&". */
  method StageLoop(cmds: seq<string>, isBackground: bool, pipefds: array<int>, ghost P: seq<(int, int)>, k: Kernel)
    returns (background: bool)
    requires k.Valid() && 2 <= |cmds| && |P| + 1 == |cmds| && pipefds[..] == Ends(P)
    modifies k`nextFd, k`open, k`launches, k`console
    ensures k.Valid() && background == PipelineBackground(cmds, isBackground)
    ensures k.State() == Stages(old(k.State()), k.fs, P, StageWords(cmds), |cmds|)
  {
    background := isBackground;
    ghost var T := StageWords(cmds);
    var i := 0;
    while i < |cmds|
      invariant 0 <= i <= |cmds| && k.Valid() && pipefds[..] == Ends(P)
      invariant k.State() == Stages(old(k.State()), k.fs, P, T, i)
      invariant background == if i == |cmds| then PipelineBackground(cmds, isBackground) else isBackground
    {
      var tokens, amp := StageArgv(cmds, i);
      if amp {
        background := true;
      }
      RunStage(k, pipefds, P, |cmds|, i, tokens, T[i]);
      i := i + 1;
    }
  }

  /** The tokens of stage `i`, and whether a final "&" was removed from
      them, which only happens in the last stage. */
  method StageArgv(cmds: seq<string>, i: nat) returns (tokens: array<Option<string>>, amp: bool)
    requires i < |cmds|
    ensures fresh(tokens) && Holds(tokens, StageWords(cmds)[i])
    ensures amp <==> i == |cmds| - 1 && DropBackground(Take(Fields(cmds[i], Blanks), MaxTokens - 1)).1
  {
    tokens := TokenizeBounded(cmds[i], Blanks, MaxTokens);
    ghost var toks := Take(Fields(cmds[i], Blanks), MaxTokens - 1);
    amp := false;
    if i == |cmds| - 1 {
      amp, toks := StripBackground(tokens, toks);
    }
  }

  /** `execute_line` on the C string in `buf`, which it trims in place. */
  method ExecuteLine(buf: array<char>, ghost text: string, h: HistoryLog, k: Kernel) returns (rc: int)
    requires IsCString(buf, text) && h.Valid() && h.capacity == MaxHistory && k.Valid()
    modifies buf, h`count, h.slots, k`nextFd, k`open, k`pipes, k`launches, k`builtins, k`waits, k`console
    ensures h.Valid() && k.Valid()
    ensures (k.State(), h.Entries(), rc) == Line(old(k.State()), k.fs, old(h.Entries()), text)
  {
    Trim(buf, text);
    ghost var t := Trimmed(text);
    if buf[0] == '\0' {
      return 0;
    }
    var n := Strlen(buf, 0, t);
    var line := buf[..n];
    assert line == t;
    var next := Recall(line, h, k);
    if next.None? {
      return 0;
    }
    rc := RunLine(next.value, h, k);
  }

  /** The `!!` and `!n` expansion of `execute_line`: the line to go on with,
      or none when the recall fails, after printing the recalled line or the
      error message. */
  method Recall(line: string, h: HistoryLog, k: Kernel) returns (next: Option<string>)
    requires line != [] && h.Valid()
    modifies k`console
    ensures next == ExpandedLine(line, h.Entries())
    ensures k.State() == Echoed(old(k.State()), ExpandHistory(line, h.Entries()))
  {
    if line[0] != '!' {
      return Some(line);
    }
    if |line| >= 2 && line[1] == '!' {
      if h.count == 0 {
        k.Say(NoHistoryMessage);
        return None;
      }
      next := Some(h.slots[h.count - 1]);
    } else {
      var idx := Atoi(line[1..]) - 1;
      if idx < 0 || idx >= h.count {
        k.Say(NoEntryMessage);
        return None;
      }
      next := Some(h.slots[idx]);
    }
    k.Say(next.value);
  }

  /** The rest of `execute_line` once the line to run is known. */
  method RunLine(line: string, h: HistoryLog, k: Kernel) returns (rc: int)
    requires h.Valid() && h.capacity == MaxHistory && k.Valid()
    modifies h`count, h.slots, k`nextFd, k`open, k`pipes, k`launches, k`builtins, k`waits, k`console
    ensures h.Valid() && k.Valid()
    ensures (k.State(), h.Entries(), rc) == Run(old(k.State()), k.fs, old(h.Entries()), line)
  {
    h.Add(line);
    var isBackground := |line| > 0 && line[|line| - 1] == '&';
    if '|' in line {
      var r := ExecutePipeline(line, isBackground, k);
      return if r == 2 then 2 else 0;
    }
    var tokens := TokenizeBounded(line, Blanks, MaxTokens);
    if tokens[0].None? {
      return 0;
    }
    if tokens[0].value == "exit" {
      return 2;
    }
    var r := RunCommand(tokens, Take(Fields(line, Blanks), MaxTokens - 1), isBackground, k);
    rc := if r == 2 then 2 else 0;
  }
}
