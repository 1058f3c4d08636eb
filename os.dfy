/** The operating system as the shell sees it, reduced to what the command
    engine decides: which files `open` can open, which descriptors the shell
    process holds, which pipes it has created, which processes it has launched
    (with the argument vector, the standard streams and the descriptors each
    child still holds when it starts its program), which builtins it ran in
    its own process, how many times it waited for a child, and what it printed.
    Process creation, `dup2`, `execvp` and the programs themselves are not
    run: a launch is a record. */
module Os {

  /** How a file is opened: for reading, for writing with truncation, or for
      writing with appending. */
  datatype Mode = Read | Truncate | Append

  /** The oracle `open` consults: the paths it can open for reading and those
      it can open (creating them if needed) for writing. */
  datatype FileSystem = FileSystem(readable: set<string>, writable: set<string>)

  predicate CanOpen(fs: FileSystem, path: string, mode: Mode)
  {
    if mode == Read then path in fs.readable else path in fs.writable
  }

  /** What a process has as standard input or output: what it inherited, a
      descriptor of the shell's duplicated onto it, or a file it opened itself. */
  datatype Stream = Inherit | Fd(fd: int) | File(path: string, mode: Mode)

  /** The stream a `dup2(fd, ...)` onto a standard stream leaves there: -1
      means "no redirection", and `dup2(-1, ...)` fails without effect. */
  function Override(fd: int): Stream
  {
    if fd < 0 then Inherit else Fd(fd)
  }

  /** What a child process goes on to do after its set-up: run an external
      program through `execvp`, run a builtin inside the child, or exit with
      a failure status before either. */
  datatype Program = Exec(argv: seq<string>) | ChildBuiltin(args: seq<string>) | Abort

  /** One `fork` of the shell, as the child is when it starts its program. */
  datatype Launch = Launch(stage: nat, program: Program, stdin: Stream, stdout: Stream, openAtExec: set<int>)

  /** One builtin run inside the shell's own process, with the standard
      streams swapped in for it (and restored afterwards). */
  datatype BuiltinRun = BuiltinRun(argv: seq<string>, stdin: Stream, stdout: Stream)

  /** A snapshot of everything the kernel records, as a value: the shell's
      operations are specified as functions from one snapshot to the next. */
  datatype World = World(nextFd: int, open: set<int>, pipes: seq<(int, int)>, launches: seq<Launch>,
                         builtins: seq<BuiltinRun>, waits: nat, console: seq<string>)

  /** The world after `open` calls that returned the descriptors
      `w.nextFd <= fd < next`. */
  function Opened(w: World, next: int): World
  {
    w.(nextFd := next, open := w.open + FdRange(w.nextFd, next))
  }

  /** The descriptors `from <= fd < to`. */
  predicate Between(from: int, fd: int, to: int) { from <= fd < to }

  function FdRange(from: int, to: int): set<int>
  {
    set fd: int | from <= fd < to && Between(from, fd, to)
  }

  /** Descriptors allocated from `from` on are none of those below it. */
  lemma FreshRange(open: set<int>, from: int, to: int)
    requires forall fd :: fd in open ==> fd < from
    ensures open !! FdRange(from, to)
  {
  }

  /** A descriptor set after `if (fd != -1) close(fd)`. */
  function Closed(open: set<int>, fd: int): set<int>
  {
    if fd != -1 then open - {fd} else open
  }

  class Kernel {
    const fs: FileSystem
    /** The descriptor the next `open` or `pipe` returns. */
    var nextFd: int
    /** Descriptors the shell process has opened and not yet closed. */
    var open: set<int>
    /** Every pipe created: read end, write end. */
    var pipes: seq<(int, int)>
    var launches: seq<Launch>
    var builtins: seq<BuiltinRun>
    /** Number of `wait`/`waitpid` calls. */
    var waits: nat
    /** Lines written to the terminal. */
    var console: seq<string>

    ghost predicate Valid()
      reads this
    {
      3 <= nextFd && forall fd :: fd in open ==> 3 <= fd < nextFd
    }

    function State(): World
      reads this
    {
      World(nextFd, open, pipes, launches, builtins, waits, console)
    }

    constructor (fs: FileSystem)
      ensures Valid() && this.fs == fs && open == {}
      ensures pipes == [] && launches == [] && builtins == [] && waits == 0 && console == []
    {
      this.fs := fs;
      nextFd := 3;
      open := {};
      pipes, launches, builtins := [], [], [];
      waits := 0;
      console := [];
    }

    /** `open`: a fresh descriptor when the oracle allows it, -1 otherwise. */
    method Open(path: string, mode: Mode) returns (fd: int)
      requires Valid()
      modifies this`nextFd, this`open
      ensures Valid()
      ensures CanOpen(fs, path, mode) ==> fd == old(nextFd) && nextFd == fd + 1 && open == old(open) + {fd}
      ensures !CanOpen(fs, path, mode) ==> fd == -1 && nextFd == old(nextFd) && open == old(open)
    {
      if CanOpen(fs, path, mode) {
        fd := nextFd;
        nextFd := nextFd + 1;
        open := open + {fd};
      } else {
        fd := -1;
      }
    }

    /** `pipe`: two fresh descriptors, the read end and the write end. */
    method Pipe() returns (r: int, w: int)
      requires Valid()
      modifies this`nextFd, this`open, this`pipes
      ensures Valid()
      ensures r == old(nextFd) && w == r + 1 && nextFd == r + 2
      ensures open == old(open) + {r, w} && pipes == old(pipes) + [(r, w)]
    {
      r, w := nextFd, nextFd + 1;
      nextFd := nextFd + 2;
      open := open + {r, w};
      pipes := pipes + [(r, w)];
    }

    /** `close` in the shell's own process (closing a descriptor that is not
        open fails without effect). */
    method Close(fd: int)
      requires Valid()
      modifies this`open
      ensures Valid() && open == old(open) - {fd}
    {
      open := open - {fd};
    }

    /** `fork` followed by the child's set-up: records the launch. */
    method Spawn(l: Launch)
      modifies this`launches
      ensures launches == old(launches) + [l]
    {
      launches := launches + [l];
    }

    /** A builtin run in the shell's own process. */
    method RunBuiltin(run: BuiltinRun)
      modifies this`builtins
      ensures builtins == old(builtins) + [run]
    {
      builtins := builtins + [run];
    }

    /** `wait` or `waitpid` for one child. */
    method Wait()
      modifies this`waits
      ensures waits == old(waits) + 1
    {
      waits := waits + 1;
    }

    /** A line printed to the terminal. */
    method Say(line: string)
      modifies this`console
      ensures console == old(console) + [line]
    {
      console := console + [line];
    }
  }
}
