/** What both shells do with the pipes of a pipeline: `num_pipes` calls of
    `pipe` that fill the `pipefds` array two slots at a time, the loops that
    close every slot of that array (in each child and in the shell), and the
    loop of `wait` calls at the end. */
module Plumbing {
  import opened Os

  /** The `pipefds` array for the pipes `P`: read end, then write end, of
      each pipe in turn. */
  function Ends(P: seq<(int, int)>): (e: seq<int>)
    ensures |e| == 2 * |P|
  {
    if P == [] then [] else Ends(P[..|P| - 1]) + [P[|P| - 1].0, P[|P| - 1].1]
  }

  lemma {:induction false} EndsAt(P: seq<(int, int)>, j: nat)
    requires j < |P|
    ensures Ends(P)[2 * j] == P[j].0 && Ends(P)[2 * j + 1] == P[j].1
    decreases |P|
  {
    if j < |P| - 1 {
      EndsAt(P[..|P| - 1], j);
    }
  }

  function Elems(s: seq<int>): set<int>
  {
    set x | x in s
  }

  /** Every descriptor of the pipes `P`. */
  function PipeFds(P: seq<(int, int)>): set<int>
  {
    Elems(Ends(P))
  }

  /** The world after `n` successful calls of `pipe`, each of which takes
      the next two unused descriptors, read end first. */
  function Pipes(w: World, n: nat): World
  {
    if n == 0 then w else PipeStep(Pipes(w, n - 1))
  }

  /** The world after one `pipe`. */
  function PipeStep(v: World): World
  {
    v.(nextFd := v.nextFd + 2, open := v.open + {v.nextFd, v.nextFd + 1},
       pipes := v.pipes + [(v.nextFd, v.nextFd + 1)])
  }

  /** `n` pipes add `n` pairs of consecutive fresh descriptors to the pipe
      list and to the open set, and change nothing else. */
  lemma {:induction false} PipesShape(w: World, n: nat)
    ensures var r := Pipes(w, n);
            r.nextFd == w.nextFd + 2 * n &&
            r.open == w.open + FdRange(w.nextFd, w.nextFd + 2 * n) &&
            |r.pipes| == |w.pipes| + n && r.pipes[..|w.pipes|] == w.pipes &&
            (forall j :: 0 <= j < n ==> r.pipes[|w.pipes|..][j] == (w.nextFd + 2 * j, w.nextFd + 2 * j + 1)) &&
            r.launches == w.launches && r.builtins == w.builtins && r.waits == w.waits && r.console == w.console
  {
    if n > 0 {
      PipesShape(w, n - 1);
      var v := Pipes(w, n - 1);
      var r := Pipes(w, n);
      assert r.pipes[..|w.pipes|] == v.pipes[..|w.pipes|];
      assert forall j :: 0 <= j < n - 1 ==> r.pipes[|w.pipes|..][j] == v.pipes[|w.pipes|..][j];
      assert FdRange(w.nextFd, w.nextFd + 2 * n) ==
             FdRange(w.nextFd, w.nextFd + 2 * (n - 1)) + {v.nextFd, v.nextFd + 1};
    }
  }

  /** `n` pipes open exactly their `2n` descriptors and launch, run and wait
      for nothing. */
  lemma {:induction false} PipesKeep(w: World, n: nat)
    ensures var r := Pipes(w, n);
            r.open == w.open + FdRange(w.nextFd, w.nextFd + 2 * n) &&
            r.launches == w.launches && r.builtins == w.builtins && r.waits == w.waits && r.console == w.console
  {
    if n > 0 {
      PipesKeep(w, n - 1);
      var v := Pipes(w, n - 1);
      assert FdRange(w.nextFd, w.nextFd + 2 * n) ==
             FdRange(w.nextFd, w.nextFd + 2 * (n - 1)) + {w.nextFd + 2 * (n - 1), w.nextFd + 2 * (n - 1) + 1};
      PipesShape(w, n - 1);
    }
  }

  /** The pipes `Pipes` creates are exactly the descriptors it allocates,
      and no two pipe ends coincide. */
  lemma {:induction false} PipesFresh(w: World, n: nat)
    ensures |w.pipes| <= |Pipes(w, n).pipes|
    ensures var P := Pipes(w, n).pipes[|w.pipes|..];
            PipeFds(P) == FdRange(w.nextFd, w.nextFd + 2 * n) &&
            forall a, b :: 0 <= a < |P| && 0 <= b < |P| && a != b ==>
              P[a].0 != P[b].0 && P[a].1 != P[b].1 && P[a].0 != P[b].1
  {
    PipesShape(w, n);
    var P := Pipes(w, n).pipes[|w.pipes|..];
    var E := Ends(P);
    forall fd | fd in FdRange(w.nextFd, w.nextFd + 2 * n)
      ensures fd in PipeFds(P)
    {
      var d := fd - w.nextFd;
      var j := d / 2;
      assert d == 2 * j + d % 2 && 0 <= d % 2 < 2;
      assert 0 <= j < |P|;
      assert P[j] == (w.nextFd + 2 * j, w.nextFd + 2 * j + 1);
      EndsAt(P, j);
      if d % 2 == 0 {
        assert E[2 * j] == fd;
      } else {
        assert fd == w.nextFd + 2 * j + 1;
        assert E[2 * j + 1] == fd;
      }
    }
    forall fd | fd in PipeFds(P)
      ensures fd in FdRange(w.nextFd, w.nextFd + 2 * n)
    {
      var m :| 0 <= m < |E| && E[m] == fd;
      var j := m / 2;
      assert m == 2 * j + m % 2 && 0 <= m % 2 < 2;
      assert 0 <= j < |P|;
      assert P[j] == (w.nextFd + 2 * j, w.nextFd + 2 * j + 1);
      EndsAt(P, j);
      if m % 2 == 0 {
        assert E[2 * j] == fd;
      } else {
        assert E[2 * j + 1] == fd;
      }
      assert w.nextFd <= fd < w.nextFd + 2 * n;
    }
  }

  /** The pipes `n` calls of `pipe` create: `n` pairs of fresh descriptors. */
  function NewPipes(w: World, n: nat): (P: seq<(int, int)>)
    ensures |P| == n && Pipes(w, n).pipes == w.pipes + P
    ensures PipeFds(P) == FdRange(w.nextFd, w.nextFd + 2 * n)
  {
    PipesShape(w, n);
    PipesFresh(w, n);
    var P := Pipes(w, n).pipes[|w.pipes|..];
    assert Pipes(w, n).pipes == Pipes(w, n).pipes[..|w.pipes|] + P;
    P
  }

  /** Closing every pipe descriptor leaves the shell holding what it held
      before the pipes were made. */
  lemma PipesHeld(w: World, n: nat)
    requires forall fd :: fd in w.open ==> fd < w.nextFd
    ensures Pipes(w, n).open - PipeFds(NewPipes(w, n)) == w.open
  {
    var R := FdRange(w.nextFd, w.nextFd + 2 * n);
    PipesKeep(w, n);
    FreshRange(w.open, w.nextFd, w.nextFd + 2 * n);
    assert (w.open + R) - R == w.open;
  }

  lemma EndsSnoc(P: seq<(int, int)>, p: (int, int))
    ensures Ends(P + [p]) == Ends(P) + [p.0, p.1]
  {
    assert (P + [p])[..|P|] == P;
  }

  /** `pipe(pipefds + i * 2)`: the two new ends go into slots `2i` and `2i+1`. */
  method PipeInto(k: Kernel, pipefds: array<int>, i: nat, ghost base: nat)
    requires k.Valid() && 2 * i + 2 <= pipefds.Length && base <= |k.pipes|
    requires pipefds[..2 * i] == Ends(k.pipes[base..])
    modifies k`nextFd, k`open, k`pipes, pipefds
    ensures k.Valid() && base <= |k.pipes|
    ensures k.State() == PipeStep(old(k.State()))
    ensures pipefds[..2 * i + 2] == Ends(k.pipes[base..])
  {
    ghost var before := k.pipes[base..];
    ghost var prefix := pipefds[..2 * i];
    var r, w := k.Pipe();
    ghost var after := k.State();
    assert after == PipeStep(old(k.State()));
    assert k.pipes[base..] == before + [(r, w)] by {
      assert k.pipes == old(k.pipes) + [(r, w)];
    }
    pipefds[2 * i] := r;
    pipefds[2 * i + 1] := w;
    assert k.State() == after;
    assert pipefds[..2 * i + 2] == prefix + [r, w] by {
      assert forall j :: 0 <= j < 2 * i ==> pipefds[j] == prefix[j];
    }
    EndsSnoc(before, (r, w));
  }

  /** The loop that fills `pipefds` by calling `pipe(pipefds + i * 2)` for
      each of the `numPipes` pipes. */
  method MakePipes(k: Kernel, numPipes: nat) returns (pipefds: array<int>)
    requires k.Valid()
    modifies k`nextFd, k`open, k`pipes
    ensures fresh(pipefds) && k.Valid()
    ensures k.State() == Pipes(old(k.State()), numPipes)
    ensures |old(k.pipes)| <= |k.pipes|
    ensures pipefds[..] == Ends(k.pipes[|old(k.pipes)|..])
  {
    pipefds := new int[2 * numPipes];
    ghost var base := |k.pipes|;
    var i := 0;
    while i < numPipes
      invariant 0 <= i <= numPipes && k.Valid()
      invariant k.State() == Pipes(old(k.State()), i)
      invariant base == |old(k.pipes)| <= |k.pipes|
      invariant pipefds[..2 * i] == Ends(k.pipes[base..])
    {
      PipeInto(k, pipefds, i, base);
      i := i + 1;
    }
    assert pipefds[..] == pipefds[..2 * numPipes];
  }

  /** `for (k = 0; k < 2 * num_pipes; ++k) close(pipefds[k])` in the shell. */
  method CloseAll(k: Kernel, pipefds: array<int>, ghost P: seq<(int, int)>)
    requires k.Valid() && pipefds[..] == Ends(P)
    modifies k`open
    ensures k.Valid() && k.open == old(k.open) - PipeFds(P)
    ensures k.State() == old(k.State()).(open := k.open)
  {
    var j := 0;
    while j < pipefds.Length
      invariant 0 <= j <= pipefds.Length && k.Valid()
      invariant k.open == old(k.open) - Elems(pipefds[..j])
    {
      assert pipefds[..j + 1] == pipefds[..j] + [pipefds[j]];
      k.Close(pipefds[j]);
      j := j + 1;
    }
    assert pipefds[..j] == Ends(P);
  }

  /** The same loop in a child: the descriptors the child still holds. */
  method ChildCloseAll(open: set<int>, pipefds: array<int>, ghost P: seq<(int, int)>) returns (held: set<int>)
    requires pipefds[..] == Ends(P)
    ensures held == open - PipeFds(P)
  {
    held := open;
    var j := 0;
    while j < pipefds.Length
      invariant 0 <= j <= pipefds.Length
      invariant held == open - Elems(pipefds[..j])
    {
      assert pipefds[..j + 1] == pipefds[..j] + [pipefds[j]];
      held := held - {pipefds[j]};
      j := j + 1;
    }
    assert pipefds[..j] == Ends(P);
  }

  /** A loop of `n` calls of `wait`. */
  method WaitTimes(k: Kernel, n: nat)
    modifies k`waits
    ensures k.waits == old(k.waits) + n
    ensures k.State() == old(k.State()).(waits := k.waits)
  {
    var c := 0;
    while c < n
      invariant 0 <= c <= n && k.waits == old(k.waits) + c
    {
      k.Wait();
      c := c + 1;
    }
  }
}
