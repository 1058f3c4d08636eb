/** The history log: a fixed array of lines with a count of those in use.
    The full shell keeps the newest lines, evicting the oldest when the array
    is full; the earlier shell keeps the first lines and drops later ones. */
module History {

  /** The last `cap` elements of `xs` (all of them when there are fewer). */
  function Newest(xs: seq<string>, cap: nat): seq<string>
  {
    if |xs| <= cap then xs else xs[|xs| - cap..]
  }

  /** The first `cap` elements of `xs` (all of them when there are fewer). */
  function Oldest(xs: seq<string>, cap: nat): seq<string>
  {
    if |xs| <= cap then xs else xs[..cap]
  }

  /** The log after `add_history(line)`: an empty line changes nothing;
      otherwise the line becomes the newest entry, and when the log was full
      its oldest entry is dropped and the others move down one place. */
  function Appended(h: seq<string>, line: string, cap: nat): (r: seq<string>)
    requires 1 <= cap && |h| <= cap
    ensures |r| <= cap
    ensures line == "" ==> r == h
    ensures line != "" ==> r == Newest(h + [line], cap)
  {
    if line == "" then h
    else if |h| >= cap then h[1..] + [line]
    else h + [line]
  }

  /** A non-empty line becomes the newest entry; when the log was full, the
      entries after the oldest move down one place. */
  lemma AppendedEvicts(h: seq<string>, line: string, cap: nat)
    requires 1 <= cap && |h| <= cap && line != ""
    ensures var r := Appended(h, line, cap);
            r != [] && r[|r| - 1] == line && (|h| == cap ==> r[..cap - 1] == h[1..])
  {
  }

  /** The log after `add_history` of each of `lines` in turn. */
  function AppendedAll(h: seq<string>, lines: seq<string>, cap: nat): (r: seq<string>)
    requires 1 <= cap && |h| <= cap
    ensures |r| <= cap
    decreases |lines|
  {
    if lines == [] then h else AppendedAll(Appended(h, lines[0], cap), lines[1..], cap)
  }

  lemma SuffixAppend(s: seq<string>, t: seq<string>, a: nat)
    requires a <= |s|
    ensures s[a..] + t == (s + t)[a..]
  {
  }

  lemma SuffixOfSuffix(s: seq<string>, a: nat, b: nat)
    requires a + b <= |s|
    ensures s[a..][b..] == s[a + b..]
  {
  }

  lemma NewestOfNewest(xs: seq<string>, ys: seq<string>, cap: nat)
    ensures Newest(Newest(xs, cap) + ys, cap) == Newest(xs + ys, cap)
  {
    if |xs| > cap {
      var a := |xs| - cap;
      SuffixAppend(xs, ys, a);
      var zs := xs[a..] + ys;
      assert |zs| == cap + |ys|;
      if |ys| > 0 {
        SuffixOfSuffix(xs + ys, a, |ys|);
        assert Newest(zs, cap) == zs[|ys|..];
        assert Newest(xs + ys, cap) == (xs + ys)[a + |ys|..];
      }
    }
  }

  /** Once non-empty lines have been added, the log holds the newest `cap`
      of everything ever added, oldest first. */
  lemma {:induction false} AppendedAllKeepsNewest(h: seq<string>, lines: seq<string>, cap: nat)
    requires 1 <= cap && |h| <= cap
    requires "" !in lines
    ensures AppendedAll(h, lines, cap) == Newest(h + lines, cap)
    decreases |lines|
  {
    if lines == [] {
      assert h + lines == h;
    } else {
      var l, rest := lines[0], lines[1..];
      assert lines == [l] + rest;
      AppendedAllKeepsNewest(Appended(h, l, cap), rest, cap);
      AppendedThen(h, l, rest, cap);
    }
  }

  /** Adding `l` and then keeping the newest after `rest` is keeping the
      newest of the log followed by `l` and `rest`. */
  lemma AppendedThen(h: seq<string>, l: string, rest: seq<string>, cap: nat)
    requires 1 <= cap && |h| <= cap && l != ""
    ensures Newest(Appended(h, l, cap) + rest, cap) == Newest(h + ([l] + rest), cap)
  {
    NewestOfNewest(h + [l], rest, cap);
    assert h + [l] + rest == h + ([l] + rest);
  }

  /** The log after the earlier shell records `line`: appended while there
      is room, silently dropped once the log is full. */
  function Recorded(h: seq<string>, line: string, cap: nat): (r: seq<string>)
    requires |h| <= cap
    ensures r == Oldest(h + [line], cap)
  {
    if |h| < cap then h + [line] else h
  }

  function RecordedAll(h: seq<string>, lines: seq<string>, cap: nat): (r: seq<string>)
    requires |h| <= cap
    ensures |r| <= cap
    decreases |lines|
  {
    if lines == [] then h else RecordedAll(Recorded(h, lines[0], cap), lines[1..], cap)
  }

  lemma OldestOfOldest(xs: seq<string>, ys: seq<string>, cap: nat)
    ensures Oldest(Oldest(xs, cap) + ys, cap) == Oldest(xs + ys, cap)
  {
    if |xs| > cap {
      assert (xs[..cap] + ys)[..cap] == xs[..cap];
      assert (xs + ys)[..cap] == xs[..cap];
    } else if |xs + ys| > cap {
      assert Oldest(xs, cap) == xs;
    }
  }

  /** Every line in the log was added to it at some point. */
  lemma OldestIn(xs: seq<string>, cap: nat, x: string)
    requires x in Oldest(xs, cap)
    ensures x in xs
  {
    if |xs| > cap {
      var i :| 0 <= i < cap && xs[..cap][i] == x;
      assert xs[i] == x;
    }
  }

  /** The earlier shell's log holds the first `cap` lines ever recorded. */
  lemma {:induction false} RecordedAllKeepsOldest(h: seq<string>, lines: seq<string>, cap: nat)
    requires |h| <= cap
    ensures RecordedAll(h, lines, cap) == Oldest(h + lines, cap)
    decreases |lines|
  {
    if lines == [] {
      assert h + lines == h;
    } else {
      var h' := Recorded(h, lines[0], cap);
      RecordedAllKeepsOldest(h', lines[1..], cap);
      assert h + [lines[0]] + lines[1..] == h + lines;
      if |h| == cap {
        assert (h + lines)[..cap] == h;
        assert (h + lines[1..])[..cap] == h;
      } else {
        assert Oldest(h + [lines[0]] + lines[1..], cap) == Oldest(h + lines, cap);
      }
    }
  }

  /** The global `history` array and `history_count`. */
  class HistoryLog {
    const capacity: nat
    const slots: array<string>
    var count: nat

    ghost predicate Valid()
      reads this
    {
      1 <= capacity && slots.Length == capacity && count <= capacity
    }

    /** The lines in the log, oldest first; `!n` names the n-th of them. */
    function Entries(): seq<string>
      reads this, slots
      requires Valid()
    {
      slots[..count]
    }

    constructor (capacity: nat)
      requires 1 <= capacity
      ensures Valid() && this.capacity == capacity && Entries() == [] && fresh(slots)
    {
      this.capacity := capacity;
      slots := new string[capacity](_ => "");
      count := 0;
    }

    /** `add_history` of the full shell: an empty line is ignored; when the
        log is full the oldest pointer is dropped and the rest moved down
        one slot (`memmove`) before the line goes at the end. */
    method Add(line: string)
      requires Valid()
      modifies this`count, slots
      ensures Valid() && Entries() == Appended(old(Entries()), line, capacity)
    {
      if line == "" {
        return;
      }
      if count >= capacity {
        var i := 0;
        while i < capacity - 1
          invariant 0 <= i <= capacity - 1 && count == old(count)
          invariant forall k :: 0 <= k < i ==> slots[k] == old(slots[k + 1])
          invariant forall k :: i <= k < capacity ==> slots[k] == old(slots[k])
        {
          slots[i] := slots[i + 1];
          i := i + 1;
        }
        count := count - 1;
        assert slots[..count] == old(Entries())[1..];
      }
      slots[count] := line;
      count := count + 1;
    }

    /** The earlier shell's append: only while `history_count < MAX_HISTORY`. */
    method Record(line: string)
      requires Valid()
      modifies this`count, slots
      ensures Valid() && Entries() == Recorded(old(Entries()), line, capacity)
    {
      if count < capacity {
        slots[count] := line;
        count := count + 1;
      }
    }
  }
}
