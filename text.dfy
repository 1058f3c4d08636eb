/** Text handling shared by both versions of the shell: in-place trimming of a
    C string, `strtok`-style splitting into fields, the NULL-terminated argument
    arrays built from those fields, and removal of a trailing "&" token. */
module Text {

  datatype Option<T> = None | Some(value: T)

  // ---------------------------------------------------------------- trimming

  /** The characters `trim` strips: space and horizontal tab. */
  predicate IsBlank(c: char) { c == ' ' || c == '\t' }

  /** Number of leading blanks of `s`. */
  function Lead(s: string): (i: nat)
    ensures i <= |s|
    ensures forall k :: 0 <= k < i ==> IsBlank(s[k])
    ensures i < |s| ==> !IsBlank(s[i])
  {
    if s == [] || !IsBlank(s[0]) then 0
    else
      var i := 1 + Lead(s[1..]);
      assert forall k :: 1 <= k < i ==> s[k] == s[1..][k - 1];
      i
  }

  /** Length of `s` once its trailing blanks are cut off. */
  function Tail(s: string): (j: nat)
    ensures j <= |s|
    ensures forall k :: j <= k < |s| ==> IsBlank(s[k])
    ensures 0 < j ==> !IsBlank(s[j - 1])
  {
    if s == [] || !IsBlank(s[|s| - 1]) then |s| else Tail(s[..|s| - 1])
  }

  /** `s` without leading and trailing blanks: the one slice of `s` that has
      only blanks outside it and no blank at either of its ends. */
  function Trimmed(s: string): (r: string)
    ensures Lead(s) + |r| <= |s| && r == s[Lead(s)..Lead(s) + |r|]
    ensures forall k :: 0 <= k < |s| && !(Lead(s) <= k < Lead(s) + |r|) ==> IsBlank(s[k])
    ensures r != [] ==> !IsBlank(r[0]) && !IsBlank(r[|r| - 1])
  {
    var a := Lead(s);
    var t := s[a..];
    var j := Tail(t);
    assert t[..j] == s[a..a + j];
    assert forall k :: a + j <= k < |s| ==> s[k] == t[k - a];
    assert j > 0 ==> t[0] == s[a];
    t[..j]
  }

  /** Trimming twice gives what trimming once gives. */
  lemma TrimmedIdempotent(s: string)
    ensures Trimmed(Trimmed(s)) == Trimmed(s)
  {
    var r := Trimmed(s);
    if r != [] {
      assert Lead(r) == 0;
      assert r[0..] == r;
      assert Tail(r) == |r|;
    }
  }

  /** `buf` holds the C string `text`: its characters, then a NUL. */
  ghost predicate IsCString(buf: array<char>, text: string)
    reads buf
  {
    |text| < buf.Length && buf[..|text|] == text && buf[|text|] == '\0' &&
    forall k :: 0 <= k < |text| ==> text[k] != '\0'
  }

  /** `strlen` of the C string that starts at `from`. */
  method Strlen(buf: array<char>, from: nat, ghost text: string) returns (n: nat)
    requires IsCString(buf, text) && from <= |text|
    ensures n == |text| - from
  {
    n := 0;
    while buf[from + n] != '\0'
      invariant from + n <= |text|
      decreases |text| - from - n
    {
      assert buf[from + n] == text[from + n];
      n := n + 1;
    }
  }

  /** `memmove(buf, buf + p, strlen(buf + p) + 1)`: moves the C string that
      starts at `p` to the front of the buffer. */
  method MoveToFront(buf: array<char>, p: nat, ghost text: string)
    requires IsCString(buf, text) && 0 < p <= |text|
    modifies buf
    ensures IsCString(buf, text[p..])
  {
    var len := Strlen(buf, p, text);
    ghost var src := buf[p..|text| + 1];
    assert src == text[p..] + ['\0'];
    var i := 0;
    while i < len + 1
      invariant 0 <= i <= len + 1
      invariant forall k :: 0 <= k < i ==> buf[k] == src[k]
      invariant forall k :: i <= k < buf.Length ==> buf[k] == old(buf[k])
    {
      buf[i] := buf[p + i];
      i := i + 1;
    }
    assert buf[..len] == text[p..];
  }

  /** `trim`: strips leading and trailing blanks from the C string in `buf`,
      in place: the leading blanks by moving the rest (with its NUL) to the
      front, the trailing ones by overwriting them with NULs. */
  method Trim(buf: array<char>, ghost text: string)
    requires IsCString(buf, text)
    modifies buf
    ensures IsCString(buf, Trimmed(text))
  {
    var p := 0;
    while buf[p] != '\0' && IsBlank(buf[p])
      invariant 0 <= p <= |text|
      invariant forall k :: 0 <= k < p ==> IsBlank(text[k])
      decreases |text| - p
    {
      assert buf[p] == text[p];
      p := p + 1;
    }
    assert p < |text| ==> text[p] == buf[p];
    assert p == Lead(text);
    ghost var t := text[p..];
    if p != 0 {
      MoveToFront(buf, p, text);
    }
    assert IsCString(buf, t);
    var L := Strlen(buf, 0, t);
    while L > 0 && IsBlank(buf[L - 1])
      invariant 0 <= L <= |t|
      invariant IsCString(buf, t[..L])
      invariant forall k :: L <= k < |t| ==> IsBlank(t[k])
    {
      assert buf[L - 1] == t[..L][L - 1];
      L := L - 1;
      buf[L] := '\0';
      assert buf[..L] == t[..L];
    }
    assert L > 0 ==> buf[L - 1] == t[..L][L - 1];
    assert L == Tail(t);
  }

  // --------------------------------------------------------------- splitting

  /** First position at or after `i` that is not a delimiter (or the end). */
  function SkipDelims(s: string, i: nat, delims: string): (j: nat)
    requires i <= |s|
    ensures i <= j <= |s|
    decreases |s| - i
  {
    if i == |s| || s[i] !in delims then i else SkipDelims(s, i + 1, delims)
  }

  lemma {:induction false} SkipDelimsSpec(s: string, i: nat, delims: string)
    requires i <= |s|
    ensures var j := SkipDelims(s, i, delims);
            (forall k :: i <= k < j ==> s[k] in delims) && (j < |s| ==> s[j] !in delims)
    decreases |s| - i
  {
    if i < |s| && s[i] in delims {
      SkipDelimsSpec(s, i + 1, delims);
    }
  }

  /** First position at or after `i` that is a delimiter (or the end). */
  function RunEnd(s: string, i: nat, delims: string): (j: nat)
    requires i <= |s|
    ensures i <= j <= |s|
    decreases |s| - i
  {
    if i == |s| || s[i] in delims then i else RunEnd(s, i + 1, delims)
  }

  lemma {:induction false} RunEndSpec(s: string, i: nat, delims: string)
    requires i <= |s|
    ensures var j := RunEnd(s, i, delims);
            (forall k :: i <= k < j ==> s[k] !in delims) && (j < |s| ==> s[j] in delims)
    decreases |s| - i
  {
    if i < |s| && s[i] !in delims {
      RunEndSpec(s, i + 1, delims);
    }
  }

  /** A field: a non-empty string without delimiters. */
  predicate IsField(w: string, delims: string)
  {
    w != [] && forall k :: 0 <= k < |w| ==> w[k] !in delims
  }

  /** `s[b..e]` is the token a `strtok` call resuming at `i` finds: only
      delimiters before it, none inside it, and a delimiter or the end of
      the text right after it. */
  predicate TokenAt(s: string, i: nat, delims: string, b: nat, e: nat)
  {
    i <= b < e <= |s| &&
    (forall k :: i <= k < b ==> s[k] in delims) &&
    (forall k :: b <= k < e ==> s[k] !in delims) &&
    (e == |s| || s[e] in delims)
  }

  /** One call of `strtok` that resumes at position `i`: the next maximal run
      of non-delimiters, and where the following call resumes (strtok puts a
      NUL over the delimiter that ends the run and resumes just past it). */
  function Strtok(s: string, i: nat, delims: string): (r: Option<(string, nat)>)
    requires i <= |s|
    ensures r.Some? ==> i < r.value.1 <= |s| && IsField(r.value.0, delims)
  {
    var b := SkipDelims(s, i, delims);
    if b == |s| then None
    else
      var e := RunEnd(s, b, delims);
      RunEndSpec(s, b, delims);
      SkipDelimsSpec(s, i, delims);
      Some((s[b..e], if e < |s| then e + 1 else e))
  }

  /** Where the token lies: `strtok` finds nothing exactly when only
      delimiters remain, and otherwise returns the slice `TokenAt` describes
      and resumes just past the delimiter that ends it. */
  lemma StrtokSpec(s: string, i: nat, delims: string)
    requires i <= |s|
    ensures var r := Strtok(s, i, delims);
            (r.None? <==> forall k :: i <= k < |s| ==> s[k] in delims) &&
            (r.Some? ==> exists b: nat, e: nat :: TokenAt(s, i, delims, b, e) &&
                                                  r.value == (s[b..e], if e < |s| then e + 1 else e))
  {
    var b := SkipDelims(s, i, delims);
    SkipDelimsSpec(s, i, delims);
    if b < |s| {
      var e := RunEnd(s, b, delims);
      RunEndSpec(s, b, delims);
      assert TokenAt(s, i, delims, b, e);
    }
  }

  /** All the tokens successive `strtok` calls return, starting at `i`. */
  function FieldsFrom(s: string, i: nat, delims: string): (r: seq<string>)
    requires i <= |s|
    ensures forall w :: w in r ==> IsField(w, delims)
    decreases |s| - i
  {
    match Strtok(s, i, delims)
    case None => []
    case Some((w, next)) => [w] + FieldsFrom(s, next, delims)
  }

  function Fields(s: string, delims: string): seq<string>
  {
    FieldsFrom(s, 0, delims)
  }

  /** The words of `ws` separated by one `sep` each. */
  function Join(ws: seq<string>, sep: char): string
  {
    if ws == [] then []
    else if |ws| == 1 then ws[0]
    else ws[0] + [sep] + Join(ws[1..], sep)
  }

  lemma {:induction false} SkipDelimsShift(p: string, q: string, i: nat, delims: string)
    requires i <= |q|
    ensures SkipDelims(p + q, |p| + i, delims) == |p| + SkipDelims(q, i, delims)
    decreases |q| - i
  {
    if i < |q| {
      assert (p + q)[|p| + i] == q[i];
      if q[i] in delims { SkipDelimsShift(p, q, i + 1, delims); }
    }
  }

  lemma {:induction false} RunEndShift(p: string, q: string, i: nat, delims: string)
    requires i <= |q|
    ensures RunEnd(p + q, |p| + i, delims) == |p| + RunEnd(q, i, delims)
    decreases |q| - i
  {
    if i < |q| {
      assert (p + q)[|p| + i] == q[i];
      if q[i] !in delims { RunEndShift(p, q, i + 1, delims); }
    }
  }

  /** `strtok` resumed inside `q` behaves the same after a prefix `p`. */
  lemma StrtokShift(p: string, q: string, i: nat, delims: string)
    requires i <= |q|
    ensures Strtok(p + q, |p| + i, delims) ==
            match Strtok(q, i, delims)
            case None => None
            case Some((w, next)) => Some((w, |p| + next))
  {
    var s := p + q;
    SkipDelimsShift(p, q, i, delims);
    var b := SkipDelims(q, i, delims);
    if b < |q| {
      RunEndShift(p, q, b, delims);
      var e := RunEnd(q, b, delims);
      assert s[|p| + b..|p| + e] == q[b..e];
    }
  }

  /** Fields of `p + q` found after `p` are the fields of `q`. */
  lemma {:induction false} FieldsShift(p: string, q: string, i: nat, delims: string)
    requires i <= |q|
    ensures FieldsFrom(p + q, |p| + i, delims) == FieldsFrom(q, i, delims)
    decreases |q| - i
  {
    StrtokShift(p, q, i, delims);
    var t := Strtok(q, i, delims);
    if t.None? {
      assert Strtok(p + q, |p| + i, delims).None?;
    } else {
      var w, next := t.value.0, t.value.1;
      assert Strtok(p + q, |p| + i, delims) == Some((w, (|p| + next) as nat));
      FieldsShift(p, q, next, delims);
      assert FieldsFrom(p + q, |p| + i, delims) == [w] + FieldsFrom(p + q, |p| + next, delims);
    }
  }

  /** Splitting words joined by one delimiter gives back the words. */
  lemma {:induction false} FieldsOfJoin(ws: seq<string>, sep: char, delims: string)
    requires sep in delims
    requires forall w :: w in ws ==> IsField(w, delims)
    ensures Fields(Join(ws, sep), delims) == ws
  {
    if ws == [] {
      assert Strtok([], 0, delims) == None;
    } else {
      var w := ws[0];
      assert IsField(w, delims);
      var rest := Join(ws[1..], sep);
      var s := Join(ws, sep);
      var tail: string := if |ws| == 1 then [] else [sep] + rest;
      assert s == w + tail;
      assert SkipDelims(s, 0, delims) == 0 by { assert s[0] == w[0]; }
      assert RunEnd(s, 0, delims) == |w| by {
        RunEndSpec(s, 0, delims);
        assert forall k :: 0 <= k < |w| ==> s[k] == w[k];
        if |ws| > 1 { assert s[|w|] == sep; }
      }
      assert s[0..|w|] == w;
      if |ws| == 1 {
        assert Strtok(s, 0, delims) == Some((w, |w|));
        assert Strtok(s, |w|, delims) == None;
        assert FieldsFrom(s, |w|, delims) == [];
        assert ws == [w];
      } else {
        assert Strtok(s, 0, delims) == Some((w, |w| + 1));
        assert s == (w + [sep]) + rest;
        FieldsShift(w + [sep], rest, 0, delims);
        FieldsOfJoin(ws[1..], sep, delims);
        assert ws == [w] + ws[1..];
      }
    }
  }

  /** Every character of `g` is a delimiter. */
  predicate AllDelims(g: string, delims: string)
  {
    forall k :: 0 <= k < |g| ==> g[k] in delims
  }

  /** The text `gaps[0] + ws[0] + gaps[1] + ws[1] + ... + gaps[|ws|]`: the
      words with a run of delimiters before, between and after them. */
  function Spaced(ws: seq<string>, gaps: seq<string>): string
    requires |gaps| == |ws| + 1
    decreases |ws|
  {
    if ws == [] then gaps[0] else gaps[0] + ws[0] + Spaced(ws[1..], gaps[1..])
  }

  /** Dropping the first character of a text that starts with a non-empty
      run of delimiters shortens that run. */
  lemma SpacedDrop(ws: seq<string>, gaps: seq<string>)
    requires |gaps| == |ws| + 1 && gaps[0] != []
    ensures var s := Spaced(ws, gaps);
            s != [] && s[0] == gaps[0][0] && s[1..] == Spaced(ws, [gaps[0][1..]] + gaps[1..])
  {
    var g := [gaps[0][1..]] + gaps[1..];
    assert g[1..] == gaps[1..];
  }

  /** `strtok` steps over any run of delimiters before the next token. */
  lemma SkipDelimsOver(s: string, i: nat, j: nat, delims: string)
    requires i <= j <= |s| && forall k :: i <= k < j ==> s[k] in delims
    ensures SkipDelims(s, i, delims) == SkipDelims(s, j, delims)
    decreases j - i
  {
    if i < j {
      SkipDelimsOver(s, i + 1, j, delims);
    }
  }

  /** Leading delimiters yield no token. */
  lemma LeadingDelims(p: string, q: string, delims: string)
    requires AllDelims(p, delims)
    ensures FieldsFrom(p + q, 0, delims) == FieldsFrom(q, 0, delims)
  {
    var s := p + q;
    SkipDelimsOver(s, 0, |p|, delims);
    assert Strtok(s, 0, delims) == Strtok(s, |p|, delims);
    FieldsShift(p, q, 0, delims);
  }

  /** A token that runs from `b` up to a delimiter or the end of `s`. */
  lemma RunEndAt(s: string, b: nat, e: nat, delims: string)
    requires b <= e <= |s| && (forall k :: b <= k < e ==> s[k] !in delims) && (e == |s| || s[e] in delims)
    ensures RunEnd(s, b, delims) == e
  {
    RunEndSpec(s, b, delims);
  }

  /** A field followed by the end of the text or a delimiter is the next
      token, and the following call resumes past that delimiter. */
  lemma FirstToken(w: string, rest: string, delims: string)
    requires IsField(w, delims) && (rest == [] || rest[0] in delims)
    ensures FieldsFrom(w + rest, 0, delims) ==
            [w] + (if rest == [] then [] else FieldsFrom(rest[1..], 0, delims))
  {
    var t := w + rest;
    assert SkipDelims(t, 0, delims) == 0 by { assert t[0] == w[0]; }
    RunEndAt(t, 0, |w|, delims);
    assert t[0..|w|] == w;
    if rest == [] {
      assert Strtok(t, |w|, delims) == None;
    } else {
      assert Strtok(t, 0, delims) == Some((w, |w| + 1));
      assert t == (w + [rest[0]]) + rest[1..];
      FieldsShift(w + [rest[0]], rest[1..], 0, delims);
    }
  }

  /** Splitting the words with any runs of delimiters around them, non-empty
      between two words, gives back the words: runs of delimiters collapse
      and leading or trailing ones yield no token. */
  lemma {:induction false} FieldsOfSpaced(ws: seq<string>, gaps: seq<string>, delims: string)
    requires |gaps| == |ws| + 1
    requires forall j :: 0 <= j < |gaps| ==> AllDelims(gaps[j], delims)
    requires forall j :: 0 < j < |ws| ==> gaps[j] != []
    requires forall j :: 0 <= j < |ws| ==> IsField(ws[j], delims)
    ensures Fields(Spaced(ws, gaps), delims) == ws
    decreases |ws|
  {
    if ws == [] {
      LeadingDelims(gaps[0], [], delims);
      assert gaps[0] + [] == gaps[0];
      assert Strtok([], 0, delims) == None;
    } else {
      var w := ws[0];
      var rest := Spaced(ws[1..], gaps[1..]);
      assert Spaced(ws, gaps) == gaps[0] + (w + rest);
      LeadingDelims(gaps[0], w + rest, delims);
      if gaps[1] == [] {
        assert rest == [];
        FirstToken(w, rest, delims);
      } else {
        SpacedDrop(ws[1..], gaps[1..]);
        assert AllDelims(gaps[1], delims);
        FirstToken(w, rest, delims);
        var gaps' := [gaps[1][1..]] + gaps[2..];
        assert forall j :: 1 <= j < |gaps'| ==> gaps'[j] == gaps[j + 1];
        FieldsOfSpaced(ws[1..], gaps', delims);
      }
      assert ws == [w] + ws[1..];
    }
  }

  // --------------------------------------------------- NULL-terminated arrays

  /** The first `m` elements of `xs` (all of them when there are fewer). */
  function Take<T>(xs: seq<T>, m: nat): seq<T>
  {
    if |xs| <= m then xs else xs[..m]
  }

  /** The pointer array `a` holds the argument vector `argv`, NULL-terminated. */
  ghost predicate Holds(a: array<Option<string>>, argv: seq<string>)
    reads a
  {
    |argv| < a.Length && a[|argv|] == None &&
    forall k :: 0 <= k < |argv| ==> a[k] == Some(argv[k])
  }

  /** A strtok loop that stopped after `m` tokens or at the last one has
      collected the first `m` fields. */
  lemma TakeWhenDone(s: string, delims: string, done: seq<string>, cursor: nat, m: nat)
    requires cursor <= |s| && Fields(s, delims) == done + FieldsFrom(s, cursor, delims)
    requires |done| <= m && (Strtok(s, cursor, delims).None? || |done| == m)
    ensures Take(Fields(s, delims), m) == done
  {
    if Strtok(s, cursor, delims).Some? {
      assert Fields(s, delims)[..|done|] == done;
    } else {
      assert Fields(s, delims) == done + [];
    }
  }

  /** `tokenize` / `tokenize_input`: fills a fresh array of `maxTokens`
      pointers with the strtok tokens of `line`, at most `maxTokens - 1` of
      them (the rest are dropped), followed by NULL. */
  method TokenizeBounded(line: string, delims: string, maxTokens: nat)
    returns (tokens: array<Option<string>>)
    requires 1 <= maxTokens
    ensures fresh(tokens) && tokens.Length == maxTokens
    ensures Holds(tokens, Take(Fields(line, delims), maxTokens - 1))
  {
    tokens := new Option<string>[maxTokens](_ => None);
    var pos := 0;
    var cursor := 0;  // where strtok resumes
    ghost var done: seq<string> := [];
    var tok := Strtok(line, cursor, delims);
    while tok.Some? && pos < maxTokens - 1
      invariant 0 <= pos <= maxTokens - 1 && cursor <= |line| && |done| == pos
      invariant tok == Strtok(line, cursor, delims)
      invariant Fields(line, delims) == done + FieldsFrom(line, cursor, delims)
      invariant forall k :: 0 <= k < pos ==> tokens[k] == Some(done[k])
      invariant forall k :: pos <= k < maxTokens ==> tokens[k] == None
      decreases |line| - cursor
    {
      var w := tok.value.0;
      assert FieldsFrom(line, cursor, delims) == [w] + FieldsFrom(line, tok.value.1, delims);
      assert done + FieldsFrom(line, cursor, delims) == (done + [w]) + FieldsFrom(line, tok.value.1, delims);
      tokens[pos] := Some(w);
      done := done + [w];
      pos := pos + 1;
      cursor := tok.value.1;
      tok := Strtok(line, cursor, delims);
    }
    TakeWhenDone(line, delims, done, cursor, maxTokens - 1);
    assert tokens[pos] == None;
  }

  /** The argument vector a NULL-terminated pointer array holds, read up to
      its NULL (as `execvp` reads it). */
  method ArgvOf(tokens: array<Option<string>>, ghost argv: seq<string>) returns (args: seq<string>)
    requires Holds(tokens, argv)
    ensures args == argv
  {
    args := [];
    var n := 0;
    while tokens[n].Some?
      invariant 0 <= n <= |argv| && args == argv[..n]
      decreases |argv| - n
    {
      args := args + [tokens[n].value];
      n := n + 1;
    }
    assert args == argv[..|argv|];
  }

  // ----------------------------------------------------- background marker

  /** The argument vector without a final "&" token, and whether there was one. */
  function DropBackground(argv: seq<string>): (r: (seq<string>, bool))
    ensures r.0 + (if r.1 then ["&"] else []) == argv
    ensures r.1 <==> argv != [] && argv[|argv| - 1] == "&"
  {
    if argv != [] && argv[|argv| - 1] == "&" then (argv[..|argv| - 1], true) else (argv, false)
  }

  /** Counts the tokens, and replaces a final "&" token by NULL. */
  method StripBackground(tokens: array<Option<string>>, ghost argv: seq<string>)
    returns (background: bool, ghost rest: seq<string>)
    requires Holds(tokens, argv)
    modifies tokens
    ensures (rest, background) == DropBackground(argv)
    ensures Holds(tokens, rest)
  {
    var t := 0;
    while tokens[t].Some?
      invariant 0 <= t <= |argv|
      decreases |argv| - t
    {
      t := t + 1;
    }
    if t > 0 && tokens[t - 1].value == "&" {
      tokens[t - 1] := None;
      background, rest := true, argv[..t - 1];
    } else {
      background, rest := false, argv;
    }
  }
}
