/** Line and field helpers for the report's CSV text: newline-terminated lines,
    comma-joined fields, and JavaScript's `String.prototype.split` on one
    character, used to read the text back. */
module Text {

  /** Each line followed by a line feed, concatenated. */
  function Unlines(lines: seq<string>): string
  {
    if lines == [] then [] else lines[0] + "\n" + Unlines(lines[1..])
  }

  /** The fields separated by `sep` (JavaScript `Array.prototype.join`). */
  function Join(fields: seq<string>, sep: char): string
  {
    if fields == [] then []
    else if |fields| == 1 then fields[0]
    else fields[0] + [sep] + Join(fields[1..], sep)
  }

  /** Index of the first `c` in `s`. */
  function IndexOf(s: string, c: char): (i: nat)
    requires c in s
    ensures i < |s| && s[i] == c && c !in s[..i]
  {
    if s[0] == c then 0
    else
      assert c in s[1..] by { var k :| 0 <= k < |s| && s[k] == c; assert s[1..][k - 1] == c; }
      var j := IndexOf(s[1..], c);
      assert s[..j + 1] == [s[0]] + s[1..][..j];
      j + 1
  }

  /** `s.split(sep)`: the pieces between occurrences of `sep`. */
  function Split(s: string, sep: char): (pieces: seq<string>)
    ensures |pieces| >= 1
    decreases |s|
  {
    if sep !in s then [s]
    else
      var i := IndexOf(s, sep);
      [s[..i]] + Split(s[i + 1..], sep)
  }

  /** Occurrences of `c` in `s`. */
  function Count(s: string, c: char): nat
  {
    if s == [] then 0 else (if s[0] == c then 1 else 0) + Count(s[1..], c)
  }

  lemma {:induction false} UnlinesAppend(a: seq<string>, b: seq<string>)
    ensures Unlines(a + b) == Unlines(a) + Unlines(b)
  {
    if a == [] {
      assert a + b == b;
    } else {
      assert (a + b)[1..] == a[1..] + b;
      UnlinesAppend(a[1..], b);
    }
  }

  lemma UnlinesSnoc(a: seq<string>, line: string)
    ensures Unlines(a + [line]) == Unlines(a) + line + "\n"
  {
    UnlinesAppend(a, [line]);
    assert Unlines([line]) == line + "\n" + Unlines([]);
  }

  lemma {:induction false} CountAppend(a: string, b: string, c: char)
    ensures Count(a + b, c) == Count(a, c) + Count(b, c)
  {
    if a == [] {
      assert a + b == b;
    } else {
      assert (a + b)[1..] == a[1..] + b;
      CountAppend(a[1..], b, c);
    }
  }

  lemma {:induction false} CountAbsent(s: string, c: char)
    requires c !in s
    ensures Count(s, c) == 0
  {
    if s != [] {
      assert c !in s[1..] by { forall k | 0 <= k < |s| - 1 ensures s[1..][k] != c { assert s[1..][k] == s[k + 1]; } }
      CountAbsent(s[1..], c);
    }
  }

  /** Splitting yields one more piece than there are separators. */
  lemma {:induction false} SplitCount(s: string, sep: char)
    ensures |Split(s, sep)| == Count(s, sep) + 1
    decreases |s|
  {
    if sep !in s {
      CountAbsent(s, sep);
    } else {
      var i := IndexOf(s, sep);
      assert s == s[..i] + [sep] + s[i + 1..];
      CountAppend(s[..i] + [sep], s[i + 1..], sep);
      CountAppend(s[..i], [sep], sep);
      CountAbsent(s[..i], sep);
      assert Count([sep], sep) == 1 + Count([], sep);
      SplitCount(s[i + 1..], sep);
    }
  }

  /** Joining introduces exactly one separator between neighbouring fields. */
  lemma {:induction false} CountJoin(fields: seq<string>, sep: char)
    requires |fields| >= 1
    ensures Count(Join(fields, sep), sep) == CountAll(fields, sep) + |fields| - 1
  {
    if |fields| > 1 {
      CountAppend(fields[0] + [sep], Join(fields[1..], sep), sep);
      CountAppend(fields[0], [sep], sep);
      assert Count([sep], sep) == 1 + Count([], sep);
      CountJoin(fields[1..], sep);
    }
  }

  /** Occurrences of `c` over all fields. */
  function CountAll(fields: seq<string>, c: char): nat
  {
    if fields == [] then 0 else Count(fields[0], c) + CountAll(fields[1..], c)
  }

  /** No field contains `c`. */
  predicate NoneContains(fields: seq<string>, c: char)
  {
    forall k :: 0 <= k < |fields| ==> c !in fields[k]
  }

  lemma {:induction false} CountPositive(s: string, c: char)
    requires c in s
    ensures Count(s, c) > 0
  {
    if s[0] != c {
      var k :| 0 <= k < |s| && s[k] == c;
      assert s[1..][k - 1] == c;
      CountPositive(s[1..], c);
    }
  }

  /** The fields hold no `c` exactly when `c` occurs nowhere in them. */
  lemma {:induction false} CountAllZero(fields: seq<string>, c: char)
    ensures CountAll(fields, c) == 0 <==> NoneContains(fields, c)
  {
    if fields != [] {
      CountAllZero(fields[1..], c);
      if c in fields[0] {
        CountPositive(fields[0], c);
      } else {
        CountAbsent(fields[0], c);
        assert NoneContains(fields[1..], c) ==> NoneContains(fields, c) by {
          if NoneContains(fields[1..], c) {
            forall k | 0 <= k < |fields| ensures c !in fields[k] {
              if k > 0 { assert fields[k] == fields[1..][k - 1]; }
            }
          }
        }
      }
    }
  }

  /** Splitting at a separator preceded by a separator-free piece: that
      piece comes first, the split of the rest follows. */
  lemma SplitFirst(f: string, rest: string, sep: char)
    requires sep !in f
    ensures Split(f + [sep] + rest, sep) == [f] + Split(rest, sep)
  {
    var s := f + [sep] + rest;
    assert s[|f|] == sep;
    assert s[..|f|] == f;
    assert IndexOf(s, sep) == |f|;
    assert s[|f| + 1..] == rest;
  }

  /** `split` undoes `join` when no field holds the separator. */
  lemma {:induction false} SplitJoin(fields: seq<string>, sep: char)
    requires |fields| >= 1 && NoneContains(fields, sep)
    ensures Split(Join(fields, sep), sep) == fields
  {
    if |fields| == 1 {
      assert Join(fields, sep) == fields[0];
    } else {
      assert sep !in fields[0];
      SplitFirst(fields[0], Join(fields[1..], sep), sep);
      assert NoneContains(fields[1..], sep) by {
        forall k | 0 <= k < |fields| - 1 ensures sep !in fields[1..][k] { assert fields[1..][k] == fields[k + 1]; }
      }
      SplitJoin(fields[1..], sep);
      assert fields == [fields[0]] + fields[1..];
    }
  }

  /** A joined line holds no character that neither the fields nor the
      separator hold. */
  lemma {:induction false} JoinAvoids(fields: seq<string>, sep: char, c: char)
    requires c != sep && NoneContains(fields, c)
    ensures c !in Join(fields, sep)
  {
    if |fields| > 1 {
      JoinAvoids(fields[1..], sep, c);
    }
  }

  /** Splitting newline-terminated text at line feeds gives back its lines,
      plus the empty piece after the final line feed. */
  lemma {:induction false} SplitUnlines(lines: seq<string>)
    requires NoneContains(lines, '\n')
    ensures Split(Unlines(lines), '\n') == lines + [[]]
  {
    if lines == [] {
      assert Unlines(lines) == [];
    } else {
      var l, rest := lines[0], lines[1..];
      assert lines == [l] + rest;
      assert '\n' !in l && NoneContains(rest, '\n') by {
        assert forall k :: 0 <= k < |rest| ==> rest[k] == lines[k + 1];
      }
      SplitUnlines(rest);
      SplitFirst(l, Unlines(rest), '\n');
      AppendAssoc([l], rest, [[]]);
    }
  }

  lemma AppendAssoc<T>(a: seq<T>, b: seq<T>, c: seq<T>)
    ensures (a + b) + c == a + (b + c)
  {
  }

  /** `join` on a first field and at least one more. */
  lemma JoinCons(f: string, rest: seq<string>, sep: char)
    requires |rest| >= 1
    ensures Join([f] + rest, sep) == f + [sep] + Join(rest, sep)
  {
    assert ([f] + rest)[1..] == rest;
  }

  lemma TakeSnoc<T>(s: seq<T>, k: nat)
    requires k < |s|
    ensures s[..k + 1] == s[..k] + [s[k]]
  {
  }

  // Small sequence facts the solver does not find unaided inside the larger
  // proofs; each is stated once here and called where a proof needs it.

  lemma AppendEmpty<T>(s: seq<T>, e: seq<T>)
    requires |e| == 0
    ensures s + e == s
  {
  }

  lemma TakeAll<T>(s: seq<T>)
    ensures s[..|s|] == s
  {
  }

  /** Display literals as nested appends, the shape `Join` and `Unlines` recurse on. */
  lemma Display3<T>(a: T, b: T, c: T)
    ensures [a, b, c] == [a] + ([b] + [c])
  {
  }

  lemma Display4<T>(a: T, b: T, c: T, e: T)
    ensures [a, b, c, e] == [a] + ([b] + ([c] + [e]))
  {
  }

  lemma Display5<T>(a: T, b: T, c: T, e: T, f: T)
    ensures [a, b, c, e, f] == [a] + ([b] + ([c] + ([e] + [f])))
  {
  }

  /** The text of three lines. */
  lemma Unlines3(a: string, b: string, c: string)
    ensures Unlines([a, b, c]) == a + "\n" + b + "\n" + c + "\n"
  {
    Display3(a, b, c);
    assert ([a] + ([b] + [c]))[1..] == [b] + [c];
    assert ([b] + [c])[1..] == [c];
    assert Unlines([c]) == c + "\n" + Unlines([]);
    assert a + "\n" + (b + "\n" + (c + "\n")) == a + "\n" + b + "\n" + c + "\n";
  }

  /** A line joined from four fields, spelled out. */
  lemma Join4(a: string, b: string, c: string, e: string, sep: char)
    ensures Join([a, b, c, e], sep) == a + [sep] + b + [sep] + c + [sep] + e
  {
    Display4(a, b, c, e);
    assert Join([e], sep) == e;
    JoinCons(c, [e], sep);
    JoinCons(b, [c] + [e], sep);
    JoinCons(a, [b] + ([c] + [e]), sep);
    assert a + [sep] + (b + [sep] + (c + [sep] + e)) == a + [sep] + b + [sep] + c + [sep] + e;
  }

  /** A line joined from five fields, spelled out. */
  lemma Join5(a: string, b: string, c: string, e: string, f: string, sep: char)
    ensures Join([a, b, c, e, f], sep) == a + [sep] + b + [sep] + c + [sep] + e + [sep] + f
  {
    Display5(a, b, c, e, f);
    assert Join([f], sep) == f;
    JoinCons(e, [f], sep);
    JoinCons(c, [e] + [f], sep);
    JoinCons(b, [c] + ([e] + [f]), sep);
    JoinCons(a, [b] + ([c] + ([e] + [f])), sep);
    assert a + [sep] + (b + [sep] + (c + [sep] + (e + [sep] + f)))
        == a + [sep] + b + [sep] + c + [sep] + e + [sep] + f;
  }

  /** Re-bracketing an append, which the solver does not do by itself. */
  lemma Regroup3<T>(x: seq<T>, a: seq<T>, b: seq<T>, c: seq<T>)
    ensures x + (a + b + c) == x + a + b + c
  {
  }

  /** Nine singletons appended in turn are the first one followed by the other eight. */
  lemma Snoc8<T>(h: T, m: seq<T>)
    requires |m| == 8
    ensures [h] + [m[0]] + [m[1]] + [m[2]] + [m[3]] + [m[4]] + [m[5]] + [m[6]] + [m[7]] == [h] + m
  {
  }
}
