/**
 * The few functions of Go's `strings` package that the backup agent relies on,
 * restricted to single-character separators, as the agent uses them.
 */
module Text {

  /** Number of occurrences of `c` in `s`. */
  function Count(s: string, c: char): nat
  {
    if s == [] then 0 else (if s[0] == c then 1 else 0) + Count(s[1..], c)
  }

  lemma {:induction false} CountAppend(s: string, t: string, c: char)
    ensures Count(s + t, c) == Count(s, c) + Count(t, c)
  {
    if s != [] {
      CountAppend(s[1..], t, c);
      assert (s + t)[1..] == s[1..] + t;
    } else {
      assert s + t == t;
    }
  }

  /**
   * `strings.Split(s, string(sep))`: the pieces between separators, always at
   * least one (an empty string gives `[""]`).
   */
  function Split(s: string, sep: char): (parts: seq<string>)
    ensures |parts| == Count(s, sep) + 1
    ensures forall i :: 0 <= i < |parts| ==> sep !in parts[i]
  {
    if s == [] then [""]
    else
      var rest := Split(s[1..], sep);
      if s[0] == sep then [""] + rest
      else [[s[0]] + rest[0]] + rest[1..]
  }

  /** `strings.Join(parts, string(sep))` */
  function Join(parts: seq<string>, sep: char): string
  {
    if parts == [] then ""
    else if |parts| == 1 then parts[0]
    else parts[0] + [sep] + Join(parts[1..], sep)
  }

  /**
   * `strings.SplitN(s, string(sep), 2)`: the text before the first separator
   * and everything after it, or `[s]` when there is no separator.
   */
  function SplitFirst(s: string, sep: char): (parts: seq<string>)
    ensures |parts| == 1 <==> sep !in s
    ensures |parts| == 1 ==> parts[0] == s
    ensures |parts| == 2 ==> sep !in parts[0] && parts[0] + [sep] + parts[1] == s
    ensures 1 <= |parts| <= 2
  {
    if s == [] then [s]
    else if s[0] == sep then ["", s[1..]]
    else
      var rest := SplitFirst(s[1..], sep);
      if |rest| == 1 then [s]
      else
        assert s == [s[0]] + s[1..];
        [[s[0]] + rest[0], rest[1]]
  }

  /** `strings.Replace(s, string(c), repl, -1)`: every `c` replaced by `repl`. */
  function ReplaceAll(s: string, c: char, repl: string): (r: string)
    ensures c !in repl ==> c !in r
  {
    if s == [] then ""
    else (if s[0] == c then repl else [s[0]]) + ReplaceAll(s[1..], c, repl)
  }

  /** Each occurrence of `c` grows or shrinks the text by the length of `repl` less one. */
  lemma {:induction false} ReplaceAllLength(s: string, c: char, repl: string)
    ensures |ReplaceAll(s, c, repl)| == |s| + Count(s, c) * (|repl| - 1)
  {
    if s != [] {
      ReplaceAllLength(s[1..], c, repl);
    }
  }

  /** Joining the pieces back with the separator gives the original text. */
  lemma {:induction false} JoinSplit(s: string, sep: char)
    ensures Join(Split(s, sep), sep) == s
  {
    if s != [] {
      JoinSplit(s[1..], sep);
      var rest := Split(s[1..], sep);
      if s[0] != sep {
        if |rest| == 1 {
          assert Join(Split(s, sep), sep) == [s[0]] + rest[0];
        } else {
          assert Split(s, sep)[1..] == rest[1..];
          assert Join(Split(s, sep), sep) == [s[0]] + rest[0] + [sep] + Join(rest[1..], sep);
        }
      }
    }
  }

  /** A text without the separator is a single piece. */
  lemma {:induction false} SplitNoSeparator(s: string, sep: char)
    requires sep !in s
    ensures Split(s, sep) == [s]
  {
    if s != [] {
      SplitNoSeparator(s[1..], sep);
      assert [s[0]] + s[1..] == s;
    }
  }

  /**
   * Splitting around a separator: the pieces of `x`, then the pieces of `y`.
   * This is what makes line- and field-oriented formats compose.
   */
  lemma {:induction false} SplitAround(x: string, sep: char, y: string)
    ensures Split(x + [sep] + y, sep) == Split(x, sep) + Split(y, sep)
  {
    var s := x + [sep] + y;
    if x == [] {
      assert s[1..] == y;
    } else {
      assert s[1..] == x[1..] + [sep] + y;
      SplitAround(x[1..], sep, y);
      if x[0] != sep {
        SplitHead(s, sep);
        SplitHead(x, sep);
      }
    }
  }

  /** The first piece of a text that starts with a non-separator. */
  lemma SplitHead(s: string, sep: char)
    requires s != [] && s[0] != sep
    ensures Split(s, sep) == [[s[0]] + Split(s[1..], sep)[0]] + Split(s[1..], sep)[1..]
  {
  }

  /** Splitting the joined pieces gives the pieces back, when none holds the separator. */
  lemma {:induction false} SplitJoin(parts: seq<string>, sep: char)
    requires parts != []
    requires forall i :: 0 <= i < |parts| ==> sep !in parts[i]
    ensures Split(Join(parts, sep), sep) == parts
  {
    if |parts| == 1 {
      SplitNoSeparator(parts[0], sep);
    } else {
      SplitJoin(parts[1..], sep);
      SplitNoSeparator(parts[0], sep);
      SplitAround(parts[0], sep, Join(parts[1..], sep));
      assert parts == [parts[0]] + parts[1..];
    }
  }

  /** Text without `c` is left as it is. */
  lemma {:induction false} ReplaceAllAbsent(s: string, c: char, repl: string)
    requires c !in s
    ensures ReplaceAll(s, c, repl) == s
  {
    if s != [] {
      ReplaceAllAbsent(s[1..], c, repl);
      assert [s[0]] + s[1..] == s;
    }
  }

  /** Solver hints about concatenation, stated once for every element type and
      proved where nothing else is in scope. */
  lemma SeqAssoc<T>(a: seq<T>, b: seq<T>, c: seq<T>)
    ensures a + b + c == a + (b + c)
  {
  }

  lemma AppendEmpty<T>(a: seq<T>)
    ensures a + [] == a
  {
  }

  lemma SnocSplit<T>(b: seq<T>)
    requires b != []
    ensures b == b[..|b| - 1] + [b[|b| - 1]]
  {
  }

  lemma PrefixOfAppend<T>(a: seq<T>, b: seq<T>)
    ensures (a + b)[..|a|] == a
  {
  }
}
