/** A small optional-value type, standing for JavaScript's `undefined`/`null` alternatives. */
module Wrappers {
  datatype Option<+T> = None | Some(value: T)
}

/**
 * String helpers with the semantics of JavaScript's `String.prototype.split`
 * called with a one-character separator and no limit, and of its inverse,
 * `Array.prototype.join`.
 */
module Strings {

  /** Number of occurrences of `c` in `s`. */
  function Count(s: string, c: char): (n: nat)
    ensures n <= |s|
    ensures n == 0 <==> c !in s
  {
    if s == [] then 0 else (if s[0] == c then 1 else 0) + Count(s[1..], c)
  }

  /** `parts.join(sep)`: the parts with one separator between neighbours. */
  function Join(parts: seq<string>, sep: char): string
  {
    if |parts| == 0 then []
    else if |parts| == 1 then parts[0]
    else parts[0] + [sep] + Join(parts[1..], sep)
  }

  /**
   * `s.split(sep)`: the maximal separator-free pieces between occurrences
   * of `sep`. There is always at least one piece: the empty string splits
   * into one empty piece.
   */
  function Split(s: string, sep: char): (parts: seq<string>)
    ensures |parts| >= 1
    ensures forall i :: 0 <= i < |parts| ==> sep !in parts[i]
  {
    if s == [] then [[]]
    else
      var rest := Split(s[1..], sep);
      if s[0] == sep then [[]] + rest
      else [[s[0]] + rest[0]] + rest[1..]
  }

  /** Joining a head in front of at least one more part puts a separator after it. */
  lemma JoinCons(head: string, tail: seq<string>, sep: char)
    requires |tail| >= 1
    ensures Join([head] + tail, sep) == head + [sep] + Join(tail, sep)
  {
    assert ([head] + tail)[1..] == tail;
  }

  /** `split` on a non-empty string, in terms of the split of its tail. */
  lemma SplitStep(s: string, sep: char)
    requires s != []
    ensures var rest := Split(s[1..], sep);
      Split(s, sep) == if s[0] == sep then [[]] + rest else [[s[0]] + rest[0]] + rest[1..]
  {
  }

  /** Joining the pieces of `s.split(sep)` with `sep` gives back `s`. */
  lemma {:induction false} JoinSplit(s: string, sep: char)
    ensures Join(Split(s, sep), sep) == s
  {
    if s != [] {
      JoinSplit(s[1..], sep);
      SplitStep(s, sep);
      var rest := Split(s[1..], sep);
      if s[0] == sep {
        JoinCons([], rest, sep);
        assert s == [sep] + s[1..];
      } else if |rest| == 1 {
        assert s == [s[0]] + s[1..];
      } else {
        JoinCons([s[0]] + rest[0], rest[1..], sep);
        JoinCons(rest[0], rest[1..], sep);
        assert rest == [rest[0]] + rest[1..];
        assert s == [s[0]] + s[1..];
      }
    }
  }

  /** There is one piece more than there are separators. */
  lemma {:induction false} SplitCount(s: string, sep: char)
    ensures |Split(s, sep)| == Count(s, sep) + 1
  {
    if s != [] {
      SplitCount(s[1..], sep);
    }
  }

  /** A string without the separator splits into itself alone. */
  lemma SplitNoSeparator(s: string, sep: char)
    requires sep !in s
    ensures Split(s, sep) == [s]
  {
    SplitCount(s, sep);
    JoinSplit(s, sep);
    var parts := Split(s, sep);
    assert |parts| == 1;
  }

  /** Concatenation of piece lists is associative. */
  lemma AppendAssoc(x: seq<string>, y: seq<string>, z: seq<string>)
    ensures x + (y + z) == (x + y) + z
  {
  }

  /** Splitting distributes over a separator: the pieces of `a` followed by those of `b`. */
  lemma {:induction false} SplitAround(a: string, b: string, sep: char)
    ensures Split(a + [sep] + b, sep) == Split(a, sep) + Split(b, sep)
  {
    var s := a + [sep] + b;
    var right := Split(b, sep);
    SplitStep(s, sep);
    if a == [] {
      assert s[1..] == b;
    } else {
      assert s[1..] == a[1..] + [sep] + b;
      SplitAround(a[1..], b, sep);
      SplitStep(a, sep);
      var rest := Split(a[1..], sep);
      if a[0] == sep {
        assert Split(s, sep) == [[]] + (rest + right);
        assert Split(a, sep) == [[]] + rest;
        AppendAssoc([[]], rest, right);
      } else {
        var both := rest + right;
        assert both[0] == rest[0] && both[1..] == rest[1..] + right;
        assert Split(s, sep) == [[a[0]] + rest[0]] + (rest[1..] + right);
        assert Split(a, sep) == [[a[0]] + rest[0]] + rest[1..];
        AppendAssoc([[a[0]] + rest[0]], rest[1..], right);
      }
    }
  }


  /** A separator-free head followed by the separator splits off as one piece. */
  lemma SplitCons(head: string, tail: string, sep: char)
    requires sep !in head
    ensures Split(head + [sep] + tail, sep) == [head] + Split(tail, sep)
  {
    SplitAround(head, tail, sep);
    SplitNoSeparator(head, sep);
  }

  /** `split` undoes `join` when no part contains the separator. */
  lemma {:induction false} SplitJoin(parts: seq<string>, sep: char)
    requires |parts| >= 1
    requires forall i :: 0 <= i < |parts| ==> sep !in parts[i]
    ensures Split(Join(parts, sep), sep) == parts
  {
    if |parts| == 1 {
      SplitNoSeparator(parts[0], sep);
    } else {
      SplitJoin(parts[1..], sep);
      SplitAround(parts[0], Join(parts[1..], sep), sep);
      SplitNoSeparator(parts[0], sep);
      assert parts == [parts[0]] + parts[1..];
    }
  }

  /**
   * The last piece of `s.split(sep)` is the longest separator-free suffix of
   * `s`: either all of `s`, or what follows the last separator.
   */
  lemma {:induction false} SplitLast(s: string, sep: char)
    ensures var parts := Split(s, sep);
      var last := parts[|parts| - 1];
      && |last| <= |s|
      && s[|s| - |last|..] == last
      && (|last| == |s| || s[|s| - |last| - 1] == sep)
  {
    if s != [] {
      SplitLast(s[1..], sep);
      SplitStep(s, sep);
      var rest := Split(s[1..], sep);
      var parts := Split(s, sep);
      var last := rest[|rest| - 1];
      if s[0] == sep || |rest| > 1 {
        assert parts[|parts| - 1] == last;
        assert s[|s| - |last|..] == s[1..][|s| - 1 - |last|..];
        if s[0] != sep {
          SplitCount(s[1..], sep);
          assert |last| < |s| - 1;
        }
        if |last| < |s| - 1 {
          assert s[|s| - |last| - 1] == s[1..][|s| - 1 - |last| - 1];
        }
      } else {
        JoinSplit(s[1..], sep);
        assert parts[|parts| - 1] == [s[0]] + s[1..] == s;
      }
    }
  }

}
