/** The Option type, used for Python values that may be None. */
module Wrappers {
  datatype Option<+T> = None | Some(value: T)
}

/**
 * The few Python string operations the runner's decisions rest on:
 * `str.lower()`, the `in` test on strings, `str.split(',')` and the
 * whitespace-splitting `str.split()`.
 */
module Strings {

  /** `c.lower()` for one character (ASCII letters only). */
  function LowerChar(c: char): char
  {
    if 'A' <= c <= 'Z' then (c as int - 'A' as int + 'a' as int) as char else c
  }

  /** `s.lower()`: the same length, each character lower-cased on its own. */
  function Lower(s: string): (r: string)
    ensures |r| == |s|
    ensures forall i :: 0 <= i < |s| ==> r[i] == LowerChar(s[i])
  {
    if s == [] then [] else [LowerChar(s[0])] + Lower(s[1..])
  }

  /** Lower-casing twice is lower-casing once. */
  lemma {:induction false} LowerIdempotent(s: string)
    ensures Lower(Lower(s)) == Lower(s)
  {
    if s != [] {
      LowerIdempotent(s[1..]);
      assert Lower(s)[1..] == Lower(s[1..]);
    }
  }

  /** `needle` sits in `hay` starting at position `i`. */
  ghost predicate OccursAt(needle: string, hay: string, i: int)
  {
    0 <= i && i + |needle| <= |hay| && hay[i..i + |needle|] == needle
  }

  /** Python's `needle in hay` for strings. */
  function Contains(hay: string, needle: string): (r: bool)
    ensures r <==> exists i :: OccursAt(needle, hay, i)
    decreases |hay|
  {
    if needle <= hay then
      assert OccursAt(needle, hay, 0);
      true
    else if hay == [] then
      false
    else
      var r := Contains(hay[1..], needle);
      assert forall i :: OccursAt(needle, hay[1..], i) ==> OccursAt(needle, hay, i + 1) by {
        forall i | OccursAt(needle, hay[1..], i) ensures OccursAt(needle, hay, i + 1) {
          assert hay[i + 1..i + 1 + |needle|] == hay[1..][i..i + |needle|];
        }
      }
      assert forall i :: OccursAt(needle, hay, i) ==> OccursAt(needle, hay[1..], i - 1) by {
        forall i | OccursAt(needle, hay, i) ensures OccursAt(needle, hay[1..], i - 1) {
          if i != 0 {
            assert hay[1..][i - 1..i - 1 + |needle|] == hay[i..i + |needle|];
          }
        }
      }
      r
  }

  /** The empty string is in every string, as in Python. */
  lemma EmptyIsContained(hay: string)
    ensures Contains(hay, "")
  {
    assert OccursAt("", hay, 0);
  }

  // ---------------------------------------------------------------------
  // `s.split(sep)` with an explicit one-character separator, and its inverse

  /**
   * Python's `s.split(sep)`: the pieces between separators, empty ones kept,
   * so there is one piece more than there are separators.
   */
  function Split(s: string, sep: char): (parts: seq<string>)
    ensures |parts| == multiset(s)[sep] + 1
    decreases |s|
  {
    if s == [] then [[]]
    else
      var rest := Split(s[1..], sep);
      assert s == [s[0]] + s[1..];
      if s[0] == sep then [[]] + rest
      else [[s[0]] + rest[0]] + rest[1..]
  }

  /** Python's `sep.join(parts)` for a non-empty list. */
  function Join(parts: seq<string>, sep: char): string
    requires |parts| >= 1
  {
    if |parts| == 1 then parts[0] else parts[0] + [sep] + Join(parts[1..], sep)
  }

  /** No piece produced by `Split` contains the separator. */
  lemma {:induction false} SplitPiecesHaveNoSeparator(s: string, sep: char)
    ensures forall p :: p in Split(s, sep) ==> sep !in p
  {
    if s != [] {
      SplitPiecesHaveNoSeparator(s[1..], sep);
    }
  }

  /** Joining the pieces back with the separator gives the original string. */
  lemma {:induction false} JoinSplit(s: string, sep: char)
    ensures Join(Split(s, sep), sep) == s
  {
    if s != [] {
      JoinSplit(s[1..], sep);
      var rest := Split(s[1..], sep);
      assert |rest| >= 1;
      if s[0] != sep {
        assert Split(s, sep) == [[s[0]] + rest[0]] + rest[1..];
        if |rest| == 1 {
          assert Join(Split(s, sep), sep) == [s[0]] + rest[0];
        } else {
          assert Split(s, sep)[1..] == rest[1..];
          assert Join(rest, sep) == rest[0] + [sep] + Join(rest[1..], sep);
        }
      }
    }
  }

  /** Splitting a join of separator-free pieces gives the pieces back. */
  lemma {:induction false} SplitJoin(parts: seq<string>, sep: char)
    requires |parts| >= 1
    requires forall p :: p in parts ==> sep !in p
    ensures Split(Join(parts, sep), sep) == parts
  {
    if |parts| == 1 {
      SplitSeparatorFree(parts[0], sep);
    } else {
      SplitJoin(parts[1..], sep);
      SplitPrefix(parts[0], Join(parts[1..], sep), sep);
      assert [parts[0]] + parts[1..] == parts;
    }
  }

  /** A string without the separator splits into itself alone. */
  lemma {:induction false} SplitSeparatorFree(s: string, sep: char)
    requires sep !in s
    ensures Split(s, sep) == [s]
  {
    if s != [] {
      SplitSeparatorFree(s[1..], sep);
      assert [s[0]] + s[1..] == s;
    }
  }

  /** A separator-free prefix followed by a separator becomes the first piece. */
  lemma {:induction false} SplitPrefix(w: string, t: string, sep: char)
    requires sep !in w
    ensures Split(w + [sep] + t, sep) == [w] + Split(t, sep)
  {
    if w == [] {
      assert w + [sep] + t == [sep] + t;
      assert ([sep] + t)[1..] == t;
    } else {
      SplitPrefix(w[1..], t, sep);
      assert (w + [sep] + t)[1..] == w[1..] + [sep] + t;
      assert [w[0]] + w[1..] == w;
    }
  }

  // ---------------------------------------------------------------------
  // `s.split()` without arguments: the words between runs of whitespace

  /** Python's `c.isspace()` (ASCII and Latin-1 whitespace). */
  predicate IsSpace(c: char)
  {
    c == ' ' || c == '\t' || c == '\n' || c == '\r' || c == '\U{B}' || c == '\U{C}'
    || ('\U{1C}' <= c <= '\U{1F}') || c == '\U{85}' || c == '\U{A0}'
  }

  /**
   * Python's `s.split()`: the maximal runs of non-whitespace characters. A
   * string that starts with a non-whitespace character has a first word that
   * starts with it, and since words are separated by whitespace there are at
   * most half as many words as characters, rounded up.
   */
  function Words(s: string): (ws: seq<string>)
    ensures s != [] && !IsSpace(s[0]) ==> |ws| >= 1 && ws[0] != [] && ws[0][0] == s[0]
    ensures |ws| <= (|s| + 1) / 2
    decreases |s|
  {
    if s == [] then []
    else
      var rest := Words(s[1..]);
      if IsSpace(s[0]) then rest
      else if |s| > 1 && !IsSpace(s[1]) then [[s[0]] + rest[0]] + rest[1..]
      else
        assert |s| > 1 ==> rest == Words(s[2..]) by {
          if |s| > 1 {
            assert s[1..][0] == s[1] && s[1..][1..] == s[2..];
          }
        }
        [[s[0]]] + rest
  }

  /** The characters of `s` that are not whitespace, in order. */
  function NonSpace(s: string): string
  {
    if s == [] then [] else (if IsSpace(s[0]) then [] else [s[0]]) + NonSpace(s[1..])
  }

  /** Concatenation of a list of strings. */
  function Concat(ws: seq<string>): string
  {
    if ws == [] then [] else ws[0] + Concat(ws[1..])
  }

  /**
   * The words of `s` are non-empty, free of whitespace, and together they are
   * exactly the non-whitespace characters of `s`, in order.
   */
  lemma {:induction false} WordsPartitionNonSpace(s: string)
    ensures forall w :: w in Words(s) ==> w != [] && forall c :: c in w ==> !IsSpace(c)
    ensures Concat(Words(s)) == NonSpace(s)
  {
    if s != [] {
      WordsPartitionNonSpace(s[1..]);
      var rest := Words(s[1..]);
      if !IsSpace(s[0]) && |s| > 1 && !IsSpace(s[1]) {
        assert Words(s) == [[s[0]] + rest[0]] + rest[1..];
        assert rest[0] in rest;
        forall w | w in Words(s)
          ensures w != [] && forall c :: c in w ==> !IsSpace(c)
        {
          if w != [s[0]] + rest[0] {
            assert w in rest;
          }
        }
        calc {
          Concat(Words(s));
          ([s[0]] + rest[0]) + Concat(rest[1..]);
          [s[0]] + (rest[0] + Concat(rest[1..]));
          [s[0]] + Concat(rest);
        }
      } else if !IsSpace(s[0]) {
        assert Words(s) == [[s[0]]] + rest;
        assert ([[s[0]]] + rest)[1..] == rest;
      }
    }
  }

  /** A string has no words exactly when every character of it is whitespace. */
  lemma {:induction false} BlankHasNoWords(s: string)
    ensures Words(s) == [] <==> forall k :: 0 <= k < |s| ==> IsSpace(s[k])
  {
    if s != [] {
      BlankHasNoWords(s[1..]);
      assert forall k :: 1 <= k < |s| ==> s[k] == s[1..][k - 1];
    }
  }

  /** `s[i..j]` is the only run of non-whitespace characters in `s`. */
  ghost predicate OneRun(s: string, i: int, j: int)
  {
    0 <= i < j <= |s|
    && (forall k :: i <= k < j ==> !IsSpace(s[k]))
    && (forall k :: 0 <= k < |s| && !(i <= k < j) ==> IsSpace(s[k]))
  }

  /** Leading whitespace does not change the words. */
  lemma {:induction false} WordsSkipSpace(s: string, n: nat)
    requires n <= |s| && forall k :: 0 <= k < n ==> IsSpace(s[k])
    ensures Words(s) == Words(s[n..])
    decreases n
  {
    if n > 0 {
      WordsSkipSpace(s[1..], n - 1);
      assert s[1..][n - 1..] == s[n..];
    }
  }

  /**
   * `s.split()` gives exactly one word when, and only when, the non-whitespace
   * characters of `s` form a single run; that word is the run.
   */
  lemma {:induction false} OneWordIffOneRun(s: string)
    ensures |Words(s)| == 1 ==> exists i, j :: OneRun(s, i, j)
    ensures forall i, j :: OneRun(s, i, j) ==> Words(s) == [s[i..j]]
  {
    if |Words(s)| == 1 {
      OneWordHasRun(s);
    }
    forall i, j | OneRun(s, i, j)
      ensures Words(s) == [s[i..j]]
    {
      WordsSkipSpace(s, i);
      RunThenSpace(s[i..], j - i);
      assert s[i..][..j - i] == s[i..j];
    }
  }

  /** One word means one run of non-whitespace characters. */
  lemma {:induction false} OneWordHasRun(s: string)
    requires |Words(s)| == 1
    ensures exists i, j :: OneRun(s, i, j)
  {
    var rest := Words(s[1..]);
    assert forall k :: 1 <= k < |s| ==> s[k] == s[1..][k - 1];
    if IsSpace(s[0]) {
      OneWordHasRun(s[1..]);
      var i, j :| OneRun(s[1..], i, j);
      assert OneRun(s, i + 1, j + 1);
    } else if |s| > 1 && !IsSpace(s[1]) {
      OneWordHasRun(s[1..]);
      var i, j :| OneRun(s[1..], i, j);
      assert !IsSpace(s[1..][0]);
      assert OneRun(s, 0, j + 1);
    } else {
      assert rest == [];
      BlankHasNoWords(s[1..]);
      assert OneRun(s, 0, 1);
    }
  }

  /** A run of non-whitespace characters followed only by whitespace is one word. */
  lemma {:induction false} RunThenSpace(s: string, n: nat)
    requires 0 < n <= |s|
    requires forall k :: 0 <= k < n ==> !IsSpace(s[k])
    requires forall k :: n <= k < |s| ==> IsSpace(s[k])
    ensures Words(s) == [s[..n]]
    decreases n
  {
    assert forall k :: 1 <= k < |s| ==> s[k] == s[1..][k - 1];
    if n == 1 {
      BlankHasNoWords(s[1..]);
      assert s[..1] == [s[0]];
    } else {
      RunThenSpace(s[1..], n - 1);
      assert [s[0]] + s[1..][..n - 1] == s[..n];
    }
  }

  /** A string with no non-whitespace character has no words, and conversely. */
  lemma WordsEmptyIffBlank(s: string)
    ensures Words(s) == [] <==> NonSpace(s) == []
  {
    WordsPartitionNonSpace(s);
    if Words(s) != [] {
      assert Words(s)[0] in Words(s);
      assert Concat(Words(s)) == Words(s)[0] + Concat(Words(s)[1..]);
    }
  }
}
