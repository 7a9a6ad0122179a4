/** The string operations the pipeline uses, on `seq<char>`. */
module Text {

  /** `s.startswith(prefix)`. */
  predicate StartsWith(s: string, prefix: string) {
    |prefix| <= |s| && s[..|prefix|] == prefix
  }

  /** `s.split("/")[-1]`: the text after the last '/', or all of `s` when it has none.
      `BaseNameIsLastComponent` characterises the result. */
  function BaseName(s: string): string {
    if s == [] then []
    else if s[|s| - 1] == '/' then []
    else BaseName(s[..|s| - 1]) + [s[|s| - 1]]
  }

  /** The base name is the longest suffix of the path without '/': it is a suffix, it holds no
      '/', and it is either the whole path or preceded by a '/'. */
  lemma {:induction false} BaseNameIsLastComponent(s: string)
    ensures var r := BaseName(s);
      && |r| <= |s| && r == s[|s| - |r|..]
      && '/' !in r
      && (|r| == |s| || s[|s| - |r| - 1] == '/')
  {
    if s != [] && s[|s| - 1] != '/' {
      var init, c := s[..|s| - 1], s[|s| - 1];
      BaseNameIsLastComponent(init);
      var r', k := BaseName(init), |init| - |BaseName(init)|;
      assert BaseName(s) == r' + [c];
      assert s == init + [c];
      assert s[k..] == init[k..] + [c];
      assert k > 0 ==> s[k - 1] == init[k - 1];
    }
  }

  /** The base name of a path built from a directory and a name without '/'. */
  lemma {:induction false} BaseNameOfJoin(dir: string, name: string)
    requires '/' !in name
    ensures BaseName(dir + "/" + name) == name
  {
    if name == [] {
      assert dir + "/" + name == dir + "/";
    } else {
      var init := name[..|name| - 1];
      assert (dir + "/" + name)[..|dir + "/" + name| - 1] == dir + "/" + init;
      BaseNameOfJoin(dir, init);
      assert init + [name[|name| - 1]] == name;
    }
  }

  /** Regrouping the pieces of a text written in three steps. */
  lemma Regroup3(a: string, b: string, c: string)
    ensures a + b + c == a + (b + c)
  {
  }

  /** Regrouping the pieces of a text written in four steps. */
  lemma Regroup(a: string, b: string, c: string, d: string)
    ensures a + b + c + d == a + (b + c + d)
  {
  }

  /** `s.replace(c, "")` for a one-character `c`. */
  function RemoveChar(s: string, c: char): string {
    if s == [] then []
    else RemoveChar(s[..|s| - 1], c) + (if s[|s| - 1] == c then [] else [s[|s| - 1]])
  }

  /** Removing `c` drops every `c` and nothing else. */
  lemma {:induction false} RemoveCharDropsOnly(s: string, c: char)
    ensures var r := RemoveChar(s, c);
      && c !in r
      && multiset(r) == multiset(s)[c := 0]
      && |r| == |s| - multiset(s)[c]
  {
    if s != [] {
      var init, last := s[..|s| - 1], s[|s| - 1];
      assert s == init + [last];
      RemoveCharDropsOnly(init, c);
      assert multiset(s) == multiset(init) + multiset{last};
    }
  }

  /** Removing `c` works piece by piece: the kept characters keep their order. */
  lemma {:induction false} RemoveCharAppend(a: string, b: string, c: char)
    ensures RemoveChar(a + b, c) == RemoveChar(a, c) + RemoveChar(b, c)
  {
    if b == [] {
      assert a + b == a;
    } else {
      var init := b[..|b| - 1];
      assert (a + b)[..|a + b| - 1] == a + init;
      assert (a + b)[|a + b| - 1] == b[|b| - 1];
      RemoveCharAppend(a, init, c);
    }
  }

  /** Removing `c` around one `c`. */
  lemma RemoveCharAround(x: string, y: string, c: char)
    ensures RemoveChar(x + [c] + y, c) == RemoveChar(x, c) + RemoveChar(y, c)
  {
    RemoveCharAppend(x + [c], y, c);
    RemoveCharAppend(x, [c], c);
    assert RemoveChar([c], c) == [] by {
      assert [c][..0] == [];
    }
  }

  /** A text without `c` is left as it is. */
  lemma {:induction false} RemoveCharAbsent(s: string, c: char)
    requires c !in s
    ensures RemoveChar(s, c) == s
  {
    if s != [] {
      RemoveCharAbsent(s[..|s| - 1], c);
    }
  }

  /** `s.replace(a, b)` for one-character `a` and `b`. */
  function ReplaceChar(s: string, a: char, b: char): string {
    if s == [] then []
    else ReplaceChar(s[..|s| - 1], a, b) + [if s[|s| - 1] == a then b else s[|s| - 1]]
  }

  /** Replacing `a` by `b` changes exactly the positions that held `a`. */
  lemma {:induction false} ReplaceCharPointwise(s: string, a: char, b: char)
    ensures var r := ReplaceChar(s, a, b);
      && |r| == |s|
      && forall i :: 0 <= i < |s| ==> r[i] == if s[i] == a then b else s[i]
  {
    if s != [] {
      ReplaceCharPointwise(s[..|s| - 1], a, b);
    }
  }

  /** Replacing `a` by `b` works piece by piece. */
  lemma {:induction false} ReplaceCharAppend(s: string, t: string, a: char, b: char)
    ensures ReplaceChar(s + t, a, b) == ReplaceChar(s, a, b) + ReplaceChar(t, a, b)
  {
    if t == [] {
      assert s + t == s;
    } else {
      var init := t[..|t| - 1];
      assert (s + t)[..|s + t| - 1] == s + init;
      assert (s + t)[|s + t| - 1] == t[|t| - 1];
      ReplaceCharAppend(s, init, a, b);
    }
  }

  /** A text without `a` is left as it is. */
  lemma {:induction false} ReplaceCharAbsent(s: string, a: char, b: char)
    requires a !in s
    ensures ReplaceChar(s, a, b) == s
  {
    if s != [] {
      ReplaceCharAbsent(s[..|s| - 1], a, b);
    }
  }

  /** The text written by a loop that writes `before + m + after` for each message `m`, in order. */
  function Concat(msgs: seq<string>, before: string, after: string): string {
    if msgs == [] then ""
    else Concat(msgs[..|msgs| - 1], before, after) + before + msgs[|msgs| - 1] + after
  }

  lemma {:induction false} ConcatAppend(a: seq<string>, b: seq<string>, before: string, after: string)
    ensures Concat(a + b, before, after) == Concat(a, before, after) + Concat(b, before, after)
  {
    if b == [] {
      assert a + b == a;
    } else {
      var init := b[..|b| - 1];
      assert (a + b)[..|a + b| - 1] == a + init;
      ConcatAppend(a, init, before, after);
    }
  }

  /** Message `i` is written after the messages before it and before the ones after it,
      framed by `before` and `after`. */
  lemma ConcatAt(msgs: seq<string>, i: nat, before: string, after: string)
    requires i < |msgs|
    ensures Concat(msgs, before, after)
         == Concat(msgs[..i], before, after) + before + msgs[i] + after + Concat(msgs[i + 1..], before, after)
  {
    assert msgs == msgs[..i] + [msgs[i]] + msgs[i + 1..];
    ConcatAppend(msgs[..i] + [msgs[i]], msgs[i + 1..], before, after);
    ConcatAppend(msgs[..i], [msgs[i]], before, after);
    assert [msgs[i]][..0] == [];
  }

  /** A non-empty sequence of messages is written starting with `before`. */
  lemma ConcatStartsWith(msgs: seq<string>, before: string, after: string)
    requires msgs != []
    ensures StartsWith(Concat(msgs, before, after), before)
  {
    ConcatAt(msgs, 0, before, after);
    assert msgs[..0] == [];
  }
}
