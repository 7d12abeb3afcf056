/** Line splitting as both transcript readers use it: `Split` is the text cut at
    every separator, so its last element is the (possibly empty) unfinished line. */
module Lines {

  function Split<T(==)>(s: seq<T>, sep: T): (r: seq<seq<T>>)
    ensures r != []
  {
    if s == [] then [[]]
    else
      var front := Split(s[..|s| - 1], sep);
      var c := s[|s| - 1];
      if c == sep then front + [[]]
      else front[..|front| - 1] + [front[|front| - 1] + [c]]
  }

  /** Every line that a separator has closed. */
  function Complete<T(==)>(s: seq<T>, sep: T): seq<seq<T>> {
    var r := Split(s, sep);
    r[..|r| - 1]
  }

  /** The text after the last separator. */
  function Tail<T(==)>(s: seq<T>, sep: T): seq<T> {
    var r := Split(s, sep);
    r[|r| - 1]
  }

  function Join<T>(lines: seq<seq<T>>, sep: T): seq<T>
    requires lines != []
  {
    if |lines| == 1 then lines[0]
    else Join(lines[..|lines| - 1], sep) + [sep] + lines[|lines| - 1]
  }

  lemma {:induction false} JoinLonger<T>(front: seq<seq<T>>, c: T, sep: T)
    requires front != []
    ensures Join(front[..|front| - 1] + [front[|front| - 1] + [c]], sep) == Join(front, sep) + [c]
  {
    var k := |front| - 1;
    var r := front[..k] + [front[k] + [c]];
    assert r[..k] == front[..k];
    if k > 0 {
      assert Join(front[..k], sep) + [sep] + (front[k] + [c]) == Join(front[..k], sep) + [sep] + front[k] + [c];
    }
  }

  lemma {:induction false} JoinMore<T>(front: seq<seq<T>>, sep: T)
    requires front != []
    ensures Join(front + [[]], sep) == Join(front, sep) + [sep]
  {
    assert (front + [[]])[..|front|] == front;
  }

  lemma {:induction false} NoSeparator<T>(s: seq<T>, sep: T)
    ensures forall i :: 0 <= i < |Split(s, sep)| ==> sep !in Split(s, sep)[i]
  {
    if s != [] {
      NoSeparator(s[..|s| - 1], sep);
    }
  }

  /** Splitting loses nothing and no line holds a separator: together these two
      facts determine `Split`. */
  lemma {:induction false} SplitJoin<T>(s: seq<T>, sep: T)
    ensures Join(Split(s, sep), sep) == s
    ensures forall i :: 0 <= i < |Split(s, sep)| ==> sep !in Split(s, sep)[i]
  {
    NoSeparator(s, sep);
    if s != [] {
      var less, c := s[..|s| - 1], s[|s| - 1];
      SplitJoin(less, sep);
      if c == sep {
        JoinMore(Split(less, sep), sep);
      } else {
        JoinLonger(Split(less, sep), c, sep);
      }
      assert s == less + [c];
    }
  }

  /** What one more character does to a list of lines. */
  function Extend<T(==)>(lines: seq<seq<T>>, c: T, sep: T): seq<seq<T>>
    requires lines != []
  {
    if c == sep then lines + [[]]
    else lines[..|lines| - 1] + [lines[|lines| - 1] + [c]]
  }

  lemma {:induction false} SplitExtend<T>(s: seq<T>, c: T, sep: T)
    ensures Split(s + [c], sep) == Extend(Split(s, sep), c, sep)
  {
    assert (s + [c])[..|s|] == s;
  }

  lemma {:induction false} ExtendConcat<T>(front: seq<seq<T>>, lines: seq<seq<T>>, c: T, sep: T)
    requires lines != []
    ensures Extend(front + lines, c, sep) == front + Extend(lines, c, sep)
  {
  }

  /** The unfinished line is a sufficient checkpoint: what follows can be split on
      its own once the unfinished line is put back in front of it. */
  lemma {:induction false} SplitResume<T>(done: seq<T>, more: seq<T>, sep: T)
    ensures Split(done + more, sep) == Complete(done, sep) + Split(Tail(done, sep) + more, sep)
  {
    var front, tail := Complete(done, sep), Tail(done, sep);
    if more == [] {
      assert done + more == done && tail + more == tail;
      TailAlone(done, sep);
    } else {
      var less, c := more[..|more| - 1], more[|more| - 1];
      SplitResume(done, less, sep);
      calc {
        Split(done + more, sep);
        { assert done + more == (done + less) + [c]; SplitExtend(done + less, c, sep); }
        Extend(Split(done + less, sep), c, sep);
        Extend(front + Split(tail + less, sep), c, sep);
        { ExtendConcat(front, Split(tail + less, sep), c, sep); }
        front + Extend(Split(tail + less, sep), c, sep);
        { assert tail + more == (tail + less) + [c]; SplitExtend(tail + less, c, sep); }
        front + Split(tail + more, sep);
      }
    }
  }

  lemma {:induction false} SplitSingle<T>(s: seq<T>, sep: T)
    requires sep !in s
    ensures Split(s, sep) == [s]
  {
    if s != [] {
      SplitSingle(s[..|s| - 1], sep);
      assert s == s[..|s| - 1] + [s[|s| - 1]];
    }
  }

  lemma {:induction false} TailAlone<T>(s: seq<T>, sep: T)
    ensures Split(Tail(s, sep), sep) == [Tail(s, sep)]
    ensures Split(s, sep) == Complete(s, sep) + [Tail(s, sep)]
  {
    SplitJoin(s, sep);
    var r := Split(s, sep);
    assert sep !in r[|r| - 1];
    SplitSingle(r[|r| - 1], sep);
  }

  /** Text put in front of a list of lines lengthens the first one. */
  function Prefixed<T>(open: seq<T>, lines: seq<seq<T>>): seq<seq<T>>
    requires lines != []
  {
    [open + lines[0]] + lines[1..]
  }

  lemma {:induction false} ExtendPrefixed<T>(open: seq<T>, lines: seq<seq<T>>, c: T, sep: T)
    requires lines != []
    ensures Extend(Prefixed(open, lines), c, sep) == Prefixed(open, Extend(lines, c, sep))
  {
    if c != sep && |lines| == 1 {
      assert open + lines[0] + [c] == open + (lines[0] + [c]);
    }
  }

  lemma {:induction false} SplitPrefix<T>(open: seq<T>, text: seq<T>, sep: T)
    requires sep !in open
    ensures Split(open + text, sep) == Prefixed(open, Split(text, sep))
  {
    if text == [] {
      assert open + text == open;
      SplitSingle(open, sep);
    } else {
      var less, c := text[..|text| - 1], text[|text| - 1];
      SplitPrefix(open, less, sep);
      calc {
        Split(open + text, sep);
        { assert open + text == (open + less) + [c]; SplitExtend(open + less, c, sep); }
        Extend(Split(open + less, sep), c, sep);
        Extend(Prefixed(open, Split(less, sep)), c, sep);
        { ExtendPrefixed(open, Split(less, sep), c, sep); }
        Prefixed(open, Extend(Split(less, sep), c, sep));
        { assert text == less + [c]; SplitExtend(less, c, sep); }
        Prefixed(open, Split(text, sep));
      }
    }
  }

  /** Cutting at the first separator. */
  lemma {:induction false} SplitFirst<T>(line: seq<T>, rest: seq<T>, sep: T)
    requires sep !in line
    ensures Split(line + [sep] + rest, sep) == [line] + Split(rest, sep)
  {
    SplitSingle(line, sep);
    assert (line + [sep])[..|line|] == line;
    assert Split(line + [sep], sep) == [line, []];
    SplitResume(line + [sep], rest, sep);
    assert Tail(line + [sep], sep) + rest == rest;
  }

  /** Closing lines and the tail both follow text growth. */
  lemma {:induction false} SplitGrow<T>(done: seq<T>, more: seq<T>, sep: T)
    ensures Complete(done + more, sep) == Complete(done, sep) + Complete(Tail(done, sep) + more, sep)
    ensures Tail(done + more, sep) == Tail(Tail(done, sep) + more, sep)
  {
    SplitResume(done, more, sep);
  }

  /** Position of the first `sep`, or the length when there is none. */
  function IndexOf<T(==)>(s: seq<T>, sep: T): (i: nat)
    ensures i <= |s|
    ensures sep !in s[..i]
    ensures i < |s| ==> s[i] == sep
  {
    if s == [] || s[0] == sep then 0
    else
      var i := 1 + IndexOf(s[1..], sep);
      assert s[..i] == [s[0]] + s[1..][..i - 1];
      i
  }
}
