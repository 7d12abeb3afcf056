/** What single runs do to a session's bookkeeping: how turns are numbered, and what a
    shrunken transcript resets. */
module RunBookkeeping {
  import opened Collections
  import opened Rows
  import opened Assembly
  import opened Session
  import Lines

  /** The id's first turn in the list is the `i`-th. */
  ghost predicate FirstAt(turns: seq<Turn>, u: string, i: nat) {
    i < |turns| && turns[i].user.uuid == u && forall j :: 0 <= j < i ==> turns[j].user.uuid != u
  }

  ghost predicate Used(numbers: map<string, nat>, after: map<string, nat>, k: nat) {
    exists u :: u in after && u !in numbers && after[u] == k
  }

  lemma {:induction false} NumbersUsed(turns: seq<Turn>, next: nat, numbers: map<string, nat>, k: nat)
    requires (forall u :: u in numbers ==> numbers[u] < next) && next <= k < Numbered(turns, next, numbers).1
    ensures Used(numbers, Numbered(turns, next, numbers).0, k)
  {
    if turns != [] {
      var less, u := turns[..|turns| - 1], turns[|turns| - 1].user.uuid;
      var before, after := Numbered(less, next, numbers), Numbered(turns, next, numbers);
      if k < before.1 {
        NumbersUsed(less, next, numbers, k);
        var v :| v in before.0 && v !in numbers && before.0[v] == k;
        assert v in after.0 && after.0[v] == k;
      } else {
        NumbersKept(less, next, numbers);
        assert u in after.0 && u !in numbers && after.0[u] == k;
      }
    }
  }

  lemma {:induction false} NumbersKept(turns: seq<Turn>, next: nat, numbers: map<string, nat>)
    ensures next <= Numbered(turns, next, numbers).1
    ensures forall u :: u in numbers ==> u in Numbered(turns, next, numbers).0
  {
    if turns != [] {
      NumbersKept(turns[..|turns| - 1], next, numbers);
    }
  }

  lemma {:induction false} NumbersBelow(turns: seq<Turn>, next: nat, numbers: map<string, nat>)
    requires forall u :: u in numbers ==> numbers[u] < next
    ensures next <= Numbered(turns, next, numbers).1
    ensures forall u :: u in Numbered(turns, next, numbers).0 ==> Numbered(turns, next, numbers).0[u] < Numbered(turns, next, numbers).1
  {
    if turns != [] {
      NumbersBelow(turns[..|turns| - 1], next, numbers);
    }
  }

  lemma {:induction false} NumbersRise(turns: seq<Turn>, next: nat, numbers: map<string, nat>, u: string, v: string, i: nat, j: nat)
    requires (forall x :: x in numbers ==> numbers[x] < next) && u !in numbers && v !in numbers && u != "" && v != ""
    requires FirstAt(turns, u, i) && FirstAt(turns, v, j) && i < j
    ensures var after := Numbered(turns, next, numbers).0; u in after && v in after && after[u] < after[v]
  {
    var less, t := turns[..|turns| - 1], turns[|turns| - 1];
    assert turns == less + [t];
    FirstBefore(less, t, u, i);
    NumberedHas(less, next, numbers, u);
    if j < |less| {
      FirstBefore(less, t, v, j);
      NumbersRise(less, next, numbers, u, v, i, j);
    } else {
      NumbersBelow(less, next, numbers);
      OnlyTurns(less, next, numbers, v);
    }
  }

  /** Nobody but turns is numbered. */
  lemma {:induction false} OnlyTurns(turns: seq<Turn>, next: nat, numbers: map<string, nat>, u: string)
    ensures u in Numbered(turns, next, numbers).0 ==> u in numbers || (u != "" && exists t :: t in turns && t.user.uuid == u)
  {
    if turns != [] {
      var less, t := turns[..|turns| - 1], turns[|turns| - 1];
      assert turns == less + [t];
      OnlyTurns(less, next, numbers, u);
    }
  }

  /** New ids are numbered from `next` on without a gap, in the order of their first
      turns, and only turns are numbered. */
  lemma {:induction false} NumberedInOrder(turns: seq<Turn>, next: nat, numbers: map<string, nat>)
    requires forall u :: u in numbers ==> numbers[u] < next
    ensures var after, n := Numbered(turns, next, numbers).0, Numbered(turns, next, numbers).1;
            && (forall k: nat :: next <= k < n ==> Used(numbers, after, k))
            && (forall u :: u in after && u !in numbers ==> exists t :: t in turns && t.user.uuid == u)
            && (forall u, v, i: nat, j: nat ::
                  u !in numbers && v !in numbers && u != "" && v != "" && FirstAt(turns, u, i) && FirstAt(turns, v, j) && i < j ==>
                    u in after && v in after && after[u] < after[v])
  {
    var after, n := Numbered(turns, next, numbers).0, Numbered(turns, next, numbers).1;
    forall k: nat | next <= k < n ensures Used(numbers, after, k) {
      NumbersUsed(turns, next, numbers, k);
    }
    forall u | u in after && u !in numbers ensures exists t :: t in turns && t.user.uuid == u {
      OnlyTurns(turns, next, numbers, u);
    }
    forall u, v, i: nat, j: nat | u !in numbers && v !in numbers && u != "" && v != "" && FirstAt(turns, u, i) && FirstAt(turns, v, j) && i < j
      ensures u in after && v in after && after[u] < after[v]
    {
      NumbersRise(turns, next, numbers, u, v, i, j);
    }
  }

  lemma {:induction false} FirstBefore(less: seq<Turn>, t: Turn, u: string, i: nat)
    requires FirstAt(less + [t], u, i) && i < |less|
    ensures FirstAt(less, u, i)
  {
    assert forall j :: 0 <= j < |less| ==> (less + [t])[j] == less[j];
  }

  lemma {:induction false} NumberedHas(turns: seq<Turn>, next: nat, numbers: map<string, nat>, u: string)
    requires u != "" && exists i :: FirstAt(turns, u, i)
    ensures u in Numbered(turns, next, numbers).0
  {
    var i: nat :| FirstAt(turns, u, i);
    if i < |turns| - 1 {
      var less, t := turns[..|turns| - 1], turns[|turns| - 1];
      assert turns == less + [t];
      FirstBefore(less, t, u, i);
      NumberedHas(less, next, numbers, u);
    }
  }

  /** The largest number spoken for: counted or assigned. */
  ghost predicate Taken(turnCount: nat, numbers: map<string, nat>, top: nat) {
    && turnCount <= top && (forall u :: u in numbers ==> numbers[u] <= top)
    && (top == turnCount || exists u :: u in numbers && numbers[u] == top)
  }

  /** A run's new turns are numbered one after the other, right behind the largest number
      counted or assigned before. */
  lemma {:induction false} RunNumbers(s: State, batch: Progress, turns: seq<Turn>, flush: bool, top: nat)
    requires Taken(s.turnCount, s.numbers, top)
    ensures var after := Settle(s, batch, turns, flush).numbers;
            forall u :: u in after && u !in s.numbers ==>
              && top < after[u]
              && forall k: nat :: top < k <= after[u] ==> Used(s.numbers, after, k)
  {
    var all := turns + AsSeq(Build(batch.open));
    HighestIsHighest(s.numbers);
    assert NextNumber(s.turnCount, s.numbers) == top + 1;
    var after, n := Numbered(all, top + 1, s.numbers).0, Numbered(all, top + 1, s.numbers).1;
    NumbersBelow(all, top + 1, s.numbers);
    forall u | u in after && u !in s.numbers
      ensures top < after[u] && forall k: nat :: top < k <= after[u] ==> Used(s.numbers, after, k)
    {
      forall k: nat | top < k <= after[u] ensures Used(s.numbers, after, k) {
        NumbersUsed(all, top + 1, s.numbers, k);
      }
      NewAbove(all, top + 1, s.numbers, u);
    }
  }

  lemma {:induction false} NewAbove(turns: seq<Turn>, next: nat, numbers: map<string, nat>, u: string)
    requires u in Numbered(turns, next, numbers).0 && u !in numbers
    ensures Numbered(turns, next, numbers).0[u] >= next
  {
    var less := turns[..|turns| - 1];
    NumbersKept(less, next, numbers);
    if u in Numbered(less, next, numbers).0 {
      NewAbove(less, next, numbers, u);
    }
  }

  /** A transcript that has shrunk is read from its start by a session that remembers
      nothing but how many turns it has emitted. */
  lemma {:induction false} ShrunkStartsOver(s: State, text: string, parse: string -> Option<Row>)
    requires |text| < s.offset
    ensures ReadNew(s, Some(text), parse) == ReadNew(State(0, "", s.turnCount, [], [], [], map[]), Some(text), parse)
    ensures ReadNew(s, Some(text), parse).1 == Transcript(text, parse)
  {
    if text != "" {
      assert "" + text[0..] == text;
    } else {
      assert Lines.Complete("", '\n') == [];
    }
  }
}
