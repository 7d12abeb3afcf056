/** One billing payload: the aggregate of a day's usage snapshots of one tenant, and
    why it does not depend on the order the rows come back in. */
module BillingDay {
  import opened Collections

  const ABSENT := "ALLOCATION_STATUS_ABSENT"

  /** A field that is missing or of the wrong kind reads as `""`, as no accounts or as
      no utilization. */
  datatype Account = NotAnObject | Account(status: string, id: string)
  datatype Report = NotAReport | Report(accounts: seq<Account>, util: Option<real>)
  datatype Row = Row(report: Report, server: nat)

  datatype Aggregate = Aggregate(
    accountDays: nat,
    accountIds: seq<string>,
    servers: nat,
    snapshots: nat,
    maxUtil: Option<real>)

  // ------------------------------------------------------------ sorted ids

  predicate Less(a: string, b: string) {
    if b == "" then false
    else if a == "" then true
    else a[0] < b[0] || (a[0] == b[0] && Less(a[1..], b[1..]))
  }

  lemma {:induction false} LessOrders(a: string, b: string)
    ensures !(Less(a, b) && Less(b, a))
    ensures a == b || Less(a, b) || Less(b, a)
    ensures a == b ==> !Less(a, b)
  {
    if a != "" && b != "" {
      LessOrders(a[1..], b[1..]);
      if a[0] == b[0] && a[1..] == b[1..] {
        assert a == [a[0]] + a[1..] && b == [b[0]] + b[1..];
      }
    }
  }

  lemma {:induction false} LessChains(a: string, b: string, c: string)
    requires Less(a, b) && Less(b, c)
    ensures Less(a, c)
  {
    if a != "" && a[0] == b[0] == c[0] {
      LessChains(a[1..], b[1..], c[1..]);
    }
  }

  predicate Ascending(ids: seq<string>) {
    forall i, j :: 0 <= i < j < |ids| ==> Less(ids[i], ids[j])
  }

  function Elements(ids: seq<string>): set<string> {
    set id | id in ids
  }

  /** Puts an id in its place, once. */
  function Insert(ids: seq<string>, id: string): seq<string> {
    if ids == [] then [id]
    else if id == ids[0] then ids
    else if Less(id, ids[0]) then [id] + ids
    else [ids[0]] + Insert(ids[1..], id)
  }

  lemma {:induction false} InsertKeeps(ids: seq<string>, id: string)
    requires Ascending(ids)
    ensures Ascending(Insert(ids, id)) && Elements(Insert(ids, id)) == Elements(ids) + {id}
  {
    if ids != [] && id != ids[0] {
      if Less(id, ids[0]) {
        forall j | 0 <= j < |ids| ensures Less(id, ids[j]) {
          if j > 0 { LessChains(id, ids[0], ids[j]); }
        }
        assert ([id] + ids)[1..] == ids;
        assert Elements([id] + ids) == Elements(ids) + {id};
      } else {
        InsertKeeps(ids[1..], id);
        LessOrders(id, ids[0]);
        InsertBehind(ids, Insert(ids[1..], id), id);
      }
    }
  }

  lemma {:induction false} InsertBehind(ids: seq<string>, rest: seq<string>, id: string)
    requires ids != [] && Ascending(ids) && Less(ids[0], id)
    requires Ascending(rest) && Elements(rest) == Elements(ids[1..]) + {id}
    ensures Ascending([ids[0]] + rest) && Elements([ids[0]] + rest) == Elements(ids) + {id}
  {
    forall j | 0 <= j < |rest| ensures Less(ids[0], rest[j]) {
      assert rest[j] in Elements(rest);
      if rest[j] != id {
        var k :| 0 <= k < |ids[1..]| && ids[1..][k] == rest[j];
        assert ids[k + 1] == rest[j];
      }
    }
    assert ids == [ids[0]] + ids[1..];
    assert Elements(ids) == {ids[0]} + Elements(ids[1..]);
    assert Elements([ids[0]] + rest) == {ids[0]} + Elements(rest);
  }

  lemma {:induction false} NoElements(a: seq<string>)
    ensures Elements(a) == {} <==> a == []
  {
    if a != [] {
      assert a[0] in Elements(a);
    }
  }

  /** Two ascending lists of the same ids are the same list. */
  lemma {:induction false} AscendingUnique(a: seq<string>, b: seq<string>)
    requires Ascending(a) && Ascending(b) && Elements(a) == Elements(b)
    ensures a == b
  {
    if a == [] || b == [] {
      NoElements(a);
      NoElements(b);
    } else {
      HeadIsLeast(a, b);
      HeadIsLeast(b, a);
      LessOrders(a[0], b[0]);
      TailElements(a);
      TailElements(b);
      AscendingUnique(a[1..], b[1..]);
      assert a == [a[0]] + a[1..] && b == [b[0]] + b[1..];
    }
  }

  lemma {:induction false} HeadIsLeast(a: seq<string>, b: seq<string>)
    requires a != [] && b != [] && Ascending(a) && Elements(a) == Elements(b)
    ensures b[0] == a[0] || Less(a[0], b[0])
  {
    assert b[0] in Elements(a);
    var i :| 0 <= i < |a| && a[i] == b[0];
  }

  lemma {:induction false} TailElements(a: seq<string>)
    requires a != [] && Ascending(a)
    ensures Elements(a[1..]) == Elements(a) - {a[0]}
  {
    assert a == [a[0]] + a[1..];
    forall j | 0 <= j < |a[1..]| ensures a[1..][j] != a[0] {
      LessOrders(a[0], a[j + 1]);
    }
  }

  lemma {:induction false} AscendingCount(a: seq<string>)
    requires Ascending(a)
    ensures |a| == |Elements(a)|
  {
    if a != [] {
      TailElements(a);
      AscendingCount(a[1..]);
      assert a[0] in Elements(a);
    }
  }

  // ------------------------------------------------------------ what a payload means

  predicate IsReport(r: Row) { r.report.Report? }

  predicate Billable(a: Account) {
    a.Account? && a.status != ABSENT && a.id != ""
  }

  function BilledIds(rows: seq<Row>): set<string> {
    set r, a | r in rows && r.report.Report? && a in r.report.accounts && Billable(a) :: a.id
  }

  function ServerIds(rows: seq<Row>): set<nat> {
    set r | r in rows && r.report.Report? :: r.server
  }

  predicate HasUtil(r: Row, u: real) {
    r.report.Report? && r.report.util == Some(u)
  }

  ghost predicate IsMaxUtil(rows: seq<Row>, m: Option<real>) {
    match m
    case None => forall r :: r in rows ==> r.report.Report? ==> r.report.util == None
    case Some(u) =>
      && (exists r :: r in rows && HasUtil(r, u))
      && forall r :: r in rows && r.report.Report? && r.report.util.Some? ==> r.report.util.value <= u
  }

  /** What a payload says about the rows it was built from. */
  ghost predicate Describes(agg: Aggregate, rows: seq<Row>) {
    && Ascending(agg.accountIds) && Elements(agg.accountIds) == BilledIds(rows)
    && agg.accountDays == |BilledIds(rows)|
    && agg.servers == |ServerIds(rows)|
    && agg.snapshots == |Filter(rows, IsReport)|
    && IsMaxUtil(rows, agg.maxUtil)
  }

  // ------------------------------------------------------------ the computation

  function WithAccounts(ids: seq<string>, accounts: seq<Account>): seq<string> {
    if accounts == [] then ids
    else
      var front, a := WithAccounts(ids, accounts[..|accounts| - 1]), accounts[|accounts| - 1];
      if Billable(a) then Insert(front, a.id) else front
  }

  function Higher(m: Option<real>, u: Option<real>): Option<real> {
    if u.None? then m
    else if m.None? || u.value > m.value then u
    else m
  }

  datatype Tally = Tally(ids: seq<string>, servers: set<nat>, snapshots: nat, maxUtil: Option<real>)

  function WithRow(t: Tally, r: Row): Tally {
    if r.report.NotAReport? then t
    else Tally(WithAccounts(t.ids, r.report.accounts), t.servers + {r.server}, t.snapshots + 1, Higher(t.maxUtil, r.report.util))
  }

  function TallyOf(rows: seq<Row>): Tally {
    if rows == [] then Tally([], {}, 0, None)
    else WithRow(TallyOf(rows[..|rows| - 1]), rows[|rows| - 1])
  }

  function AggregateOf(rows: seq<Row>): Aggregate {
    var t := TallyOf(rows);
    Aggregate(|t.ids|, t.ids, |t.servers|, t.snapshots, t.maxUtil)
  }

  lemma {:induction false} AccountsAdded(ids: seq<string>, accounts: seq<Account>)
    requires Ascending(ids)
    ensures Ascending(WithAccounts(ids, accounts))
    ensures Elements(WithAccounts(ids, accounts)) == Elements(ids) + AccountIds(accounts)
  {
    if accounts != [] {
      var n := |accounts| - 1;
      AccountsAdded(ids, accounts[..n]);
      assert accounts == accounts[..n] + [accounts[n]];
      if Billable(accounts[n]) {
        InsertKeeps(WithAccounts(ids, accounts[..n]), accounts[n].id);
        assert AccountIds(accounts) == AccountIds(accounts[..n]) + {accounts[n].id};
      } else {
        assert AccountIds(accounts) == AccountIds(accounts[..n]);
      }
    }
  }

  function AccountIds(accounts: seq<Account>): set<string> {
    set a | a in accounts && Billable(a) :: a.id
  }

  lemma {:induction false} BilledSnoc(rows: seq<Row>, r: Row)
    ensures BilledIds(rows + [r]) == BilledIds(rows) + if r.report.Report? then AccountIds(r.report.accounts) else {}
    ensures ServerIds(rows + [r]) == ServerIds(rows) + if r.report.Report? then {r.server} else {}
  {
    assert r in rows + [r] && forall x :: x in rows ==> x in rows + [r];
  }

  lemma {:induction false} HigherIsMax(rows: seq<Row>, r: Row, m: Option<real>)
    requires IsMaxUtil(rows, m)
    ensures IsMaxUtil(rows + [r], if r.report.Report? then Higher(m, r.report.util) else m)
  {
    var all := rows + [r];
    if r.report.Report? && r.report.util.Some? && (m.None? || r.report.util.value > m.value) {
      assert r in all && HasUtil(r, r.report.util.value);
    } else if m.Some? {
      var x :| x in rows && HasUtil(x, m.value);
      assert x in all;
    }
  }

  /** What the tally so far means. */
  ghost predicate Tallies(t: Tally, rows: seq<Row>) {
    && Ascending(t.ids) && Elements(t.ids) == BilledIds(rows)
    && t.servers == ServerIds(rows) && t.snapshots == |Filter(rows, IsReport)|
    && IsMaxUtil(rows, t.maxUtil)
  }

  lemma {:induction false} TallySnoc(t: Tally, rows: seq<Row>, r: Row)
    requires Tallies(t, rows)
    ensures Tallies(WithRow(t, r), rows + [r])
  {
    BilledSnoc(rows, r);
    HigherIsMax(rows, r, t.maxUtil);
    assert (rows + [r])[..|rows|] == rows;
    if r.report.Report? {
      AccountsAdded(t.ids, r.report.accounts);
    }
  }

  lemma {:induction false} TallyCorrect(rows: seq<Row>)
    ensures Tallies(TallyOf(rows), rows)
  {
    if rows != [] {
      var n := |rows| - 1;
      TallyCorrect(rows[..n]);
      TallySnoc(TallyOf(rows[..n]), rows[..n], rows[n]);
      assert rows == rows[..n] + [rows[n]];
    }
  }

  /** The computed payload describes its rows. */
  lemma {:induction false} AggregateDescribes(rows: seq<Row>)
    ensures Describes(AggregateOf(rows), rows)
  {
    TallyCorrect(rows);
    AscendingCount(TallyOf(rows).ids);
  }

  // ------------------------------------------------------------ row order

  lemma {:induction false} FilterPermuted<T>(a: seq<T>, b: seq<T>, keep: T -> bool)
    requires multiset(a) == multiset(b)
    ensures |Filter(a, keep)| == |Filter(b, keep)|
    decreases |a|
  {
    if a == [] {
      assert |multiset(a)| == |multiset(b)| == |b|;
    } else {
      var n, x := |a| - 1, a[|a| - 1];
      assert x in multiset(b);
      var j :| 0 <= j < |b| && b[j] == x;
      var rest := b[..j] + b[j + 1..];
      assert b == b[..j] + [x] + b[j + 1..];
      assert a == a[..n] + [x];
      assert multiset(rest) == multiset(b) - multiset{x} == multiset(a[..n]);
      FilterPermuted(a[..n], rest, keep);
      FilterConcat(b[..j] + [x], b[j + 1..], keep);
      FilterConcat(b[..j], [x], keep);
      FilterConcat(b[..j], b[j + 1..], keep);
      assert [x][..0] == [];
    }
  }

  lemma {:induction false} SameMaxUtil(a: seq<Row>, b: seq<Row>, m: Option<real>, k: Option<real>)
    requires forall r :: r in a <==> r in b
    requires IsMaxUtil(a, m) && IsMaxUtil(b, k)
    ensures m == k
  {
  }

  /** A description fixes the payload, whatever order the rows are in. */
  lemma {:induction false} DescriptionUnique(a: seq<Row>, b: seq<Row>, x: Aggregate, y: Aggregate)
    requires multiset(a) == multiset(b) && Describes(x, a) && Describes(y, b)
    ensures x == y
  {
    forall r ensures r in a <==> r in b {
      assert r in a <==> r in multiset(a);
    }
    assert BilledIds(a) == BilledIds(b) && ServerIds(a) == ServerIds(b);
    AscendingUnique(x.accountIds, y.accountIds);
    FilterPermuted(a, b, IsReport);
    SameMaxUtil(a, b, x.maxUtil, y.maxUtil);
  }

  /** The payload does not depend on the order of the rows. */
  lemma {:induction false} RowOrderIrrelevant(a: seq<Row>, b: seq<Row>)
    requires multiset(a) == multiset(b)
    ensures AggregateOf(a) == AggregateOf(b)
  {
    AggregateDescribes(a);
    AggregateDescribes(b);
    DescriptionUnique(a, b, AggregateOf(a), AggregateOf(b));
  }

  // ------------------------------------------------------------ the loops

  method AddAccounts(ids: seq<string>, accounts: seq<Account>) returns (r: seq<string>)
    ensures r == WithAccounts(ids, accounts)
  {
    r := ids;
    for i := 0 to |accounts|
      invariant r == WithAccounts(ids, accounts[..i])
    {
      assert accounts[..i + 1][..i] == accounts[..i];
      var acc := accounts[i];
      if acc.NotAnObject? {
        continue;
      }
      if acc.status == ABSENT {
        continue;
      }
      if acc.id != "" {
        r := Insert(r, acc.id);
      }
    }
    assert accounts[..|accounts|] == accounts;
  }

  method AggregateDay(rows: seq<Row>) returns (agg: Aggregate)
    ensures Describes(agg, rows) && agg == AggregateOf(rows)
  {
    var ids, servers, snapshots, maxUtil := [], {}, 0, None;
    for i := 0 to |rows|
      invariant Tally(ids, servers, snapshots, maxUtil) == TallyOf(rows[..i])
    {
      assert rows[..i + 1][..i] == rows[..i];
      var report := rows[i].report;
      if report.NotAReport? {
        continue;
      }
      snapshots := snapshots + 1;
      servers := servers + {rows[i].server};
      ids := AddAccounts(ids, report.accounts);
      if report.util.Some? {
        if maxUtil.None? || report.util.value > maxUtil.value {
          maxUtil := report.util;
        }
      }
    }
    assert rows[..|rows|] == rows;
    AggregateDescribes(rows);
    agg := Aggregate(|ids|, ids, |servers|, snapshots, maxUtil);
  }
}
