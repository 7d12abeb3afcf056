/** The append-only add/del log behind the event outbox: how it is replayed, what a
    torn last write can do to it, and the object that appends to and compacts it. */
module OutboxLog {
  import opened Collections
  import Lines

  datatype Event = Event(id: string, body: string)

  datatype Item = Item(seqNo: nat, ev: Event)

  datatype Op = AddOp | DelOp | OtherOp

  /** One parsed line; `ev` is missing when the payload does not decode. */
  datatype Record = Record(op: Op, seqNo: nat, ev: Option<Event>)

  function Added(it: Item): Record { Record(AddOp, it.seqNo, Some(it.ev)) }
  function Deleted(s: nat): Record { Record(DelOp, s, None) }

  // ------------------------------------------------------------ replay

  datatype Loaded = Loaded(live: map<nat, Event>, order: seq<nat>, maxSeq: nat)

  function AfterRecord(l: Loaded, r: Record): Loaded {
    var m := l.(maxSeq := if r.seqNo > l.maxSeq then r.seqNo else l.maxSeq);
    match r.op
    case AddOp =>
      if r.ev.None? then m
      else m.(order := if r.seqNo in m.live then m.order else m.order + [r.seqNo], live := m.live[r.seqNo := r.ev.value])
    case DelOp => m.(live := m.live - {r.seqNo})
    case OtherOp => m
  }

  function Load(records: seq<Record>): Loaded {
    if records == [] then Loaded(map[], [], 0)
    else AfterRecord(Load(records[..|records| - 1]), records[|records| - 1])
  }

  function ItemsOf(order: seq<nat>, live: map<nat, Event>): seq<Item> {
    if order == [] then []
    else
      var s := order[|order| - 1];
      ItemsOf(order[..|order| - 1], live) + if s in live then [Item(s, live[s])] else []
  }

  /** The live items of a log, in enqueue order. */
  function Replay(records: seq<Record>): seq<Item> {
    ItemsOf(Load(records).order, Load(records).live)
  }

  function MaxSeq(records: seq<Record>): nat {
    Load(records).maxSeq
  }

  lemma {:induction false} LoadSnoc(records: seq<Record>, r: Record)
    ensures Load(records + [r]) == AfterRecord(Load(records), r)
  {
    assert (records + [r])[..|records|] == records;
  }

  ghost predicate AllBelow(records: seq<Record>, s: nat) {
    forall r :: r in records ==> r.seqNo < s
  }

  lemma {:induction false} LoadBelow(records: seq<Record>, s: nat)
    requires AllBelow(records, s)
    ensures forall x :: x in Load(records).live ==> x < s
    ensures forall x :: x in Load(records).order ==> x < s
    ensures MaxSeq(records) < s || records == []
  {
    if records != [] {
      var n := |records| - 1;
      assert records[n] in records;
      LoadBelow(records[..n], s);
    }
  }

  lemma {:induction false} MaxSeqBounds(records: seq<Record>)
    ensures forall r :: r in records ==> r.seqNo <= MaxSeq(records)
  {
    if records != [] {
      var n := |records| - 1;
      MaxSeqBounds(records[..n]);
      assert records == records[..n] + [records[n]];
    }
  }

  lemma {:induction false} ItemsIgnore(order: seq<nat>, live: map<nat, Event>, s: nat, ev: Event)
    requires s !in order
    ensures ItemsOf(order, live[s := ev]) == ItemsOf(order, live)
  {
    if order != [] {
      assert order[|order| - 1] in order;
      ItemsIgnore(order[..|order| - 1], live, s, ev);
    }
  }

  /** An add with a number not used before appends its item. */
  lemma {:induction false} ReplayAdd(records: seq<Record>, it: Item)
    requires AllBelow(records, it.seqNo)
    ensures Replay(records + [Added(it)]) == Replay(records) + [it]
  {
    LoadBelow(records, it.seqNo);
    LoadSnoc(records, Added(it));
    var l := Load(records);
    ItemsIgnore(l.order, l.live, it.seqNo, it.ev);
    assert (l.order + [it.seqNo])[..|l.order|] == l.order;
  }

  predicate Differs(it: Item, s: nat) { it.seqNo != s }

  function Excluding(items: seq<Item>, s: nat): seq<Item> {
    Filter(items, it => Differs(it, s))
  }

  lemma {:induction false} ExcludingSnoc(items: seq<Item>, it: Item, s: nat)
    ensures Excluding(items + [it], s) == Excluding(items, s) + if it.seqNo != s then [it] else []
  {
    assert (items + [it])[..|items|] == items;
  }

  lemma {:induction false} ItemsWithout(order: seq<nat>, live: map<nat, Event>, s: nat)
    ensures ItemsOf(order, live - {s}) == Excluding(ItemsOf(order, live), s)
  {
    if order != [] {
      var n := |order| - 1;
      ItemsWithout(order[..n], live, s);
      if order[n] in live {
        var it := Item(order[n], live[order[n]]);
        ExcludingSnoc(ItemsOf(order[..n], live), it, s);
        assert ItemsOf(order, live) == ItemsOf(order[..n], live) + [it];
        if order[n] != s {
          assert order[n] in live - {s} && (live - {s})[order[n]] == live[order[n]];
        }
      } else {
        assert ItemsOf(order, live) == ItemsOf(order[..n], live);
      }
    }
  }

  /** A tombstone retires exactly the item with its number. */
  lemma {:induction false} ReplayDel(records: seq<Record>, s: nat)
    ensures Replay(records + [Deleted(s)]) == Excluding(Replay(records), s)
  {
    LoadSnoc(records, Deleted(s));
    ItemsWithout(Load(records).order, Load(records).live, s);
  }

  function Adds(items: seq<Item>): seq<Record> {
    Map(items, Added)
  }

  ghost predicate Rising(items: seq<Item>) {
    forall i, j :: 0 <= i < j < |items| ==> items[i].seqNo < items[j].seqNo
  }

  /** Compaction: rewriting the live items replays to the same items. */
  lemma {:induction false} ReplayAdds(items: seq<Item>)
    requires Rising(items)
    ensures Replay(Adds(items)) == items
  {
    if items == [] {
      assert Adds(items) == [];
    } else {
      var n := |items| - 1;
      ReplayAdds(items[..n]);
      assert Adds(items) == Adds(items[..n]) + [Added(items[n])];
      assert AllBelow(Adds(items[..n]), items[n].seqNo);
      ReplayAdd(Adds(items[..n]), items[n]);
      assert items == items[..n] + [items[n]];
    }
  }

  /** Why the counter resumes past retired numbers: a number used again after its
      tombstone makes the loader return the item twice. */
  lemma {:induction false} ReusedNumber(s: nat, a: Event, b: Event)
    ensures Replay([Added(Item(s, a)), Deleted(s), Added(Item(s, b))]) == [Item(s, b), Item(s, b)]
  {
    var r1, r2, r3 := Added(Item(s, a)), Deleted(s), Added(Item(s, b));
    LoadSnoc([], r1);
    LoadSnoc([r1], r2);
    LoadSnoc([r1, r2], r3);
    assert [] + [r1] == [r1] && [r1] + [r2] == [r1, r2] && [r1, r2] + [r3] == [r1, r2, r3];
    var live := map[s := b];
    assert Load([r1, r2, r3]) == Loaded(live, [s, s], s);
    assert ItemsOf([], live) == [];
    assert [s][..0] == [] && ItemsOf([s], live) == [Item(s, b)];
    assert [s, s][..1] == [s];
  }

  // ------------------------------------------------------------ the text of the log

  /** Records of the non-empty lines that parse; other lines are skipped. */
  function Decoded(lines: seq<string>, decode: string -> Option<Record>): seq<Record> {
    if lines == [] then []
    else
      var line := lines[|lines| - 1];
      Decoded(lines[..|lines| - 1], decode) +
      if line != "" && decode(line).Some? then [decode(line).value] else []
  }

  function RecordsIn(text: string, decode: string -> Option<Record>): seq<Record> {
    Decoded(Lines.Split(text, '\n'), decode)
  }

  /** A record is one line that parses back, and no cut-off piece of it parses. */
  ghost predicate Codec(encode: Record -> string, decode: string -> Option<Record>) {
    forall r ::
      && encode(r) != "" && '\n' !in encode(r) && decode(encode(r)) == Some(r)
      && forall k :: 0 < k < |encode(r)| ==> decode(encode(r)[..k]).None?
  }

  ghost predicate Ended(text: string) {
    Lines.Tail(text, '\n') == ""
  }

  lemma {:induction false} DecodedSnoc(lines: seq<string>, line: string, decode: string -> Option<Record>)
    ensures Decoded(lines + [line], decode) ==
            Decoded(lines, decode) + if line != "" && decode(line).Some? then [decode(line).value] else []
  {
    assert (lines + [line])[..|lines|] == lines;
  }

  lemma {:induction false} AppendLine(text: string, line: string)
    requires Ended(text) && '\n' !in line
    ensures Lines.Split(text + line, '\n') == Lines.Complete(text, '\n') + [line]
    ensures Lines.Split(text + line + "\n", '\n') == Lines.Complete(text, '\n') + [line, ""]
  {
    Lines.SplitResume(text, line, '\n');
    assert Lines.Tail(text, '\n') + line == line;
    Lines.SplitSingle(line, '\n');
    Lines.SplitExtend(text + line, '\n', '\n');
    assert text + line + "\n" == (text + line) + ['\n'];
  }

  lemma {:induction false} EndedRecords(text: string, decode: string -> Option<Record>)
    requires Ended(text)
    ensures RecordsIn(text, decode) == Decoded(Lines.Complete(text, '\n'), decode)
  {
    Lines.TailAlone(text, '\n');
    DecodedSnoc(Lines.Complete(text, '\n'), "", decode);
  }

  /** A whole append adds its record and leaves the log ready for the next. */
  lemma {:induction false} WholeAppend(text: string, r: Record, encode: Record -> string, decode: string -> Option<Record>)
    requires Ended(text) && Codec(encode, decode)
    ensures RecordsIn(text + encode(r) + "\n", decode) == RecordsIn(text, decode) + [r]
    ensures Ended(text + encode(r) + "\n")
  {
    AppendLine(text, encode(r));
    EndedRecords(text, decode);
    var complete := Lines.Complete(text, '\n');
    DecodedSnoc(complete, encode(r), decode);
    DecodedSnoc(complete + [encode(r)], "", decode);
    assert complete + [encode(r), ""] == complete + [encode(r)] + [""];
  }

  /** A crash at any byte of an append leaves a log that replays either without the
      record or, once its last character is written, with it. */
  lemma {:induction false} TornAppend(text: string, r: Record, k: nat, encode: Record -> string, decode: string -> Option<Record>)
    requires Ended(text) && Codec(encode, decode) && k <= |encode(r)|
    ensures RecordsIn(text + encode(r)[..k], decode) ==
            RecordsIn(text, decode) + if k == |encode(r)| then [r] else []
  {
    var part := encode(r)[..k];
    AppendLine(text, part);
    EndedRecords(text, decode);
    DecodedSnoc(Lines.Complete(text, '\n'), part, decode);
    if k == |encode(r)| {
      assert part == encode(r);
    }
  }

  // ------------------------------------------------------------ the object

  /** Replays a log; the loader of the outbox. */
  method LoadOutbox(records: seq<Record>) returns (items: seq<Item>, maxSeq: nat)
    ensures items == Replay(records) && maxSeq == MaxSeq(records)
  {
    var live: map<nat, Event> := map[];
    var order: seq<nat> := [];
    maxSeq := 0;
    for i := 0 to |records|
      invariant Loaded(live, order, maxSeq) == Load(records[..i])
    {
      assert records[..i + 1][..i] == records[..i];
      var r := records[i];
      if r.seqNo > maxSeq {
        maxSeq := r.seqNo;
      }
      if r.op == AddOp {
        if r.ev.Some? {
          if r.seqNo !in live {
            order := order + [r.seqNo];
          }
          live := live[r.seqNo := r.ev.value];
        }
      } else if r.op == DelOp {
        live := live - {r.seqNo};
      }
    }
    assert records[..|records|] == records;
    items := [];
    for i := 0 to |order|
      invariant items == ItemsOf(order[..i], live)
    {
      assert order[..i + 1][..i] == order[..i];
      if order[i] in live {
        items := items + [Item(order[i], live[order[i]])];
      }
    }
    assert order[..|order|] == order;
  }

  const COMPACT_THRESHOLD := 256

  /** The open log: the records on disk and the tombstones since the last rewrite.
      Each `io` says whether the disk operation succeeds; a failed one writes nothing. */
  class AppendLog {
    var records: seq<Record>
    var dels: nat

    constructor (records: seq<Record>)
      ensures this.records == records && dels == 0
    {
      this.records, dels := records, 0;
    }

    method AppendAdd(it: Item, io: bool) returns (ok: bool)
      modifies this`records
      ensures ok == io
      ensures records == old(records) + if io then [Added(it)] else []
    {
      if io {
        records := records + [Added(it)];
      }
      return io;
    }

    method AppendDel(s: nat, io: bool) returns (ok: bool)
      modifies this
      ensures ok == io
      ensures records == old(records) + if io then [Deleted(s)] else []
      ensures dels == old(dels) + if io then 1 else 0
    {
      if io {
        records := records + [Deleted(s)];
        dels := dels + 1;
      }
      return io;
    }

    predicate ShouldCompact()
      reads this
    {
      dels >= COMPACT_THRESHOLD
    }

    /** Rewrites the log to the given live items, atomically. */
    method Compact(items: seq<Item>, io: bool) returns (ok: bool)
      modifies this
      ensures ok == io
      ensures records == if io then Adds(items) else old(records)
      ensures dels == if io then 0 else old(dels)
    {
      if !io {
        return false;
      }
      records, dels := Adds(items), 0;
      return true;
    }
  }
}
