/** Each token kind of the payload is the sum of its own counter over the distinct
    messages of the transcript. */
module UsageKinds {
  import opened Collections
  import opened UsageModel
  import opened UsageProofs

  datatype Kind = Input | Output | CacheRead | Create1h | Create5m | Thinking | WebSearch | WebFetch

  function Amount(t: Tokens, kind: Kind): nat {
    match kind
    case Input => t.input
    case Output => t.output
    case CacheRead => t.cacheRead
    case Create1h => t.create1h
    case Create5m => t.create5m
    case Thinking => t.thinking
    case WebSearch => t.webSearch
    case WebFetch => t.webFetch
  }

  /** The counter of a kind that a usage object carries; thinking and the searches are
      counted once a message. */
  function CounterOf(c: Counters, kind: Kind): Number {
    match kind
    case Input => c.input
    case Output => c.output
    case CacheRead => c.cacheRead
    case Create1h => c.create1h
    case Create5m => c.create5m
    case _ => NotNumber
  }

  function ExtraOf(m: Message, kind: Kind): Number {
    match kind
    case Thinking => m.thinking
    case WebSearch => m.webSearch
    case WebFetch => m.webFetch
    case _ => NotNumber
  }

  // ------------------------------------------------------------ one message

  predicate IsObject(it: Option<Slice>) { it.Some? }

  function CountersOf(it: Option<Slice>): Counters {
    if it.Some? then it.value.counters else Counters(NotNumber, NotNumber, NotNumber, NotNumber, NotNumber)
  }

  /** The usage objects a message is read from: its first sixteen iterations that are
      objects, or else its own. */
  function Read(m: Message): seq<Counters> {
    var first := if |m.iterations| > 16 then m.iterations[..16] else m.iterations;
    if (exists it :: it in first && it.Some?) then Map(Filter(first, IsObject), CountersOf) else [m.top]
  }

  function Total(read: seq<Counters>, kind: Kind): nat {
    if read == [] then 0 else Total(read[..|read| - 1], kind) + Count(CounterOf(read[|read| - 1], kind))
  }

  function ReadAmount(m: Message, kind: Kind): nat {
    Total(Read(m), kind) + Count(ExtraOf(m, kind))
  }

  function SliceCounters(s: Slice): Counters { s.counters }

  lemma {:induction false} ObjectsAre(iterations: seq<Option<Slice>>, top: Field)
    ensures Map(Objects(iterations, top), SliceCounters) == Map(Filter(iterations, IsObject), CountersOf)
    ensures Objects(iterations, top) != [] <==> exists it :: it in iterations && it.Some?
  {
    if iterations != [] {
      var less, it := iterations[..|iterations| - 1], iterations[|iterations| - 1];
      ObjectsAre(less, top);
      assert forall x :: x in iterations <==> x in less || x == it;
    }
  }

  lemma {:induction false} SumsByKind(slices: seq<Slice>, kind: Kind)
    ensures Amount(SumSlices(slices), kind) == Total(Map(slices, SliceCounters), kind)
  {
    if slices != [] {
      var n := |slices| - 1;
      SumsByKind(slices[..n], kind);
      assert Map(slices, SliceCounters)[..n] == Map(slices[..n], SliceCounters);
    }
  }

  lemma {:induction false} SlicesRead(m: Message)
    ensures Map(Slices(m), SliceCounters) == Read(m)
  {
    ObjectsAre(Capped(m.iterations), m.model);
  }

  lemma {:induction false} PlusByKind(a: Tokens, b: Tokens, kind: Kind)
    ensures Amount(a.Plus(b), kind) == Amount(a, kind) + Amount(b, kind)
  {
  }

  lemma {:induction false} ExtrasByKind(m: Message, kind: Kind)
    ensures Amount(Extras(m), kind) == Count(ExtraOf(m, kind))
  {
    assert Count(NotNumber) == 0;
  }

  lemma {:induction false} ContributionIs(m: Message, kind: Kind)
    ensures Amount(Contribution(m), kind) == ReadAmount(m, kind)
  {
    SumsByKind(Slices(m), kind);
    SlicesRead(m);
    PlusByKind(SumSlices(Slices(m)), Extras(m), kind);
    ExtrasByKind(m, kind);
  }

  // ------------------------------------------------------------ the whole payload

  function Sum(messages: seq<Message>, kind: Kind): nat {
    if messages == [] then 0 else Sum(messages[..|messages| - 1], kind) + ReadAmount(messages[|messages| - 1], kind)
  }

  lemma {:induction false} ExpectedByKind(messages: seq<Message>, kind: Kind)
    ensures Amount(Expected(messages).tokens, kind) == Sum(messages, kind) && Expected(messages).messages == |messages|
  {
    if messages != [] {
      ExpectedByKind(messages[..|messages| - 1], kind);
      ContributionIs(messages[|messages| - 1], kind);
    }
  }

  /** For every transcript and token kind, the payload's buckets add up to the sum of
      that kind's counters over the distinct messages, and its message counts to how many
      those are. */
  lemma {:induction false} PayloadByKind(lines: seq<string>, parse: string -> Option<Message>, truncated: bool, kind: Kind)
    ensures var messages := FirstMessages(Within(lines), parse);
            var payload := Payload(Aggregated(messages, truncated));
            Amount(SumsOf(payload).tokens, kind) == Sum(messages, kind) && SumsOf(payload).messages == |messages|
  {
    PayloadConserves(lines, parse, truncated);
    ExpectedByKind(FirstMessages(Within(lines), parse), kind);
  }

  function Five(t: Tokens): nat {
    Amount(t, Input) + Amount(t, Output) + Amount(t, CacheRead) + Amount(t, Create1h) + Amount(t, Create5m)
  }

  lemma {:induction false} FiveFall(models: Models, i: nat, j: nat)
    requires Falling(models) && i < j < |models|
    ensures Five(models[i].value.tokens) >= Five(models[j].value.tokens)
  {
  }

  /** The payload's models stand in falling order of their five token kinds together. */
  lemma {:induction false} PayloadFalls(lines: seq<string>, parse: string -> Option<Message>, truncated: bool, i: nat, j: nat)
    requires var payload := Payload(Aggregated(FirstMessages(Within(lines), parse), truncated)); i < j < |payload|
    ensures var payload := Payload(Aggregated(FirstMessages(Within(lines), parse), truncated));
            Five(payload[i].value.tokens) >= Five(payload[j].value.tokens)
  {
    PayloadConserves(lines, parse, truncated);
    FiveFall(Payload(Aggregated(FirstMessages(Within(lines), parse), truncated)), i, j);
  }
}
