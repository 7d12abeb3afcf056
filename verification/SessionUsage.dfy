/** The aggregation loop as the hook runs it: dictionaries and the label budget
    updated in place, proved to follow the value-level model. */
module SessionUsage {
  import opened Collections
  import opened UsageModel
  import UsageProofs

  class Aggregator {
    var models: Models
    var labelChars: nat
    var truncated: bool

    function Value(): Totals
      reads this
    {
      Totals(models, labelChars, truncated)
    }

    constructor (truncated: bool)
      ensures Value() == Totals([], 0, truncated)
    {
      this.models, this.labelChars, this.truncated := [], 0, truncated;
    }

    /** Draws on the label budget if it suffices. */
    method SpendLabels(name: string) returns (spent: bool)
      modifies this`labelChars
      ensures spent == Affords(old(labelChars), name)
      ensures labelChars == old(labelChars) + if spent then |name| else 0
    {
      if labelChars + |name| > MAX_LABEL_CHARS {
        return false;
      }
      labelChars := labelChars + |name|;
      return true;
    }

    method BucketFor(model: Field) returns (i: nat)
      modifies this`models, this`labelChars
      ensures (Value(), i) == WithBucket(old(Value()), model)
      ensures i < |models|
    {
      var found := Label(model, MAX_MODEL_CHARS);
      var name := if found.Some? then found.value else UNKNOWN;
      if !Has(models, name) {
        var folded := |models| >= MAX_DISTINCT_MODELS;
        if !folded {
          var spent := SpendLabels(name);
          folded := !spent;
        }
        if folded {
          name := OTHER;
        }
      }
      i := Find(models, name);
      if i == |models| {
        models := models + [Entry(name, FRESH)];
      }
    }

    method Bump(counts: Counts, key: Field) returns (counts': Counts)
      modifies this`labelChars
      ensures (counts', labelChars) == Bumped(counts, key, old(labelChars))
    {
      var found := Label(key, MAX_COUNT_KEY_CHARS);
      if found.None? {
        return counts;
      }
      var name := found.value;
      if !Has(counts, name) {
        var folded := |counts| >= MAX_DISTINCT_COUNT_KEYS;
        if !folded {
          var spent := SpendLabels(name);
          folded := !spent;
        }
        if folded {
          name := OTHER;
        }
      }
      return Increment(counts, name);
    }

    /** Splits a message into the pieces its token counters are read from. */
    method TokenSlices(m: Message) returns (slices: seq<Slice>)
      modifies this`truncated
      ensures slices == Slices(m)
      ensures truncated == (old(truncated) || |m.iterations| > MAX_ITERATIONS)
    {
      var iterations := m.iterations;
      if |iterations| > MAX_ITERATIONS {
        truncated := true;
        iterations := iterations[..MAX_ITERATIONS];
      }
      slices := [];
      for i := 0 to |iterations|
        invariant slices == Objects(iterations[..i], m.model)
      {
        assert iterations[..i + 1][..i] == iterations[..i];
        var it := iterations[i];
        if it.Some? {
          var model := if it.value.model.Falsy? then m.model else it.value.model;
          slices := slices + [Slice(model, it.value.counters)];
        }
      }
      assert iterations[..|iterations|] == iterations;
      if slices == [] {
        slices := [Slice(m.model, m.top)];
      }
    }

    method AddSlice(s: Slice, stamp: Option<int>)
      modifies this`models, this`labelChars
      ensures Value() == AfterSlice(old(Value()), s, stamp)
    {
      var i := BucketFor(s.model);
      var b := models[i].value;
      b := b.(tokens := b.tokens.Plus(Counted(s.counters)));
      models := models[i := Entry(models[i].key, Spanned(b, stamp))];
    }

    method AddTop(m: Message)
      modifies this`models, this`labelChars
      ensures Value() == AfterTop(old(Value()), m)
    {
      var i := BucketFor(m.model);
      var b := models[i].value;
      b := b.(tokens := b.tokens.Plus(Extras(m)));
      var tiers := Bump(b.tiers, m.tier);
      var stops := Bump(b.stops, m.stop);
      b := b.(tiers := tiers, stops := stops, messages := b.messages + 1);
      models := models[i := Entry(models[i].key, Spanned(b, m.stamp))];
    }

    method AddSlices(slices: seq<Slice>, stamp: Option<int>)
      modifies this`models, this`labelChars
      ensures Value() == AfterSlices(old(Value()), slices, stamp)
    {
      ghost var start := Value();
      for i := 0 to |slices|
        invariant Value() == AfterSlices(start, slices[..i], stamp)
      {
        SlicesStep(start, slices, i, stamp);
        AddSlice(slices[i], stamp);
      }
      assert slices[..|slices|] == slices;
    }

    method AddMessage(m: Message)
      modifies this
      ensures Value() == AfterMessage(old(Value()), m)
    {
      var slices := TokenSlices(m);
      AddSlices(slices, m.stamp);
      AddTop(m);
    }

    /** Takes in one decoded line: a message counts only if its id is new. */
    method AddLine(m: Option<Message>, seen: set<string>, ghost first: seq<Message>, ghost given: bool)
      returns (seen': set<string>, ghost first': seq<Message>)
      requires seen == Seen(first) && Value() == Aggregated(first, given)
      modifies this
      ensures first' == if m.None? || m.value.id in Seen(first) then first else first + [m.value]
      ensures seen' == Seen(first') && Value() == Aggregated(first', given)
    {
      if m.None? || m.value.id in seen {
        return seen, first;
      }
      SeenStep(first, m.value);
      AggregateStep(first, m.value, given);
      AddMessage(m.value);
      return seen + {m.value.id}, first + [m.value];
    }
  }

  lemma {:induction false} SlicesStep(t: Totals, slices: seq<Slice>, i: nat, stamp: Option<int>)
    requires i < |slices|
    ensures AfterSlices(t, slices[..i + 1], stamp) == AfterSlice(AfterSlices(t, slices[..i], stamp), slices[i], stamp)
  {
    assert slices[..i + 1][..i] == slices[..i];
  }

  lemma {:induction false} FirstStep(lines: seq<string>, n: nat, parse: string -> Option<Message>)
    requires n < |lines|
    ensures var earlier, m := FirstMessages(lines[..n], parse), parse(lines[n]);
            FirstMessages(lines[..n + 1], parse) ==
            if m.None? || m.value.id in Seen(earlier) then earlier else earlier + [m.value]
  {
    assert lines[..n + 1][..n] == lines[..n];
  }

  lemma {:induction false} AggregateStep(messages: seq<Message>, m: Message, truncated: bool)
    ensures Aggregated(messages + [m], truncated) == AfterMessage(Aggregated(messages, truncated), m)
  {
    var all := messages + [m];
    assert all[..|all| - 1] == messages;
  }

  lemma {:induction false} SeenStep(messages: seq<Message>, m: Message)
    ensures Seen(messages + [m]) == Seen(messages) + {m.id}
  {
  }

  method AggregateLines(lines: seq<string>, parse: string -> Option<Message>, truncated: bool) returns (totals: Totals)
    ensures totals == Aggregated(FirstMessages(lines, parse), truncated)
  {
    var state := new Aggregator(truncated);
    var seen: set<string> := {};
    ghost var first: seq<Message> := [];
    for n := 0 to |lines|
      invariant fresh(state)
      invariant first == FirstMessages(lines[..n], parse)
      invariant seen == Seen(first) && state.Value() == Aggregated(first, truncated)
    {
      FirstStep(lines, n, parse);
      seen, first := state.AddLine(parse(lines[n]), seen, first, truncated);
    }
    assert lines[..|lines|] == lines;
    totals := state.Value();
  }

  /** Folds transcript lines into per-model totals: the first record of each message
      id counts, later ones and everything past the line limit do not. */
  method Aggregate(lines: seq<string>, parse: string -> Option<Message>, truncated: bool) returns (totals: Totals)
    ensures totals.models == Aggregated(FirstMessages(Within(lines), parse), truncated).models
    ensures totals.labelChars == Aggregated(FirstMessages(Within(lines), parse), truncated).labelChars
    ensures totals.truncated == (Aggregated(FirstMessages(Within(lines), parse), truncated).truncated || |lines| > MAX_LINES)
  {
    totals := AggregateLines(Within(lines), parse, truncated);
    if |lines| > MAX_LINES {
      totals := totals.(truncated := true);
    }
  }

  method BuildModels(models: Models) returns (payload: Models)
    ensures payload == UsageProofs.Payload(Totals(models, 0, false))
  {
    var sorted := UsageProofs.SortedModels(models);
    return if |sorted| > MAX_MODELS then sorted[..MAX_MODELS] else sorted;
  }
}
