/** Conservation and bounds of the session cost aggregation. */
module UsageProofs {
  import opened Collections
  import opened UsageModel

  // ------------------------------------------------------------ conservation

  function SumCounts(counts: Counts): nat {
    if counts == [] then 0 else SumCounts(counts[..|counts| - 1]) + counts[|counts| - 1].value
  }

  /** All sums of a payload at once: tokens, messages, and the counted labels. */
  datatype Sums = Sums(tokens: Tokens, messages: nat, tiers: nat, stops: nat) {
    function Add(s: Sums): Sums {
      Sums(tokens.Plus(s.tokens), messages + s.messages, tiers + s.tiers, stops + s.stops)
    }
  }

  const ZERO := Sums(NOTHING, 0, 0, 0)

  function BucketSums(b: Bucket): Sums {
    Sums(b.tokens, b.messages, SumCounts(b.tiers), SumCounts(b.stops))
  }

  function SumsOf(models: Models): Sums {
    if models == [] then ZERO
    else SumsOf(models[..|models| - 1]).Add(BucketSums(models[|models| - 1].value))
  }

  lemma {:induction false} AddRules(a: Sums, b: Sums, c: Sums)
    ensures a.Add(b).Add(c) == a.Add(b.Add(c))
    ensures a.Add(b) == b.Add(a)
    ensures a.Add(ZERO) == a
  {
  }

  lemma {:induction false} SumsUpdate(models: Models, i: nat, b: Bucket, gain: Sums)
    requires i < |models| && BucketSums(b) == BucketSums(models[i].value).Add(gain)
    ensures SumsOf(models[i := Entry(models[i].key, b)]) == SumsOf(models).Add(gain)
  {
    var n := |models| - 1;
    var after := models[i := Entry(models[i].key, b)];
    var front := SumsOf(models[..n]);
    if i < n {
      SumsUpdate(models[..n], i, b, gain);
      assert after[..n] == models[..n][i := Entry(models[i].key, b)];
      var last := BucketSums(models[n].value);
      AddRules(front, gain, last);
      AddRules(gain, last, ZERO);
      AddRules(front, last, gain);
    } else {
      assert after[..n] == models[..n];
      AddRules(front, BucketSums(models[n].value), gain);
    }
  }

  lemma {:induction false} SumsSnoc(models: Models, e: Entry<Bucket>)
    ensures SumsOf(models + [e]) == SumsOf(models).Add(BucketSums(e.value))
  {
    assert (models + [e])[..|models|] == models;
  }

  lemma {:induction false} SumsInsert(models: Models, key: string)
    ensures SumsOf(models + [Entry(key, FRESH)]) == SumsOf(models)
  {
    SumsSnoc(models, Entry(key, FRESH));
    assert BucketSums(FRESH) == ZERO;
    AddRules(SumsOf(models), ZERO, ZERO);
  }

  /** Fetching a bucket inserts at most one empty one. */
  lemma {:induction false} WithBucketShape(t: Totals, model: Field)
    ensures var t1 := WithBucket(t, model).0;
            t1.models == t.models || exists key :: t1.models == t.models + [Entry(key, FRESH)]
  {
  }

  lemma {:induction false} WithBucketSums(t: Totals, model: Field)
    ensures SumsOf(WithBucket(t, model).0.models) == SumsOf(t.models)
  {
    WithBucketShape(t, model);
    var after := WithBucket(t, model).0.models;
    if after != t.models {
      var key :| after == t.models + [Entry(key, FRESH)];
      SumsInsert(t.models, key);
    }
  }

  function TokenGain(tokens: Tokens): Sums {
    Sums(tokens, 0, 0, 0)
  }

  lemma {:induction false} SliceSums(t: Totals, s: Slice, stamp: Option<int>)
    ensures SumsOf(AfterSlice(t, s, stamp).models) == SumsOf(t.models).Add(TokenGain(Counted(s.counters)))
  {
    WithBucketSums(t, s.model);
    var (t1, i) := WithBucket(t, s.model);
    var b := t1.models[i].value;
    SumsUpdate(t1.models, i, Spanned(b.(tokens := b.tokens.Plus(Counted(s.counters))), stamp), TokenGain(Counted(s.counters)));
  }

  lemma {:induction false} TokenGainAdds(a: Tokens, b: Tokens)
    ensures TokenGain(a).Add(TokenGain(b)) == TokenGain(a.Plus(b))
  {
  }

  lemma {:induction false} SlicesSums(t: Totals, slices: seq<Slice>, stamp: Option<int>)
    ensures SumsOf(AfterSlices(t, slices, stamp).models) == SumsOf(t.models).Add(TokenGain(SumSlices(slices)))
  {
    if slices == [] {
      AddRules(SumsOf(t.models), ZERO, ZERO);
    } else {
      var less, s := slices[..|slices| - 1], slices[|slices| - 1];
      SlicesSums(t, less, stamp);
      SliceSums(AfterSlices(t, less, stamp), s, stamp);
      AddRules(SumsOf(t.models), TokenGain(SumSlices(less)), TokenGain(Counted(s.counters)));
      TokenGainAdds(SumSlices(less), Counted(s.counters));
    }
  }

  lemma {:induction false} SumCountsUpdate(counts: Counts, i: nat, v: nat)
    requires i < |counts|
    ensures SumCounts(counts[i := Entry(counts[i].key, v)]) + counts[i].value == SumCounts(counts) + v
  {
    var n := |counts| - 1;
    var after := counts[i := Entry(counts[i].key, v)];
    if i < n {
      SumCountsUpdate(counts[..n], i, v);
      assert after[..n] == counts[..n][i := Entry(counts[i].key, v)];
    } else {
      assert after[..n] == counts[..n];
    }
  }

  lemma {:induction false} IncrementSum(counts: Counts, key: string)
    ensures SumCounts(Increment(counts, key)) == SumCounts(counts) + 1
  {
    var i := Find(counts, key);
    if i < |counts| {
      SumCountsUpdate(counts, i, counts[i].value + 1);
    } else {
      assert (counts + [Entry(key, 1)])[..|counts|] == counts;
    }
  }

  /** 1 when the field carries a label at all, folded or not. */
  function Labelled(f: Field): nat {
    if Label(f, MAX_COUNT_KEY_CHARS).Some? then 1 else 0
  }

  /** Counting a field increments one key, or nothing when it has no label. */
  lemma {:induction false} BumpedShape(counts: Counts, key: Field, chars: nat)
    ensures var after := Bumped(counts, key, chars).0;
            if Labelled(key) == 0 then after == counts else exists k :: after == Increment(counts, k)
  {
  }

  lemma {:induction false} BumpedSum(counts: Counts, key: Field, chars: nat)
    ensures SumCounts(Bumped(counts, key, chars).0) == SumCounts(counts) + Labelled(key)
  {
    BumpedShape(counts, key, chars);
    if Labelled(key) == 1 {
      var k :| Bumped(counts, key, chars).0 == Increment(counts, k);
      IncrementSum(counts, k);
    }
  }

  function TopGain(m: Message): Sums {
    Sums(Extras(m), 1, Labelled(m.tier), Labelled(m.stop))
  }

  lemma {:induction false} TopBucketSums(b: Bucket, m: Message, chars: nat)
    ensures BucketSums(TopBucket(b, m, chars).0) == BucketSums(b).Add(TopGain(m))
  {
    BumpedSum(b.tiers, m.tier, chars);
    BumpedSum(b.stops, m.stop, Bumped(b.tiers, m.tier, chars).1);
  }

  lemma {:induction false} SpannedSums(b: Bucket, stamp: Option<int>)
    ensures BucketSums(Spanned(b, stamp)) == BucketSums(b)
  {
  }

  lemma {:induction false} TopSums(t: Totals, m: Message)
    ensures SumsOf(AfterTop(t, m).models) == SumsOf(t.models).Add(TopGain(m))
  {
    var (t1, i) := WithBucket(t, m.model);
    WithBucketSums(t, m.model);
    var b := TopBucket(t1.models[i].value, m, t1.labelChars).0;
    TopBucketSums(t1.models[i].value, m, t1.labelChars);
    SpannedSums(b, m.stamp);
    SumsUpdate(t1.models, i, Spanned(b, m.stamp), TopGain(m));
  }

  /** What distinct messages add up to, said without any bucket. */
  function MessageSums(m: Message): Sums {
    Sums(Contribution(m), 1, Labelled(m.tier), Labelled(m.stop))
  }

  function Expected(messages: seq<Message>): Sums {
    if messages == [] then ZERO
    else Expected(messages[..|messages| - 1]).Add(MessageSums(messages[|messages| - 1]))
  }

  lemma {:induction false} GainsAdd(m: Message)
    ensures TokenGain(SumSlices(Slices(m))).Add(TopGain(m)) == MessageSums(m)
  {
    var tokens := SumSlices(Slices(m));
    assert TokenGain(tokens).Add(TopGain(m)) == Sums(tokens.Plus(Extras(m)), 1, Labelled(m.tier), Labelled(m.stop));
  }

  /** One message adds exactly its own contribution, wherever its labels land. */
  lemma {:induction false} MessageAdds(t: Totals, m: Message)
    ensures SumsOf(AfterMessage(t, m).models) == SumsOf(t.models).Add(MessageSums(m))
  {
    var t1 := t.(truncated := t.truncated || |m.iterations| > MAX_ITERATIONS);
    var t2 := AfterSlices(t1, Slices(m), m.stamp);
    var base, gain := SumsOf(t.models), TokenGain(SumSlices(Slices(m)));
    assert SumsOf(t2.models) == base.Add(gain) by { SlicesSums(t1, Slices(m), m.stamp); }
    assert SumsOf(AfterTop(t2, m).models) == SumsOf(t2.models).Add(TopGain(m)) by { TopSums(t2, m); }
    AddRules(base, gain, TopGain(m));
    GainsAdd(m);
  }

  /** Folding labels moves numbers between buckets but loses and invents none. */
  lemma {:induction false} Conserved(messages: seq<Message>, truncated: bool)
    ensures SumsOf(Aggregated(messages, truncated).models) == Expected(messages)
  {
    if messages != [] {
      Conserved(messages[..|messages| - 1], truncated);
      MessageAdds(Aggregated(messages[..|messages| - 1], truncated), messages[|messages| - 1]);
    }
  }

  /** Later lines that repeat a message id, or carry no message, change nothing. */
  lemma {:induction false} DuplicatesIgnored(lines: seq<string>, extra: seq<string>, parse: string -> Option<Message>)
    requires forall x :: x in extra && parse(x).Some? ==> parse(x).value.id in Seen(FirstMessages(lines, parse))
    ensures FirstMessages(lines + extra, parse) == FirstMessages(lines, parse)
  {
    if extra == [] {
      assert lines + extra == lines;
    } else {
      var n := |extra| - 1;
      assert extra[n] in extra;
      DuplicatesIgnored(lines, extra[..n], parse);
      assert (lines + extra)[..|lines + extra| - 1] == lines + extra[..n];
    }
  }

  /** `FirstMessages` is characterised: ids are distinct and none is missing. */
  lemma {:induction false} FirstMessagesDistinct(lines: seq<string>, parse: string -> Option<Message>)
    ensures var ms := FirstMessages(lines, parse);
            && (forall i, j :: 0 <= i < j < |ms| ==> ms[i].id != ms[j].id)
            && (forall x :: x in lines && parse(x).Some? ==> parse(x).value.id in Seen(ms))
            && (forall m :: m in ms ==> exists x :: x in lines && parse(x) == Some(m))
  {
    if lines != [] {
      var n := |lines| - 1;
      FirstMessagesDistinct(lines[..n], parse);
      assert lines == lines[..n] + [lines[n]];
      var before, ms := FirstMessages(lines[..n], parse), FirstMessages(lines, parse);
      assert Seen(before) <= Seen(ms);
      forall m | m in ms ensures exists x :: x in lines && parse(x) == Some(m) {
        if m in before {
          var x :| x in lines[..n] && parse(x) == Some(m);
          assert x in lines;
        } else {
          assert lines[n] in lines && parse(lines[n]) == Some(m);
        }
      }
    }
  }

  // ------------------------------------------------------------ bounds

  /** Text a key carries; the shared fold label carries none. */
  function Chars(key: string, fold: string): nat {
    if key == fold then 0 else |key|
  }

  function KeyChars<V>(entries: seq<Entry<V>>, fold: string): nat {
    if entries == [] then 0 else KeyChars(entries[..|entries| - 1], fold) + Chars(entries[|entries| - 1].key, fold)
  }

  function BucketChars(b: Bucket, fold: string): nat {
    KeyChars(b.tiers, fold) + KeyChars(b.stops, fold)
  }

  function InnerChars(models: Models, fold: string): nat {
    if models == [] then 0
    else InnerChars(models[..|models| - 1], fold) + BucketChars(models[|models| - 1].value, fold)
  }

  ghost predicate DistinctKeys<V>(entries: seq<Entry<V>>) {
    forall i, j :: 0 <= i < j < |entries| ==> entries[i].key != entries[j].key
  }

  ghost predicate HasKey<V>(entries: seq<Entry<V>>, key: string) {
    exists i :: 0 <= i < |entries| && entries[i].key == key
  }

  /** Room for the fold label is always kept. */
  ghost predicate Roomy<V>(entries: seq<Entry<V>>, limit: nat, fold: string) {
    DistinctKeys(entries) && (|entries| <= limit || (|entries| == limit + 1 && HasKey(entries, fold)))
  }

  ghost predicate GoodBucket(b: Bucket, fold: string) {
    Roomy(b.tiers, MAX_DISTINCT_COUNT_KEYS, fold) && Roomy(b.stops, MAX_DISTINCT_COUNT_KEYS, fold)
  }

  ghost predicate GoodBuckets(models: Models, fold: string) {
    forall i :: 0 <= i < |models| ==> GoodBucket(models[i].value, fold)
  }

  ghost predicate Good(t: Totals, fold: string) {
    && Roomy(t.models, MAX_DISTINCT_MODELS, fold)
    && GoodBuckets(t.models, fold)
    && KeyChars(t.models, fold) + InnerChars(t.models, fold) <= t.labelChars <= MAX_LABEL_CHARS
  }

  lemma {:induction false} InsertKey<V>(entries: seq<Entry<V>>, key: string, v: V, limit: nat, fold: string)
    requires Roomy(entries, limit, fold) && !HasKey(entries, key)
    requires key == fold || |entries| < limit
    ensures Roomy(entries + [Entry(key, v)], limit, fold)
    ensures KeyChars(entries + [Entry(key, v)], fold) == KeyChars(entries, fold) + Chars(key, fold)
  {
    var after := entries + [Entry(key, v)];
    assert after[..|entries|] == entries;
    if |after| == limit + 1 {
      assert after[|entries|].key == fold;
    }
  }

  lemma {:induction false} ReplaceValue<V>(entries: seq<Entry<V>>, i: nat, v: V, limit: nat, fold: string)
    requires i < |entries| && Roomy(entries, limit, fold)
    ensures var after := entries[i := Entry(entries[i].key, v)];
            Roomy(after, limit, fold) && KeyChars(after, fold) == KeyChars(entries, fold)
  {
    var after := entries[i := Entry(entries[i].key, v)];
    SameKeyChars(entries, after, fold);
    if |after| == limit + 1 {
      var k :| 0 <= k < |entries| && entries[k].key == fold;
      assert after[k].key == fold;
    }
  }

  lemma {:induction false} SameKeyChars<V>(a: seq<Entry<V>>, b: seq<Entry<V>>, fold: string)
    requires |a| == |b| && forall i :: 0 <= i < |a| ==> a[i].key == b[i].key
    ensures KeyChars(a, fold) == KeyChars(b, fold)
  {
    if a != [] {
      SameKeyChars(a[..|a| - 1], b[..|b| - 1], fold);
    }
  }

  lemma {:induction false} FindKey<V>(entries: seq<Entry<V>>, key: string)
    ensures HasKey(entries, key) <==> Find(entries, key) < |entries|
  {
    var i := Find(entries, key);
    if i < |entries| {
      assert entries[i].key == key;
    }
  }

  lemma {:induction false} IncrementKnown(counts: Counts, key: string, limit: nat, fold: string)
    requires Roomy(counts, limit, fold) && HasKey(counts, key)
    ensures Roomy(Increment(counts, key), limit, fold)
    ensures KeyChars(Increment(counts, key), fold) == KeyChars(counts, fold)
  {
    FindKey(counts, key);
    var i := Find(counts, key);
    ReplaceValue(counts, i, counts[i].value + 1, limit, fold);
  }

  lemma {:induction false} IncrementNew(counts: Counts, key: string, limit: nat, fold: string)
    requires Roomy(counts, limit, fold) && !HasKey(counts, key) && (key == fold || |counts| < limit)
    ensures Roomy(Increment(counts, key), limit, fold)
    ensures KeyChars(Increment(counts, key), fold) == KeyChars(counts, fold) + Chars(key, fold)
  {
    FindKey(counts, key);
    InsertKey(counts, key, 1, limit, fold);
  }

  lemma {:induction false} IncrementGood(counts: Counts, key: string, limit: nat, fold: string)
    requires Roomy(counts, limit, fold)
    requires HasKey(counts, key) || key == fold || |counts| < limit
    ensures Roomy(Increment(counts, key), limit, fold)
    ensures KeyChars(Increment(counts, key), fold) <= KeyChars(counts, fold) + Chars(key, fold)
    ensures HasKey(counts, key) ==> KeyChars(Increment(counts, key), fold) == KeyChars(counts, fold)
  {
    if HasKey(counts, key) {
      IncrementKnown(counts, key, limit, fold);
    } else {
      IncrementNew(counts, key, limit, fold);
    }
  }

  /** How a label is paid for: not at all when known, from the budget when new, and
      not at all when folded. */
  lemma {:induction false} BumpedCases(counts: Counts, key: Field, chars: nat)
    ensures var (after, spent) := Bumped(counts, key, chars);
            || (after == counts && spent == chars)
            || (exists k :: HasKey(counts, k) && after == Increment(counts, k) && spent == chars)
            || (after == Increment(counts, OTHER) && spent == chars)
            || (exists k :: |counts| < MAX_DISTINCT_COUNT_KEYS && Affords(chars, k) && after == Increment(counts, k) && spent == chars + |k|)
  {
    var tag := Label(key, MAX_COUNT_KEY_CHARS);
    if tag.Some? && Has(counts, tag.value) {
      assert counts[Find(counts, tag.value)].key == tag.value;
    }
  }

  lemma {:induction false} BumpedGood(counts: Counts, key: Field, chars: nat)
    requires Roomy(counts, MAX_DISTINCT_COUNT_KEYS, OTHER) && chars <= MAX_LABEL_CHARS
    ensures var (after, spent) := Bumped(counts, key, chars);
            && Roomy(after, MAX_DISTINCT_COUNT_KEYS, OTHER)
            && chars <= spent <= MAX_LABEL_CHARS
            && KeyChars(after, OTHER) <= KeyChars(counts, OTHER) + (spent - chars)
  {
    BumpedCases(counts, key, chars);
    var (after, spent) := Bumped(counts, key, chars);
    if after != counts {
      var k :| after == Increment(counts, k) &&
               ((HasKey(counts, k) && spent == chars) || (k == OTHER && spent == chars) ||
                (|counts| < MAX_DISTINCT_COUNT_KEYS && Affords(chars, k) && spent == chars + |k|));
      IncrementGood(counts, k, MAX_DISTINCT_COUNT_KEYS, OTHER);
    }
  }

  lemma {:induction false} InnerUpdate(models: Models, i: nat, b: Bucket, fold: string)
    requires i < |models|
    ensures InnerChars(models[i := Entry(models[i].key, b)], fold) + BucketChars(models[i].value, fold) ==
            InnerChars(models, fold) + BucketChars(b, fold)
  {
    var n := |models| - 1;
    var after := models[i := Entry(models[i].key, b)];
    if i < n {
      InnerUpdate(models[..n], i, b, fold);
      assert after[..n] == models[..n][i := Entry(models[i].key, b)];
    } else {
      assert after[..n] == models[..n];
    }
  }

  lemma {:induction false} InsertModel(t: Totals, key: string, chars: nat, fold: string)
    requires Good(t, fold) && !HasKey(t.models, key) && (key == fold || |t.models| < MAX_DISTINCT_MODELS)
    requires t.labelChars + Chars(key, fold) <= chars <= MAX_LABEL_CHARS
    ensures Good(t.(models := t.models + [Entry(key, FRESH)], labelChars := chars), fold)
  {
    InsertKey(t.models, key, FRESH, MAX_DISTINCT_MODELS, fold);
    var after := t.models + [Entry(key, FRESH)];
    assert after[..|t.models|] == t.models;
    assert BucketChars(FRESH, fold) == 0 && GoodBucket(FRESH, fold);
    assert InnerChars(after, fold) == InnerChars(t.models, fold);
  }

  lemma {:induction false} WithBucketCases(t: Totals, model: Field)
    ensures var t1 := WithBucket(t, model).0;
            || t1 == t
            || (!HasKey(t.models, OTHER) && t1 == t.(models := t.models + [Entry(OTHER, FRESH)]))
            || (exists k :: !HasKey(t.models, k) && |t.models| < MAX_DISTINCT_MODELS && Affords(t.labelChars, k) &&
                            t1 == t.(models := t.models + [Entry(k, FRESH)], labelChars := t.labelChars + |k|))
  {
    var tag := Label(model, MAX_MODEL_CHARS);
    var name := if tag.Some? then tag.value else UNKNOWN;
    assert !Has(t.models, name) ==> !HasKey(t.models, name);
    assert !Has(t.models, OTHER) ==> !HasKey(t.models, OTHER);
  }

  lemma {:induction false} WithBucketGood(t: Totals, model: Field)
    requires Good(t, OTHER)
    ensures Good(WithBucket(t, model).0, OTHER)
  {
    WithBucketCases(t, model);
    var t1 := WithBucket(t, model).0;
    if t1 == t {
    } else if !HasKey(t.models, OTHER) && t1 == t.(models := t.models + [Entry(OTHER, FRESH)]) {
      InsertModel(t, OTHER, t.labelChars, OTHER);
    } else {
      var k :| !HasKey(t.models, k) && |t.models| < MAX_DISTINCT_MODELS && Affords(t.labelChars, k) &&
               t1 == t.(models := t.models + [Entry(k, FRESH)], labelChars := t.labelChars + |k|);
      InsertModel(t, k, t.labelChars + |k|, OTHER);
    }
  }

  lemma {:induction false} PutGood(t: Totals, i: nat, b: Bucket, chars: nat, fold: string)
    requires Good(t, fold) && i < |t.models| && GoodBucket(b, fold)
    requires t.labelChars <= chars <= MAX_LABEL_CHARS
    requires BucketChars(b, fold) <= BucketChars(t.models[i].value, fold) + (chars - t.labelChars)
    ensures Good(Put(t, i, b).(labelChars := chars), fold)
  {
    ReplaceValue(t.models, i, b, MAX_DISTINCT_MODELS, fold);
    InnerUpdate(t.models, i, b, fold);
  }

  lemma {:induction false} SliceGood(t: Totals, s: Slice, stamp: Option<int>)
    requires Good(t, OTHER)
    ensures Good(AfterSlice(t, s, stamp), OTHER)
  {
    WithBucketGood(t, s.model);
    var (t1, i) := WithBucket(t, s.model);
    var b := t1.models[i].value;
    assert GoodBucket(b, OTHER);
    PutGood(t1, i, Spanned(b.(tokens := b.tokens.Plus(Counted(s.counters))), stamp), t1.labelChars, OTHER);
  }

  lemma {:induction false} SlicesGood(t: Totals, slices: seq<Slice>, stamp: Option<int>)
    requires Good(t, OTHER)
    ensures Good(AfterSlices(t, slices, stamp), OTHER)
  {
    if slices != [] {
      SlicesGood(t, slices[..|slices| - 1], stamp);
      SliceGood(AfterSlices(t, slices[..|slices| - 1], stamp), slices[|slices| - 1], stamp);
    }
  }

  lemma {:induction false} TopBucketGood(b: Bucket, m: Message, chars: nat)
    requires GoodBucket(b, OTHER) && chars <= MAX_LABEL_CHARS
    ensures var (b', spent) := TopBucket(b, m, chars);
            && GoodBucket(b', OTHER)
            && chars <= spent <= MAX_LABEL_CHARS
            && BucketChars(b', OTHER) <= BucketChars(b, OTHER) + (spent - chars)
  {
    BumpedGood(b.tiers, m.tier, chars);
    BumpedGood(b.stops, m.stop, Bumped(b.tiers, m.tier, chars).1);
  }

  lemma {:induction false} TopGood(t: Totals, m: Message)
    requires Good(t, OTHER)
    ensures Good(AfterTop(t, m), OTHER)
  {
    WithBucketGood(t, m.model);
    var (t1, i) := WithBucket(t, m.model);
    assert GoodBucket(t1.models[i].value, OTHER);
    TopBucketGood(t1.models[i].value, m, t1.labelChars);
    var (b, chars) := TopBucket(t1.models[i].value, m, t1.labelChars);
    PutGood(t1, i, Spanned(b, m.stamp), chars, OTHER);
  }

  /** Whatever the transcript holds, the payload's size is bounded. */
  lemma {:induction false} AlwaysGood(messages: seq<Message>, truncated: bool)
    ensures Good(Aggregated(messages, truncated), OTHER)
  {
    if messages != [] {
      var m := messages[|messages| - 1];
      AlwaysGood(messages[..|messages| - 1], truncated);
      var t := Aggregated(messages[..|messages| - 1], truncated);
      var t1 := t.(truncated := t.truncated || |m.iterations| > MAX_ITERATIONS);
      SlicesGood(t1, Slices(m), m.stamp);
      TopGood(AfterSlices(t1, Slices(m), m.stamp), m);
    }
  }

  // ------------------------------------------------------------ the payload

  /** Position of a new entry among entries sorted by falling weight: behind every
      entry at least as heavy, so that ties keep their order. */
  function Insertion(sorted: Models, w: nat): (k: nat)
    ensures k <= |sorted|
    ensures forall j :: k <= j < |sorted| ==> sorted[j].value.tokens.Weight() < w
    ensures k > 0 ==> sorted[k - 1].value.tokens.Weight() >= w
  {
    if sorted == [] then 0
    else if sorted[|sorted| - 1].value.tokens.Weight() >= w then |sorted|
    else Insertion(sorted[..|sorted| - 1], w)
  }

  function InsertedAt(models: Models, k: nat, e: Entry<Bucket>): Models
    requires k <= |models|
  {
    models[..k] + [e] + models[k..]
  }

  function SortedModels(models: Models): Models {
    if models == [] then []
    else
      var front, e := SortedModels(models[..|models| - 1]), models[|models| - 1];
      InsertedAt(front, Insertion(front, e.value.tokens.Weight()), e)
  }

  ghost predicate Falling(models: Models) {
    forall i, j :: 0 <= i < j < |models| ==> models[i].value.tokens.Weight() >= models[j].value.tokens.Weight()
  }

  lemma {:induction false} SumsInsertAt(models: Models, k: nat, e: Entry<Bucket>)
    requires k <= |models|
    ensures SumsOf(InsertedAt(models, k, e)) == SumsOf(models).Add(BucketSums(e.value))
    decreases |models|
  {
    var after := InsertedAt(models, k, e);
    if k == |models| {
      assert after == models + [e] && after[..|models|] == models;
    } else {
      var n := |models| - 1;
      SumsInsertAt(models[..n], k, e);
      assert after[..|after| - 1] == InsertedAt(models[..n], k, e);
      assert after[|after| - 1] == models[n];
      var front, last, more := SumsOf(models[..n]), BucketSums(models[n].value), BucketSums(e.value);
      AddRules(front, more, last);
      AddRules(more, last, ZERO);
      AddRules(front, last, more);
    }
  }

  lemma {:induction false} InsertionFalling(front: Models, k: nat, e: Entry<Bucket>)
    requires Falling(front) && k == Insertion(front, e.value.tokens.Weight())
    ensures Falling(InsertedAt(front, k, e))
  {
    var after := InsertedAt(front, k, e);
    forall i, j | 0 <= i < j < |after|
      ensures after[i].value.tokens.Weight() >= after[j].value.tokens.Weight()
    {
      if i < k {
        assert after[i] == front[i];
        if j == k {
          assert front[i].value.tokens.Weight() >= front[k - 1].value.tokens.Weight();
        }
      }
      if j > k {
        assert after[j] == front[j - 1];
      }
      if i > k {
        assert after[i] == front[i - 1];
      }
    }
  }

  lemma {:induction false} InsertedMembers(front: Models, k: nat, e: Entry<Bucket>)
    requires k <= |front|
    ensures multiset(InsertedAt(front, k, e)) == multiset(front) + multiset{e}
  {
    assert front == front[..k] + front[k..];
  }

  lemma {:induction false} SortingFalls(models: Models)
    ensures Falling(SortedModels(models))
  {
    if models != [] {
      var front, e := SortedModels(models[..|models| - 1]), models[|models| - 1];
      SortingFalls(models[..|models| - 1]);
      InsertionFalling(front, Insertion(front, e.value.tokens.Weight()), e);
    }
  }

  lemma {:induction false} SortingPermutes(models: Models)
    ensures multiset(SortedModels(models)) == multiset(models)
  {
    if models != [] {
      var less, e := models[..|models| - 1], models[|models| - 1];
      SortingPermutes(less);
      assert models == less + [e];
      InsertedMembers(SortedModels(less), Insertion(SortedModels(less), e.value.tokens.Weight()), e);
    }
  }

  lemma {:induction false} SortingSums(models: Models)
    ensures SumsOf(SortedModels(models)) == SumsOf(models)
  {
    if models != [] {
      var less, e := models[..|models| - 1], models[|models| - 1];
      SortingSums(less);
      SumsInsertAt(SortedModels(less), Insertion(SortedModels(less), e.value.tokens.Weight()), e);
    }
  }

  /** Ordering the payload keeps every model, in falling weight, and every sum. */
  lemma {:induction false} SortingKeeps(models: Models)
    ensures Falling(SortedModels(models))
    ensures multiset(SortedModels(models)) == multiset(models)
    ensures SumsOf(SortedModels(models)) == SumsOf(models)
  {
    SortingFalls(models);
    SortingPermutes(models);
    SortingSums(models);
  }

  /** The payload's models, at most 50 of them. */
  function Payload(t: Totals): Models {
    var sorted := SortedModels(t.models);
    if |sorted| > MAX_MODELS then sorted[..MAX_MODELS] else sorted
  }

  lemma {:induction false} PayloadWhole(t: Totals)
    requires Good(t, OTHER)
    ensures Payload(t) == SortedModels(t.models)
    ensures |Payload(t)| <= MAX_MODELS
    ensures forall e :: e in Payload(t) ==> |e.value.tiers| <= MAX_COUNT_KEYS && |e.value.stops| <= MAX_COUNT_KEYS
  {
    SortingKeeps(t.models);
    assert |SortedModels(t.models)| == |multiset(SortedModels(t.models))| == |t.models|;
    forall e | e in SortedModels(t.models) ensures |e.value.tiers| <= MAX_COUNT_KEYS && |e.value.stops| <= MAX_COUNT_KEYS {
      assert e in multiset(t.models);
      var i :| 0 <= i < |t.models| && t.models[i] == e;
      assert GoodBucket(t.models[i].value, OTHER);
    }
  }

  /** For every transcript the payload carries exactly the sums of the distinct
      messages, within every bound the server sets. */
  lemma {:induction false} PayloadConserves(lines: seq<string>, parse: string -> Option<Message>, truncated: bool)
    ensures var messages := FirstMessages(Within(lines), parse);
            var t := Aggregated(messages, truncated);
            var payload := Payload(t);
            && SumsOf(payload) == Expected(messages)
            && |payload| <= MAX_MODELS
            && (forall e :: e in payload ==> |e.value.tiers| <= MAX_COUNT_KEYS && |e.value.stops| <= MAX_COUNT_KEYS)
            && Falling(payload) && multiset(payload) == multiset(t.models)
            && KeyChars(t.models, OTHER) + InnerChars(t.models, OTHER) <= MAX_LABEL_CHARS
  {
    var messages := FirstMessages(Within(lines), parse);
    var t := Aggregated(messages, truncated);
    Conserved(messages, truncated);
    AlwaysGood(messages, truncated);
    SortingKeeps(t.models);
    PayloadWhole(t);
  }
}
