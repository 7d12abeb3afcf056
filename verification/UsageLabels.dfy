/** What a model's bucket says beside its tokens: how many of its messages there were,
    under which service tiers and stop reasons, and over which time. */
module UsageLabels {
  import opened Collections
  import opened UsageModel
  import opened UsageAttribution

  function BucketAt(models: Models, name: string): Bucket {
    if Has(models, name) then models[Find(models, name)].value else FRESH
  }

  function ValueAt(counts: Counts, key: string): nat {
    if Has(counts, key) then counts[Find(counts, key)].value else 0
  }

  // ------------------------------------------------------------ one label

  predicate Tagged(field: Field, x: string) { Label(field, MAX_COUNT_KEY_CHARS) == Some(x) }

  /** No room is left for a new count under this label. */
  predicate NoRoom(counts: Counts, chars: nat, x: string) {
    |counts| >= MAX_DISTINCT_COUNT_KEYS || chars + |x| > MAX_LABEL_CHARS
  }

  lemma {:induction false} Incremented(counts: Counts, key: string, x: string)
    ensures ValueAt(Increment(counts, key), x) == ValueAt(counts, x) + if x == key then 1 else 0
    ensures Has(Increment(counts, key), x) <==> Has(counts, x) || x == key
    ensures |Increment(counts, key)| >= |counts|
  {
    var i := Find(counts, key);
    if i < |counts| {
      FindSameKeys(counts, Increment(counts, key), x);
    } else {
      FindSnoc(counts, Entry(key, 1), x);
    }
  }

  /** A label is counted under itself unless it is new and there is no room, and never
      changes another's count. */
  lemma {:induction false} BumpedLands(counts: Counts, key: Field, chars: nat, x: string)
    requires x != OTHER
    ensures var after, spent := Bumped(counts, key, chars).0, Bumped(counts, key, chars).1;
            && chars <= spent && |counts| <= |after|
            && (Has(after, x) <==> Has(counts, x) || (Tagged(key, x) && !NoRoom(counts, chars, x)))
            && ValueAt(after, x) == ValueAt(counts, x) + if Tagged(key, x) && Has(after, x) then 1 else 0
  {
    var tag := Label(key, MAX_COUNT_KEY_CHARS);
    if tag.Some? {
      Incremented(counts, tag.value, x);
      Incremented(counts, OTHER, x);
    }
  }

  /** A label with a count of its own has the count `c`; one without has no room. */
  predicate CountFits(counts: Counts, chars: nat, x: string, c: nat) {
    && (Has(counts, x) ==> ValueAt(counts, x) == c)
    && (!Has(counts, x) && c > 0 ==> NoRoom(counts, chars, x))
  }

  function One(b: bool): nat { if b then 1 else 0 }

  lemma {:induction false} BumpedFits(counts: Counts, key: Field, chars: nat, x: string, c: nat)
    requires x != OTHER && CountFits(counts, chars, x, c)
    ensures chars <= Bumped(counts, key, chars).1
    ensures CountFits(Bumped(counts, key, chars).0, Bumped(counts, key, chars).1, x, c + One(Tagged(key, x)))
  {
    BumpedLands(counts, key, chars, x);
  }

  /** A label is passed through unchanged or folded whole: what comes out is the text
      itself if it is short enough and of plain characters, else the fold label; labels
      that come out stay as they are. */
  lemma {:induction false} LabelIs(field: Field, limit: nat)
    requires |OTHER| <= limit
    ensures match field
            case Text(text) =>
              if text == "" then Label(field, limit) == None
              else if |text| <= limit && forall c :: c in text ==>
                     'A' <= c <= 'Z' || 'a' <= c <= 'z' || '0' <= c <= '9' || c in "._<>-"
              then Label(field, limit) == Some(text)
              else Label(field, limit) == Some("<other>")
            case _ => Label(field, limit) == None
    ensures Label(field, limit).Some? ==> Label(Text(Label(field, limit).value), limit) == Label(field, limit)
  {
    assert "._<>-" == ['.', '_', '<', '>', '-'];
    if field.Text? {
      assert WellFormedLabel(field.stripped, limit) <==>
             0 < |field.stripped| <= limit && forall c :: c in field.stripped ==> LabelChar(c);
      assert forall c :: LabelChar(c) <==> 'A' <= c <= 'Z' || 'a' <= c <= 'z' || '0' <= c <= '9' || c in "._<>-";
    }
    assert forall c :: c in OTHER ==> LabelChar(c);
  }

  // ------------------------------------------------------------ one bucket

  /** What the messages of a model add up to, for one tier and one stop reason. */
  datatype Tally = Tally(messages: nat, tier: nat, stop: nat, stamps: set<int>)

  const NONE := Tally(0, 0, 0, {})

  function Stamps(stamp: Option<int>): set<int> {
    if stamp.Some? then {stamp.value} else {}
  }

  /** The bucket's span reaches exactly from the earliest of the stamps to the latest. */
  ghost predicate SpanIs(b: Bucket, stamps: set<int>) {
    && (b.started.Some? <==> stamps != {}) && (b.ended.Some? <==> stamps != {})
    && (b.started.Some? ==> b.started.value in stamps && forall s :: s in stamps ==> b.started.value <= s)
    && (b.ended.Some? ==> b.ended.value in stamps && forall s :: s in stamps ==> s <= b.ended.value)
  }

  ghost predicate BucketFits(b: Bucket, chars: nat, x: string, y: string, n: Tally) {
    && b.messages == n.messages
    && CountFits(b.tiers, chars, x, n.tier) && CountFits(b.stops, chars, y, n.stop)
    && SpanIs(b, n.stamps)
  }

  lemma {:induction false} SpannedIs(b: Bucket, stamp: Option<int>, stamps: set<int>)
    requires SpanIs(b, stamps)
    ensures SpanIs(Spanned(b, stamp), stamps + Stamps(stamp))
  {
    if stamp.Some? {
      assert stamp.value in stamps + Stamps(stamp);
    } else {
      assert stamps + Stamps(stamp) == stamps;
    }
  }

  lemma {:induction false} LaterFits(b: Bucket, chars: nat, later: nat, x: string, y: string, n: Tally)
    requires BucketFits(b, chars, x, y, n) && chars <= later
    ensures BucketFits(b, later, x, y, n)
  {
  }

  lemma {:induction false} TopFits(b: Bucket, m: Message, chars: nat, x: string, y: string, n: Tally)
    requires x != OTHER && y != OTHER && BucketFits(b, chars, x, y, n)
    ensures var (after, spent) := TopBucket(b, m, chars);
            && chars <= spent
            && BucketFits(Spanned(after, m.stamp), spent, x, y,
                          Tally(n.messages + 1, n.tier + One(Tagged(m.tier, x)), n.stop + One(Tagged(m.stop, y)), n.stamps + Stamps(m.stamp)))
  {
    BumpedFits(b.tiers, m.tier, chars, x, n.tier);
    BumpedFits(b.stops, m.stop, Bumped(b.tiers, m.tier, chars).1, y, n.stop);
    SpannedIs(TopBucket(b, m, chars).0, m.stamp, n.stamps);
  }

  // ------------------------------------------------------------ all buckets

  lemma {:induction false} OpenedSame(models: Models, key: string, name: string)
    requires !Has(models, key)
    ensures BucketAt(models + [Entry(key, FRESH)], name) == BucketAt(models, name)
  {
    FindSnoc(models, Entry(key, FRESH), name);
  }

  lemma {:induction false} FetchedSame(t: Totals, model: Field, name: string)
    ensures var t1 := WithBucket(t, model).0;
            BucketAt(t1.models, name) == BucketAt(t.models, name) && t.labelChars <= t1.labelChars
  {
    var own := NameOf(model);
    if !Has(t.models, own) {
      if |t.models| >= MAX_DISTINCT_MODELS || !Affords(t.labelChars, own) {
        if !Has(t.models, OTHER) {
          OpenedSame(t.models, OTHER, name);
        }
      } else {
        OpenedSame(t.models, own, name);
      }
    }
  }

  lemma {:induction false} PutBucket(t: Totals, i: nat, b: Bucket, name: string)
    requires At(t, i, name)
    ensures Has(Put(t, i, b).models, name) == Has(t.models, name)
    ensures BucketAt(Put(t, i, b).models, name) == if t.models[i].key == name then b else BucketAt(t.models, name)
  {
    FindSameKeys(t.models, Put(t, i, b).models, name);
  }

  /** A model with a bucket of its own has the tally `n` there; one that could still get a
      bucket has not come up. */
  ghost predicate Fits(t: Totals, name: string, x: string, y: string, n: Tally) {
    && (Has(t.models, name) ==> BucketFits(BucketAt(t.models, name), t.labelChars, x, y, n))
    && (!Has(t.models, name) && !Refused(t, name) ==> n == NONE)
  }

  lemma {:induction false} FreshFits(chars: nat, x: string, y: string)
    ensures BucketFits(FRESH, chars, x, y, NONE)
  {
  }

  /** Before a bucket is changed: it fits, once fetched. */
  lemma {:induction false} FetchedFits(t: Totals, model: Field, name: string, x: string, y: string, n: Tally)
    requires name != OTHER && Fits(t, name, x, y, n)
    ensures var t1 := WithBucket(t, model).0;
            && (Has(t1.models, name) ==> BucketFits(BucketAt(t1.models, name), t1.labelChars, x, y, n))
            && (!Has(t1.models, name) && !Refused(t1, name) ==> n == NONE)
  {
    FetchedBucket(t, model, name);
    FetchedSame(t, model, name);
    var t1 := WithBucket(t, model).0;
    if Has(t.models, name) {
      LaterFits(BucketAt(t.models, name), t.labelChars, t1.labelChars, x, y, n);
    } else if Has(t1.models, name) {
      FreshFits(t1.labelChars, x, y);
    }
  }

  lemma {:induction false} PutFits(t: Totals, i: nat, b: Bucket, chars: nat, name: string, x: string, y: string, n: Tally, after: Tally)
    requires At(t, i, name) && t.labelChars <= chars
    requires Has(t.models, name) ==> BucketFits(BucketAt(t.models, name), t.labelChars, x, y, n)
    requires !Has(t.models, name) && !Refused(t, name) ==> n == NONE
    requires t.models[i].key == name ==> BucketFits(b, chars, x, y, after)
    requires t.models[i].key != name ==> after == n || Refused(t, name)
    ensures Fits(Put(t, i, b).(labelChars := chars), name, x, y, after)
  {
    PutBucket(t, i, b, name);
    if Has(t.models, name) && t.models[i].key != name {
      LaterFits(BucketAt(t.models, name), t.labelChars, chars, x, y, n);
    }
  }

  lemma {:induction false} FetchedAt(t: Totals, model: Field, name: string)
    requires name != OTHER && NameOf(model) == name
    ensures var (t1, i) := WithBucket(t, model);
            t1.models[i].key == name || Refused(t1, name)
    ensures var (t1, i) := WithBucket(t, model); t1.models[i].key == name ==> t1.models[i].value == BucketAt(t1.models, name)
  {
    FetchedBucket(t, model, name);
  }

  function AfterSliceTally(n: Tally, hit: bool, stamp: Option<int>): Tally {
    if hit then n.(stamps := n.stamps + Stamps(stamp)) else n
  }

  lemma {:induction false} SliceFits(t: Totals, s: Slice, stamp: Option<int>, name: string, x: string, y: string, n: Tally)
    requires name != OTHER && Fits(t, name, x, y, n)
    ensures Fits(AfterSlice(t, s, stamp), name, x, y, AfterSliceTally(n, NameOf(s.model) == name, stamp))
  {
    var (t1, i) := WithBucket(t, s.model);
    var b := t1.models[i].value.(tokens := t1.models[i].value.tokens.Plus(Counted(s.counters)));
    FetchedBucket(t, s.model, name);
    FetchedFits(t, s.model, name, x, y, n);
    if NameOf(s.model) == name {
      FetchedAt(t, s.model, name);
      if t1.models[i].key == name {
        SpannedIs(b, stamp, n.stamps);
      }
    }
    var after := AfterSliceTally(n, NameOf(s.model) == name, stamp);
    PutFits(t1, i, Spanned(b, stamp), t1.labelChars, name, x, y, n, after);
    var put := Put(t1, i, Spanned(b, stamp));
    assert put.(labelChars := t1.labelChars) == put;
  }

  lemma {:induction false} SlicesFit(t: Totals, slices: seq<Slice>, stamp: Option<int>, name: string, x: string, y: string, n: Tally)
    requires name != OTHER && Fits(t, name, x, y, n)
    ensures Fits(AfterSlices(t, slices, stamp), name, x, y, AfterSliceTally(n, SliceMentions(slices, name), stamp))
  {
    if slices != [] {
      var less, s := slices[..|slices| - 1], slices[|slices| - 1];
      SlicesFit(t, less, stamp, name, x, y, n);
      var mid := AfterSliceTally(n, SliceMentions(less, name), stamp);
      SliceFits(AfterSlices(t, less, stamp), s, stamp, name, x, y, mid);
      assert n.stamps + Stamps(stamp) + Stamps(stamp) == n.stamps + Stamps(stamp);
    }
  }

  function AfterTopTally(n: Tally, m: Message, hit: bool, x: string, y: string): Tally {
    if hit then Tally(n.messages + 1, n.tier + One(Tagged(m.tier, x)), n.stop + One(Tagged(m.stop, y)), n.stamps + Stamps(m.stamp))
    else n
  }

  lemma {:induction false} TopMessageFits(t: Totals, m: Message, name: string, x: string, y: string, n: Tally)
    requires name != OTHER && x != OTHER && y != OTHER && Fits(t, name, x, y, n)
    ensures Fits(AfterTop(t, m), name, x, y, AfterTopTally(n, m, NameOf(m.model) == name, x, y))
  {
    var (t1, i) := WithBucket(t, m.model);
    var (b, chars) := TopBucket(t1.models[i].value, m, t1.labelChars);
    FetchedBucket(t, m.model, name);
    FetchedFits(t, m.model, name, x, y, n);
    BumpedLands(t1.models[i].value.tiers, m.tier, t1.labelChars, x);
    BumpedLands(t1.models[i].value.stops, m.stop, Bumped(t1.models[i].value.tiers, m.tier, t1.labelChars).1, x);
    if NameOf(m.model) == name {
      FetchedAt(t, m.model, name);
      if t1.models[i].key == name {
        TopFits(t1.models[i].value, m, t1.labelChars, x, y, n);
      }
    }
    PutFits(t1, i, Spanned(b, m.stamp), chars, name, x, y, n, AfterTopTally(n, m, NameOf(m.model) == name, x, y));
  }

  // ------------------------------------------------------------ all messages

  predicate Of(m: Message, name: string) { NameOf(m.model) == name }

  /** The message has something for the model: its own fields, or a slice. */
  predicate Touches(m: Message, name: string) { Of(m, name) || SliceMentions(Slices(m), name) }

  function Times(messages: seq<Message>, name: string): set<int> {
    set m | m in messages && Touches(m, name) && m.stamp.Some? :: m.stamp.value
  }

  function TallyOf(messages: seq<Message>, name: string, x: string, y: string): Tally {
    Tally(|Filter(messages, (m: Message) => Of(m, name))|,
          |Filter(messages, (m: Message) => Of(m, name) && Tagged(m.tier, x))|,
          |Filter(messages, (m: Message) => Of(m, name) && Tagged(m.stop, y))|,
          Times(messages, name))
  }

  lemma {:induction false} TimesSnoc(less: seq<Message>, m: Message, name: string)
    ensures Times(less + [m], name) == Times(less, name) + if Touches(m, name) then Stamps(m.stamp) else {}
  {
    assert forall x :: x in less + [m] <==> x in less || x == m;
  }

  lemma {:induction false} TallySnoc(messages: seq<Message>, name: string, x: string, y: string)
    requires messages != []
    ensures var less, m := messages[..|messages| - 1], messages[|messages| - 1];
            TallyOf(messages, name, x, y) ==
            AfterTopTally(AfterSliceTally(TallyOf(less, name, x, y), SliceMentions(Slices(m), name), m.stamp), m, Of(m, name), x, y)
  {
    var less, m := messages[..|messages| - 1], messages[|messages| - 1];
    assert messages == less + [m];
    TimesSnoc(less, m, name);
  }

  lemma {:induction false} AllFit(messages: seq<Message>, truncated: bool, name: string, x: string, y: string)
    requires name != OTHER && x != OTHER && y != OTHER
    ensures Fits(Aggregated(messages, truncated), name, x, y, TallyOf(messages, name, x, y))
  {
    if messages != [] {
      var less, m := messages[..|messages| - 1], messages[|messages| - 1];
      var t, n := Aggregated(less, truncated), TallyOf(less, name, x, y);
      AllFit(less, truncated, name, x, y);
      var t1 := t.(truncated := t.truncated || |m.iterations| > MAX_ITERATIONS);
      SlicesFit(t1, Slices(m), m.stamp, name, x, y, n);
      TopMessageFits(AfterSlices(t1, Slices(m), m.stamp), m, name, x, y, AfterSliceTally(n, SliceMentions(Slices(m), name), m.stamp));
      TallySnoc(messages, name, x, y);
    } else {
      assert Times([], name) == {};
    }
  }

  /** A model with a bucket of its own counts its messages there, each tier and stop
      reason with a count of its own as often as the messages carry it, and spans exactly
      from the earliest to the latest stamp of the messages that have something for it. A
      label without a count had no room. */
  lemma {:induction false} BucketTold(messages: seq<Message>, truncated: bool, name: string, x: string, y: string)
    requires name != OTHER && x != OTHER && y != OTHER && Has(Aggregated(messages, truncated).models, name)
    ensures var t := Aggregated(messages, truncated);
            var b := BucketAt(t.models, name);
            && b.messages == |Filter(messages, (m: Message) => Of(m, name))|
            && CountFits(b.tiers, t.labelChars, x, |Filter(messages, (m: Message) => Of(m, name) && Tagged(m.tier, x))|)
            && CountFits(b.stops, t.labelChars, y, |Filter(messages, (m: Message) => Of(m, name) && Tagged(m.stop, y))|)
            && SpanIs(b, Times(messages, name))
  {
    AllFit(messages, truncated, name, x, y);
  }
}
