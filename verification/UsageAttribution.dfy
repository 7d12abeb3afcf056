/** Which model a token ends up under: a model that has a bucket of its own holds
    exactly the tokens labelled with it, and a model once folded stays folded. */
module UsageAttribution {
  import opened Collections
  import opened UsageModel

  function NameOf(model: Field): string {
    var tag := Label(model, MAX_MODEL_CHARS);
    if tag.Some? then tag.value else UNKNOWN
  }

  function TokensOf(models: Models, name: string): Tokens {
    if Has(models, name) then models[Find(models, name)].value.tokens else NOTHING
  }

  /** No room is left for a new bucket of this name. */
  predicate Refused(t: Totals, name: string) {
    !Has(t.models, name) && (|t.models| >= MAX_DISTINCT_MODELS || !Affords(t.labelChars, name))
  }

  // ------------------------------------------------------------ what is labelled with a name

  /** The tokens under a name, counting on from `own`: slices labelled so, and what no
      slice carries under the message's own model. */
  function WithSlices(own: Tokens, slices: seq<Slice>, name: string): Tokens {
    if slices == [] then own
    else
      var front, s := WithSlices(own, slices[..|slices| - 1], name), slices[|slices| - 1];
      if NameOf(s.model) == name then front.Plus(Counted(s.counters)) else front
  }

  function WithMessage(own: Tokens, m: Message, name: string): Tokens {
    var slices := WithSlices(own, Slices(m), name);
    if NameOf(m.model) == name then slices.Plus(Extras(m)) else slices
  }

  function Share(messages: seq<Message>, name: string): Tokens {
    if messages == [] then NOTHING
    else WithMessage(Share(messages[..|messages| - 1], name), messages[|messages| - 1], name)
  }

  // ------------------------------------------------------------ looking up

  lemma {:induction false} FindSnoc<V>(entries: seq<Entry<V>>, e: Entry<V>, key: string)
    ensures Find(entries + [e], key) ==
            if Has(entries, key) then Find(entries, key) else if e.key == key then |entries| else |entries| + 1
  {
    assert (entries + [e])[..|entries|] == entries;
  }

  lemma {:induction false} FindSameKeys<V>(a: seq<Entry<V>>, b: seq<Entry<V>>, key: string)
    requires |a| == |b| && forall i :: 0 <= i < |a| ==> a[i].key == b[i].key
    ensures Find(a, key) == Find(b, key)
  {
    if a != [] {
      FindSameKeys(a[..|a| - 1], b[..|b| - 1], key);
    }
  }

  /** The bucket index found by key is the only one that matters for that key. */
  ghost predicate At(t: Totals, i: nat, name: string) {
    i < |t.models| && (t.models[i].key == name ==> i == Find(t.models, name))
  }

  lemma {:induction false} PutTokens(t: Totals, i: nat, b: Bucket, name: string)
    requires At(t, i, name)
    ensures Has(Put(t, i, b).models, name) == Has(t.models, name)
    ensures TokensOf(Put(t, i, b).models, name) == if t.models[i].key == name then b.tokens else TokensOf(t.models, name)
  {
    FindSameKeys(t.models, Put(t, i, b).models, name);
  }

  /** Fetching a bucket for one model never disturbs another's, and a name gets its own
      bucket unless it is refused. */
  lemma {:induction false} FetchedBucket(t: Totals, model: Field, name: string)
    requires name != OTHER
    ensures var (t1, i) := WithBucket(t, model);
            && TokensOf(t1.models, name) == TokensOf(t.models, name)
            && At(t1, i, name)
            && (t1.models[i].key == name ==> NameOf(model) == name)
            && (NameOf(model) == name ==> if Refused(t, name) then t1.models[i].key == OTHER else t1.models[i].key == name)
            && (NameOf(model) != name ==> Has(t1.models, name) == Has(t.models, name))
            && (Has(t.models, name) ==> Has(t1.models, name))
            && (Refused(t, name) ==> Refused(t1, name))
  {
    var own := NameOf(model);
    FindSnoc(t.models, Entry(own, FRESH), name);
    FindSnoc(t.models, Entry(OTHER, FRESH), name);
    FindSnoc(t.models, Entry(own, FRESH), own);
  }

  // ------------------------------------------------------------ the running account

  /** `own` is the share of `name` so far; once a mentioned name has no bucket it is
      refused, and it never gets one. */
  ghost predicate Accounts(t: Totals, name: string, own: Tokens, mentioned: bool) {
    && (Has(t.models, name) ==> mentioned && TokensOf(t.models, name) == own)
    && (mentioned && !Has(t.models, name) ==> Refused(t, name))
    && (!mentioned ==> own == NOTHING)
  }

  lemma {:induction false} NothingPlus(t: Tokens)
    ensures NOTHING.Plus(t) == t && t.Plus(NOTHING) == t
  {
  }

  /** Adding tokens to the bucket fetched for a model. */
  lemma {:induction false} AddedTokens(t: Totals, model: Field, gain: Tokens, b: Bucket, chars: nat, name: string, own: Tokens, mentioned: bool)
    requires name != OTHER && Accounts(t, name, own, mentioned)
    requires var (t1, i) := WithBucket(t, model);
             b.tokens == t1.models[i].value.tokens.Plus(gain) && chars >= t1.labelChars
    ensures var (t1, i) := WithBucket(t, model);
            var hit := NameOf(model) == name;
            && Accounts(Put(t1, i, b).(labelChars := chars), name, if hit then own.Plus(gain) else own, mentioned || hit)
            && (Has(t.models, name) ==> Has(Put(t1, i, b).models, name))
  {
    var (t1, i) := WithBucket(t, model);
    FetchedBucket(t, model, name);
    PutTokens(t1, i, b, name);
    NothingPlus(gain);
    var after := Put(t1, i, b).(labelChars := chars);
    assert |after.models| == |t1.models|;
  }

  lemma {:induction false} SliceAccounts(t: Totals, s: Slice, stamp: Option<int>, name: string, own: Tokens, mentioned: bool)
    requires name != OTHER && Accounts(t, name, own, mentioned)
    ensures var hit := NameOf(s.model) == name;
            && Accounts(AfterSlice(t, s, stamp), name, if hit then own.Plus(Counted(s.counters)) else own, mentioned || hit)
            && (Has(t.models, name) ==> Has(AfterSlice(t, s, stamp).models, name))
  {
    var (t1, i) := WithBucket(t, s.model);
    var b := t1.models[i].value;
    AddedTokens(t, s.model, Counted(s.counters), Spanned(b.(tokens := b.tokens.Plus(Counted(s.counters))), stamp), t1.labelChars, name, own, mentioned);
  }

  predicate SliceMentions(slices: seq<Slice>, name: string) {
    if slices == [] then false
    else SliceMentions(slices[..|slices| - 1], name) || NameOf(slices[|slices| - 1].model) == name
  }

  lemma {:induction false} SlicesAccount(t: Totals, slices: seq<Slice>, stamp: Option<int>, name: string, own: Tokens, mentioned: bool)
    requires name != OTHER && Accounts(t, name, own, mentioned)
    ensures Accounts(AfterSlices(t, slices, stamp), name, WithSlices(own, slices, name), mentioned || SliceMentions(slices, name))
    ensures Has(t.models, name) ==> Has(AfterSlices(t, slices, stamp).models, name)
  {
    if slices != [] {
      var less, s := slices[..|slices| - 1], slices[|slices| - 1];
      SlicesAccount(t, less, stamp, name, own, mentioned);
      SliceAccounts(AfterSlices(t, less, stamp), s, stamp, name, WithSlices(own, less, name), mentioned || SliceMentions(less, name));
    }
  }

  lemma {:induction false} TopAccounts(t: Totals, m: Message, name: string, own: Tokens, mentioned: bool)
    requires name != OTHER && Accounts(t, name, own, mentioned)
    ensures var hit := NameOf(m.model) == name;
            && Accounts(AfterTop(t, m), name, if hit then own.Plus(Extras(m)) else own, mentioned || hit)
            && (Has(t.models, name) ==> Has(AfterTop(t, m).models, name))
  {
    var (t1, i) := WithBucket(t, m.model);
    var (b, chars) := TopBucket(t1.models[i].value, m, t1.labelChars);
    AddedTokens(t, m.model, Extras(m), Spanned(b, m.stamp), chars, name, own, mentioned);
  }

  lemma {:induction false} MessageAccounts(t: Totals, m: Message, name: string, own: Tokens, mentioned: bool)
    requires name != OTHER && Accounts(t, name, own, mentioned)
    ensures Accounts(AfterMessage(t, m), name, WithMessage(own, m, name),
                     mentioned || SliceMentions(Slices(m), name) || NameOf(m.model) == name)
    ensures Has(t.models, name) ==> Has(AfterMessage(t, m).models, name)
  {
    var t1 := t.(truncated := t.truncated || |m.iterations| > MAX_ITERATIONS);
    SlicesAccount(t1, Slices(m), m.stamp, name, own, mentioned);
    TopAccounts(AfterSlices(t1, Slices(m), m.stamp), m, name, WithSlices(own, Slices(m), name), mentioned || SliceMentions(Slices(m), name));
  }

  predicate Mentions(messages: seq<Message>, name: string) {
    if messages == [] then false
    else
      var m := messages[|messages| - 1];
      Mentions(messages[..|messages| - 1], name) || SliceMentions(Slices(m), name) || NameOf(m.model) == name
  }

  lemma {:induction false} AllAccount(messages: seq<Message>, truncated: bool, name: string)
    requires name != OTHER
    ensures Accounts(Aggregated(messages, truncated), name, Share(messages, name), Mentions(messages, name))
  {
    if messages != [] {
      var less, m := messages[..|messages| - 1], messages[|messages| - 1];
      AllAccount(less, truncated, name);
      MessageAccounts(Aggregated(less, truncated), m, name, Share(less, name), Mentions(less, name));
    }
  }

  /** A bucket once opened stays. */
  lemma {:induction false} BucketStays(messages: seq<Message>, truncated: bool, name: string, k: nat)
    requires name != OTHER && k <= |messages| && Has(Aggregated(messages[..k], truncated).models, name)
    ensures Has(Aggregated(messages, truncated).models, name)
  {
    if k == |messages| {
      assert messages[..k] == messages;
    } else {
      var less, m := messages[..|messages| - 1], messages[|messages| - 1];
      assert less[..k] == messages[..k];
      BucketStays(less, truncated, name, k);
      AllAccount(less, truncated, name);
      MessageAccounts(Aggregated(less, truncated), m, name, Share(less, name), Mentions(less, name));
    }
  }

  /** A model with a bucket of its own holds exactly the tokens labelled with it; a model
      without one was, if it was mentioned at all, refused from the first message that
      mentions it on. */
  lemma {:induction false} Attributed(messages: seq<Message>, truncated: bool, name: string)
    requires name != OTHER
    ensures var t := Aggregated(messages, truncated);
            && (Has(t.models, name) ==> Mentions(messages, name) && TokensOf(t.models, name) == Share(messages, name))
            && (!Has(t.models, name) ==> forall k :: 0 <= k <= |messages| && Mentions(messages[..k], name) ==>
                  Refused(Aggregated(messages[..k], truncated), name))
  {
    AllAccount(messages, truncated, name);
    if !Has(Aggregated(messages, truncated).models, name) {
      forall k | 0 <= k <= |messages| && Mentions(messages[..k], name) ensures Refused(Aggregated(messages[..k], truncated), name) {
        AllAccount(messages[..k], truncated, name);
        if Has(Aggregated(messages[..k], truncated).models, name) {
          BucketStays(messages, truncated, name, k);
        }
      }
    }
  }
}
