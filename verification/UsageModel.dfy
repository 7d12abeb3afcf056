/** Cost aggregation of a session transcript: what one message contributes, and how
    labels are folded so that the payload stays bounded while totals are kept. */
module UsageModel {
  import opened Collections

  const MAX_LINES := 500000
  const MAX_MODELS := 50
  const MAX_DISTINCT_MODELS := 49
  const MAX_COUNT_KEYS := 20
  const MAX_DISTINCT_COUNT_KEYS := 19
  const MAX_TOKEN_VALUE := 9007199254740992
  const MAX_MODEL_CHARS := 48
  const MAX_COUNT_KEY_CHARS := 32
  const MAX_LABEL_CHARS := 256
  const MAX_ITERATIONS := 16
  const OTHER := "<other>"
  const UNKNOWN := "unknown"

  // ------------------------------------------------------------ inputs

  /** A usage field as decoded JSON; booleans and non-numbers are `NotNumber`. */
  datatype Number = NotNumber | Integer(n: int) | Float(finite: bool, truncated: int)

  /** A label field: falsy, not a string, or a string after stripping. */
  datatype Field = Falsy | NonText | Text(stripped: string)

  datatype Counters = Counters(input: Number, output: Number, cacheRead: Number, create1h: Number, create5m: Number)

  datatype Slice = Slice(model: Field, counters: Counters)

  /** An assistant record with a usage object and a message id. Entries of
      `iterations` that are not objects are `None`. */
  datatype Message = Message(
    id: string,
    model: Field,
    top: Counters,
    iterations: seq<Option<Slice>>,
    thinking: Number,
    webSearch: Number,
    webFetch: Number,
    tier: Field,
    stop: Field,
    stamp: Option<int>)

  // ------------------------------------------------------------ values

  /** Every abnormal value counts as 0, and so does one past the server's bound. */
  function Count(v: Number): (n: nat)
    ensures n <= MAX_TOKEN_VALUE
    ensures n > 0 ==> v == Integer(n) || v == Float(true, n)
    ensures v.Integer? && 0 <= v.n <= MAX_TOKEN_VALUE ==> n == v.n
    ensures v.Float? && v.finite && 0 <= v.truncated <= MAX_TOKEN_VALUE ==> n == v.truncated
  {
    var number := match v
      case NotNumber => 0
      case Integer(n) => n
      case Float(finite, truncated) => if finite then truncated else 0;
    if number <= 0 || number > MAX_TOKEN_VALUE then 0 else number
  }

  predicate LabelChar(c: char) {
    'A' <= c <= 'Z' || 'a' <= c <= 'z' || '0' <= c <= '9' || c in {'.', '_', '<', '>', '-'}
  }

  predicate WellFormedLabel(text: string, limit: nat) {
    0 < |text| <= limit && forall c :: c in text ==> LabelChar(c)
  }

  /** A label is passed through unchanged or folded whole, never cut. */
  function Label(value: Field, limit: nat): Option<string> {
    if !value.Text? || value.stripped == "" then None
    else if WellFormedLabel(value.stripped, limit) then Some(value.stripped)
    else Some(OTHER)
  }

  /** Dictionaries keep insertion order. */
  datatype Entry<+V> = Entry(key: string, value: V)

  type Counts = seq<Entry<nat>>

  function Find<V>(entries: seq<Entry<V>>, key: string): (i: nat)
    ensures i <= |entries|
    ensures i < |entries| ==> entries[i].key == key
    ensures forall j :: 0 <= j < i ==> entries[j].key != key
  {
    if entries == [] then 0
    else
      var i := Find(entries[..|entries| - 1], key);
      if i < |entries| - 1 then i
      else if entries[|entries| - 1].key == key then |entries| - 1
      else |entries|
  }

  predicate Has<V>(entries: seq<Entry<V>>, key: string) {
    Find(entries, key) < |entries|
  }

  datatype Tokens = Tokens(
    input: nat, output: nat, cacheRead: nat, create1h: nat, create5m: nat,
    thinking: nat, webSearch: nat, webFetch: nat)
  {
    function Plus(t: Tokens): Tokens {
      Tokens(input + t.input, output + t.output, cacheRead + t.cacheRead, create1h + t.create1h, create5m + t.create5m,
             thinking + t.thinking, webSearch + t.webSearch, webFetch + t.webFetch)
    }

    /** The token kinds the payload is ordered by. */
    function Weight(): nat {
      input + output + cacheRead + create1h + create5m
    }
  }

  const NOTHING := Tokens(0, 0, 0, 0, 0, 0, 0, 0)

  datatype Bucket = Bucket(tokens: Tokens, messages: nat, tiers: Counts, stops: Counts, started: Option<int>, ended: Option<int>)

  const FRESH := Bucket(NOTHING, 0, [], [], None, None)

  type Models = seq<Entry<Bucket>>

  datatype Totals = Totals(models: Models, labelChars: nat, truncated: bool)

  // ------------------------------------------------------------ one message

  function Counted(c: Counters): Tokens {
    Tokens(Count(c.input), Count(c.output), Count(c.cacheRead), Count(c.create1h), Count(c.create5m), 0, 0, 0)
  }

  function Extras(m: Message): Tokens {
    Tokens(0, 0, 0, 0, 0, Count(m.thinking), Count(m.webSearch), Count(m.webFetch))
  }

  function Objects(iterations: seq<Option<Slice>>, top: Field): seq<Slice> {
    if iterations == [] then []
    else
      var it := iterations[|iterations| - 1];
      Objects(iterations[..|iterations| - 1], top) +
      if it.None? then [] else [it.value.(model := if it.value.model.Falsy? then top else it.value.model)]
  }

  function Capped(iterations: seq<Option<Slice>>): seq<Option<Slice>> {
    if |iterations| > MAX_ITERATIONS then iterations[..MAX_ITERATIONS] else iterations
  }

  /** The pieces a message's token counters are read from. */
  function Slices(m: Message): (slices: seq<Slice>)
    ensures slices != []
  {
    var objects := Objects(Capped(m.iterations), m.model);
    if objects != [] then objects else [Slice(m.model, m.top)]
  }

  function SumSlices(slices: seq<Slice>): Tokens {
    if slices == [] then NOTHING
    else SumSlices(slices[..|slices| - 1]).Plus(Counted(slices[|slices| - 1].counters))
  }

  /** Everything one message adds to the totals. */
  function Contribution(m: Message): Tokens {
    SumSlices(Slices(m)).Plus(Extras(m))
  }

  // ------------------------------------------------------------ folding labels

  /** New labels draw on one budget for the whole payload. */
  predicate Affords(chars: nat, tag: string) {
    chars + |tag| <= MAX_LABEL_CHARS
  }

  function Increment(counts: Counts, key: string): Counts {
    var i := Find(counts, key);
    if i < |counts| then counts[i := Entry(key, counts[i].value + 1)] else counts + [Entry(key, 1)]
  }

  function Bumped(counts: Counts, key: Field, chars: nat): (Counts, nat) {
    var tag := Label(key, MAX_COUNT_KEY_CHARS);
    if tag.None? then (counts, chars)
    else if Has(counts, tag.value) then (Increment(counts, tag.value), chars)
    else if |counts| >= MAX_DISTINCT_COUNT_KEYS || !Affords(chars, tag.value) then (Increment(counts, OTHER), chars)
    else (Increment(counts, tag.value), chars + |tag.value|)
  }

  /** The bucket a model's numbers go to, inserted if it is new. */
  function WithBucket(t: Totals, model: Field): (r: (Totals, nat))
    ensures r.1 < |r.0.models|
  {
    var tag := Label(model, MAX_MODEL_CHARS);
    var name := if tag.Some? then tag.value else UNKNOWN;
    if Has(t.models, name) then (t, Find(t.models, name))
    else if |t.models| >= MAX_DISTINCT_MODELS || !Affords(t.labelChars, name) then
      var i := Find(t.models, OTHER);
      if i < |t.models| then (t, i) else (t.(models := t.models + [Entry(OTHER, FRESH)]), |t.models|)
    else
      (t.(models := t.models + [Entry(name, FRESH)], labelChars := t.labelChars + |name|), |t.models|)
  }

  function Spanned(b: Bucket, stamp: Option<int>): Bucket {
    if stamp.None? then b
    else
      b.(started := if b.started.None? || stamp.value < b.started.value then stamp else b.started,
         ended := if b.ended.None? || stamp.value > b.ended.value then stamp else b.ended)
  }

  function Put(t: Totals, i: nat, b: Bucket): Totals
    requires i < |t.models|
  {
    t.(models := t.models[i := Entry(t.models[i].key, b)])
  }

  function AfterSlice(t: Totals, s: Slice, stamp: Option<int>): Totals {
    var (t1, i) := WithBucket(t, s.model);
    var b := t1.models[i].value;
    Put(t1, i, Spanned(b.(tokens := b.tokens.Plus(Counted(s.counters))), stamp))
  }

  function AfterSlices(t: Totals, slices: seq<Slice>, stamp: Option<int>): Totals {
    if slices == [] then t
    else AfterSlice(AfterSlices(t, slices[..|slices| - 1], stamp), slices[|slices| - 1], stamp)
  }

  /** A bucket and the label budget after a message's own fields. */
  function TopBucket(b: Bucket, m: Message, chars: nat): (Bucket, nat) {
    var (tiers, chars1) := Bumped(b.tiers, m.tier, chars);
    var (stops, chars2) := Bumped(b.stops, m.stop, chars1);
    (b.(tokens := b.tokens.Plus(Extras(m)), tiers := tiers, stops := stops, messages := b.messages + 1), chars2)
  }

  /** What an iteration does not carry goes to the message's own model. */
  function AfterTop(t: Totals, m: Message): Totals {
    var (t1, i) := WithBucket(t, m.model);
    var (b, chars) := TopBucket(t1.models[i].value, m, t1.labelChars);
    Put(t1, i, Spanned(b, m.stamp)).(labelChars := chars)
  }

  function AfterMessage(t: Totals, m: Message): Totals {
    var t1 := t.(truncated := t.truncated || |m.iterations| > MAX_ITERATIONS);
    AfterTop(AfterSlices(t1, Slices(m), m.stamp), m)
  }

  // ------------------------------------------------------------ all lines

  function Seen(messages: seq<Message>): set<string> {
    set m | m in messages :: m.id
  }

  /** The messages of the lines, each id only where it first appears. */
  function FirstMessages(lines: seq<string>, parse: string -> Option<Message>): seq<Message> {
    if lines == [] then []
    else
      var earlier := FirstMessages(lines[..|lines| - 1], parse);
      var m := parse(lines[|lines| - 1]);
      if m.None? || m.value.id in Seen(earlier) then earlier else earlier + [m.value]
  }

  function Aggregated(messages: seq<Message>, truncated: bool): Totals {
    if messages == [] then Totals([], 0, truncated)
    else AfterMessage(Aggregated(messages[..|messages| - 1], truncated), messages[|messages| - 1])
  }

  function Within(lines: seq<string>): (r: seq<string>)
    ensures r <= lines && |r| == Min(|lines|, MAX_LINES)
  {
    if |lines| > MAX_LINES then lines[..MAX_LINES] else lines
  }
}
