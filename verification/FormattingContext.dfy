/**
 `basic_formatting_sink_frontend`: the shared formatter and locale, the version number that every
 change increments and that wraps around, and the context each feeding thread caches.
 */
module FormattingContext {
  import opened Records

  type ThreadId = nat

  // unsigned int
  const VERSIONS: nat := 0x1_0000_0000

  // What a formatter does to the stream: the text it writes, the formatting flags it leaves set,
  // and whether it ends with an exception after that.
  datatype Written = Written(text: string, flags: nat, threw: bool)

  // Given the stream's locale and flags, and the record.
  type Formatter = (nat, nat, Record) -> Written

  datatype Setup = Setup(formatter: Option<Formatter>, locale: nat)

  const INITIAL_FLAGS: nat := 0

  // Without a formatter the record's message is written.
  function Write(message: Record -> string, setup: Setup, flags: nat, rec: Record): Written {
    if setup.formatter.Some? then setup.formatter.value(setup.locale, flags, rec)
    else Written(message(rec), flags, false)
  }

  // The flags of a stream on which the records were formatted since it was fresh.
  ghost function FlagsAfter(message: Record -> string, setup: Setup, recs: seq<Record>): nat {
    if recs == [] then INITIAL_FLAGS
    else
      var before, last := recs[..|recs| - 1], recs[|recs| - 1];
      Write(message, setup, FlagsAfter(message, setup, before), last).flags
  }

  // What is written for a record on such a stream.
  ghost function WrittenAfter(message: Record -> string, setup: Setup, before: seq<Record>, rec: Record): Written {
    Write(message, setup, FlagsAfter(message, setup, before), rec)
  }

  // Only what the formatter itself leaves set is carried over, from one record to the next.
  lemma {:induction false} FlagsAreTheFormatters(message: Record -> string, setup: Setup,
                                                 recs: seq<Record>, rec: Record)
    ensures FlagsAfter(message, setup, []) == INITIAL_FLAGS
    ensures FlagsAfter(message, setup, recs + [rec]) ==
              if setup.formatter.None? then INITIAL_FLAGS
              else setup.formatter.value(setup.locale, FlagsAfter(message, setup, recs), rec).flags
    decreases |recs|
  {
    FlagsAfterOneMore(message, setup, recs, rec);
    if recs != [] {
      var k := |recs| - 1;
      assert recs == recs[..k] + [recs[k]];
      FlagsAreTheFormatters(message, setup, recs[..k], recs[k]);
    }
  }

  // The same text for the backend, or none.
  predicate SameText(a: Written, b: Written) {
    a.threw == b.threw && (!a.threw ==> a.text == b.text)
  }

  // Whether the backend was given a text, and which.
  predicate Yields(fed: bool, text: string, w: Written) {
    fed == !w.threw && (fed ==> text == w.text)
  }

  // The formatter never leaves `good` flags for others, and writes the same under all of them.
  ghost predicate Closed(message: Record -> string, setup: Setup, good: iset<nat>) {
    && INITIAL_FLAGS in good
    && (forall flags: nat, rec: Record :: flags in good ==>
          && Write(message, setup, flags, rec).flags in good
          && SameText(Write(message, setup, flags, rec), Write(message, setup, INITIAL_FLAGS, rec)))
  }

  ghost predicate Independent(message: Record -> string, setup: Setup) {
    exists good: iset<nat> :: Closed(message, setup, good)
  }

  lemma {:induction false} FlagsStayGood(message: Record -> string, setup: Setup, good: iset<nat>, recs: seq<Record>)
    requires Closed(message, setup, good)
    ensures FlagsAfter(message, setup, recs) in good
  {
    if recs == [] {
    } else {
      FlagsStayGood(message, setup, good, recs[..|recs| - 1]);
    }
  }

  lemma FlagsAfterOneMore(message: Record -> string, setup: Setup, recs: seq<Record>, rec: Record)
    ensures FlagsAfter(message, setup, recs + [rec]) == WrittenAfter(message, setup, recs, rec).flags
  {
    assert (recs + [rec])[..|recs|] == recs;
  }

  lemma IndependentOf(message: Record -> string, setup: Setup, before: seq<Record>, rec: Record)
    ensures Independent(message, setup) ==>
              SameText(WrittenAfter(message, setup, before, rec), WrittenAfter(message, setup, [], rec))
  {
    if Independent(message, setup) {
      var good: iset<nat> :| Closed(message, setup, good);
      FlagsStayGood(message, setup, good, before);
    }
  }

  lemma YieldsFresh(message: Record -> string, setup: Setup, before: seq<Record>, rec: Record, fed: bool, text: string)
    ensures Independent(message, setup) && Yields(fed, text, WrittenAfter(message, setup, before, rec)) ==>
              Yields(fed, text, WrittenAfter(message, setup, [], rec))
  {
    IndependentOf(message, setup, before, rec);
  }

  // The text of every record is independent of the records formatted before it exactly when the
  // formatter keeps to flags under which it writes what it writes on a fresh stream.
  lemma IndependentIff(message: Record -> string, setup: Setup)
    ensures (forall before, rec ::
               SameText(WrittenAfter(message, setup, before, rec), WrittenAfter(message, setup, [], rec)))
            <==> Independent(message, setup)
  {
    if Independent(message, setup) {
      forall before, rec
        ensures SameText(WrittenAfter(message, setup, before, rec), WrittenAfter(message, setup, [], rec))
      {
        IndependentOf(message, setup, before, rec);
      }
    } else if forall before, rec ::
        SameText(WrittenAfter(message, setup, before, rec), WrittenAfter(message, setup, [], rec)) {
      ReachableFlagsClosed(message, setup);
      assert false;
    }
  }

  ghost predicate Reachable(message: Record -> string, setup: Setup, flags: nat) {
    exists before :: FlagsAfter(message, setup, before) == flags
  }

  lemma ReachableFlagsClosed(message: Record -> string, setup: Setup)
    requires forall before, rec ::
               SameText(WrittenAfter(message, setup, before, rec), WrittenAfter(message, setup, [], rec))
    ensures Independent(message, setup)
  {
    var good := iset flags: nat | Reachable(message, setup, flags);
    assert FlagsAfter(message, setup, []) == INITIAL_FLAGS;
    forall flags: nat, rec: Record | flags in good
      ensures Write(message, setup, flags, rec).flags in good
      ensures SameText(Write(message, setup, flags, rec), Write(message, setup, INITIAL_FLAGS, rec))
    {
      var before :| FlagsAfter(message, setup, before) == flags;
      FlagsAfterOneMore(message, setup, before, rec);
      assert SameText(WrittenAfter(message, setup, before, rec), WrittenAfter(message, setup, [], rec));
    }
    assert Closed(message, setup, good);
  }

  // The cached state: the version it was built for, the copied setup, the string being filled, the
  // characters still in the stream buffer, the stream's error state and its flags.
  datatype Context = Context(
    version: nat, setup: Setup, storage: string, buffered: string, failed: bool, flags: nat)

  predicate Clean(c: Context) {
    c.storage == [] && c.buffered == [] && !c.failed
  }

  // How a context came about: the number of changes made before it was built and before its version was
  // last compared, and the records formatted in it.
  datatype Past = Past(builtAt: nat, checkedAt: nat, before: seq<Record>)

  // A text given to the backend, and the past of its context at that moment.
  datatype Delivery = Delivery(rec: Record, text: string, past: Past)

  // ----- What holds of contexts and deliveries under the setups there have been -----

  ghost predicate PastValid(setups: seq<Setup>, p: Past) {
    p.builtAt <= p.checkedAt < |setups| && p.builtAt % VERSIONS == p.checkedAt % VERSIONS
  }

  // A context holds the setup it was built from, and of earlier records only the flags they left.
  ghost predicate ContextValid(message: Record -> string, setups: seq<Setup>, c: Context, p: Past) {
    && PastValid(setups, p) && c.version == p.builtAt % VERSIONS && c.setup == setups[p.builtAt]
    && Clean(c) && c.flags == FlagsAfter(message, c.setup, p.before)
  }

  ghost predicate DeliveryValid(message: Record -> string, setups: seq<Setup>, d: Delivery) {
    && PastValid(setups, d.past)
    && Yields(true, d.text, WrittenAfter(message, setups[d.past.builtAt], d.past.before, d.rec))
  }

  lemma NextVersion(n: nat)
    ensures (n % VERSIONS + 1) % VERSIONS == (n + 1) % VERSIONS
  {
  }

  // The version check takes an outdated context for a current one exactly when a positive multiple
  // of 2^32 changes came in between.
  lemma OutdatedPassesIff(built: nat, checked: nat)
    requires built <= checked
    ensures (built % VERSIONS == checked % VERSIONS && built != checked)
            <==> (checked - built >= 0x1_0000_0000 && (checked - built) % 0x1_0000_0000 == 0)
  {
    assert built == built / VERSIONS * VERSIONS + built % VERSIONS;
    assert checked == checked / VERSIONS * VERSIONS + checked % VERSIONS;
  }

  // A valid context writes what its setup does after the earlier records, and stays valid.
  lemma ContextAfter(message: Record -> string, setups: seq<Setup>, c: Context, p: Past, rec: Record, after: Context)
    requires ContextValid(message, setups, c, p)
    requires after == c.(flags := Write(message, c.setup, c.flags, rec).flags)
    ensures ContextValid(message, setups, after, p.(before := p.before + [rec]))
    ensures Write(message, c.setup, c.flags, rec) == WrittenAfter(message, setups[p.builtAt], p.before, rec)
  {
    FlagsAfterOneMore(message, c.setup, p.before, rec);
  }

  lemma UpdateTwice(m: map<ThreadId, Past>, t: ThreadId, p: Past, q: Past)
    ensures m[t := p][t := q] == m[t := q]
  {
  }

  class FormattingFrontend {
    const message: Record -> string
    var version: nat
    var formatter: Option<Formatter>
    var locale: nat
    var contexts: map<ThreadId, Context>
    // History: the texts given to the backend, every setup there has been, the past of each context.
    ghost var delivered: seq<Delivery>
    ghost var setups: seq<Setup>
    ghost var past: map<ThreadId, Past>

    ghost predicate Valid()
      reads this
    {
      && 0 < |setups| && setups[|setups| - 1] == Setup(formatter, locale)
      && version == (|setups| - 1) % VERSIONS
      && contexts.Keys == past.Keys
      && (forall t :: t in contexts ==> ContextValid(message, setups, contexts[t], past[t]))
      && (forall d :: d in delivered ==> DeliveryValid(message, setups, d))
    }

    constructor (message: Record -> string, locale: nat)
      ensures Valid() && this.message == message && past == map[] && delivered == [] && setups == [Setup(None, locale)]
    {
      this.message := message;
      version, formatter, contexts := 0, None, map[];
      this.locale := locale;
      delivered, setups, past := [], [Setup(None, locale)], map[];
    }

    // The critical section that `set_formatter`, `reset_formatter` and `imbue` share.
    method Change(setup: Setup)
      requires Valid()
      modifies this`formatter, this`locale, this`version, this`setups
      ensures Valid() && setups == old(setups) + [setup]
    {
      formatter, locale := setup.formatter, setup.locale;
      version := (version + 1) % VERSIONS;
      setups := setups + [setup];
      NextVersion(|setups| - 2);
    }

    method SetFormatter(f: Formatter)
      requires Valid()
      modifies this`formatter, this`locale, this`version, this`setups
      ensures Valid() && setups == old(setups) + [Setup(Some(f), old(locale))]
    {
      Change(Setup(Some(f), locale));
    }

    method ResetFormatter()
      requires Valid()
      modifies this`formatter, this`locale, this`version, this`setups
      ensures Valid() && setups == old(setups) + [Setup(None, old(locale))]
    {
      Change(Setup(None, locale));
    }

    method Imbue(loc: nat)
      requires Valid()
      modifies this`formatter, this`locale, this`version, this`setups
      ensures Valid() && setups == old(setups) + [Setup(old(formatter), loc)]
    {
      Change(Setup(formatter, loc));
    }

    // The comparison that `feed_record` makes without the mutex.
    method IsCurrent(t: ThreadId) returns (current: bool)
      requires Valid()
      modifies this`past
      ensures current <==> t in old(past) && old(past)[t].builtAt % VERSIONS == (|setups| - 1) % VERSIONS
      ensures Valid() && past == if current then old(past)[t := old(past)[t].(checkedAt := |setups| - 1)] else old(past)
    {
      current := t in contexts && contexts[t].version == version;
      if current {
        past := past[t := past[t].(checkedAt := |setups| - 1)];
      }
    }

    // The critical section that replaces a missing or outdated context.
    method Rebuild(t: ThreadId)
      requires Valid()
      modifies this`contexts, this`past
      ensures Valid() && t in contexts && contexts == old(contexts)[t := contexts[t]]
      ensures past == old(past)[t := Past(|setups| - 1, |setups| - 1, [])]
    {
      contexts := contexts[t := Context(version, Setup(formatter, locale), [], [], false, INITIAL_FLAGS)];
      past := past[t := Past(|setups| - 1, |setups| - 1, [])];
    }

    // Formatting in a cached context, feeding, and the cleanup guards. `split` characters of what a
    // failing formatter wrote have already reached the string, the rest is in the stream buffer.
    method Format(cached: Context, rec: Record, split: nat) returns (c: Context, fed: bool, text: string)
      requires Clean(cached)
      // the record's own message, or what the copied formatter writes under the copied locale
      ensures cached.setup.formatter.None? ==> fed && text == message(rec) && c == cached
      ensures cached.setup.formatter.Some? ==>
                var w := cached.setup.formatter.value(cached.setup.locale, cached.flags, rec);
                (fed <==> !w.threw) && (fed ==> text == w.text) && c == cached.(flags := w.flags)
    {
      c := cached;
      fed, text := false, [];
      // a stream in an error state throws at the first insertion
      var w := if c.failed then Written([], c.flags, true) else Write(message, c.setup, c.flags, rec);
      if w.threw {
        var k := if split <= |w.text| then split else |w.text|;
        c := c.(storage := c.storage + w.text[..k], buffered := c.buffered + w.text[k..],
                failed := true, flags := w.flags);
      } else {
        // flush() moves the buffered characters to the string
        c := c.(storage := c.storage + c.buffered + w.text, buffered := [], flags := w.flags);
        fed, text := true, c.storage;
      }
      // the guards, in the order the scope unwinds
      c := c.(storage := []);
      c := c.(buffered := []);
      c := c.(failed := false);
    }

    method FormatAndFeed(t: ThreadId, rec: Record, split: nat) returns (fed: bool, text: string)
      requires Valid() && t in contexts
      modifies this`contexts, this`delivered, this`past
      ensures Valid()
      ensures Yields(fed, text, WrittenAfter(message, setups[old(past)[t].builtAt], old(past)[t].before, rec))
      ensures past == old(past)[t := old(past)[t].(before := old(past)[t].before + [rec])]
      ensures delivered == if fed then old(delivered) + [Delivery(rec, text, old(past)[t])] else old(delivered)
    {
      ghost var p := past[t];
      var c;
      c, fed, text := Format(contexts[t], rec, split);
      ContextAfter(message, setups, contexts[t], p, rec, c);
      Store(t, c, p.(before := p.before + [rec]));
      if fed {
        Deliver(Delivery(rec, text, p));
      }
    }

    ghost method Deliver(d: Delivery)
      requires Valid() && DeliveryValid(message, setups, d)
      modifies this`delivered
      ensures Valid() && delivered == old(delivered) + [d]
    {
      delivered := delivered + [d];
    }

    method Store(t: ThreadId, c: Context, ghost p: Past)
      requires Valid() && ContextValid(message, setups, c, p)
      modifies this`contexts, this`past
      ensures Valid() && contexts == old(contexts)[t := c] && past == old(past)[t := p]
    {
      contexts := contexts[t := c];
      past := past[t := p];
    }

    // The past of the context that `feed_record` uses: the thread's own one if it passes the version
    // check, or a new one.
    ghost function Found(t: ThreadId): Past
      reads this
      requires Valid()
    {
      if t in past && past[t].builtAt % VERSIONS == (|setups| - 1) % VERSIONS
      then past[t].(checkedAt := |setups| - 1) else Past(|setups| - 1, |setups| - 1, [])
    }

    method FindContext(t: ThreadId)
      requires Valid()
      modifies this`contexts, this`past
      ensures Valid() && past == old(past)[t := old(Found(t))]
    {
      var current := IsCurrent(t);
      if !current {
        Rebuild(t);
      }
    }

    // Fewer than 2^32 changes since this thread's context was built.
    ghost predicate InReach(t: ThreadId)
      reads this
    {
      t in past ==> |setups| - past[t].builtAt <= VERSIONS
    }

    // `feed_record` with no other thread in between: with fewer than 2^32 changes since the context was
    // built, the text is what the current setup writes for the record after those formatted in the same
    // context, and depends on the record alone if the formatter does not mind them.
    method FeedRecord(t: ThreadId, rec: Record, split: nat) returns (fed: bool, text: string)
      requires Valid()
      modifies this`contexts, this`delivered, this`past
      ensures Valid() && past == old(past)[t := old(Found(t)).(before := old(Found(t)).before + [rec])]
      ensures delivered == if fed then old(delivered) + [Delivery(rec, text, old(Found(t)))] else old(delivered)
      ensures old(InReach(t)) ==>
                Yields(fed, text, WrittenAfter(message, Setup(formatter, locale), old(Found(t)).before, rec))
      ensures old(InReach(t)) && formatter.None? ==> fed && text == message(rec)
      ensures old(InReach(t)) && formatter.Some? ==>
                var flags := FlagsAfter(message, Setup(formatter, locale), old(Found(t)).before);
                var w := formatter.value(locale, flags, rec);
                (fed <==> !w.threw) && (fed ==> text == w.text)
      ensures formatter.Some? && old(Found(t)).before == [] && old(InReach(t)) ==>
                var w := formatter.value(locale, INITIAL_FLAGS, rec);
                (fed <==> !w.threw) && (fed ==> text == w.text)
      ensures old(InReach(t)) && Independent(message, Setup(formatter, locale)) ==>
                Yields(fed, text, WrittenAfter(message, Setup(formatter, locale), [], rec))
    {
      ghost var p := Found(t);
      FoundIsCurrent(t);
      FindContext(t);
      assert past[t] == p;
      fed, text := FormatAndFeed(t, rec, split);
      UpdateTwice(old(past), t, p, p.(before := p.before + [rec]));
      YieldsFresh(message, Setup(formatter, locale), p.before, rec, fed, text);
    }

    method FeedOne(t: ThreadId, rec: Record)
      requires Valid() && t in past && past[t].builtAt == past[t].checkedAt == |setups| - 1
      modifies this`contexts, this`delivered, this`past
      ensures Valid() && t in past && past[t] == old(past)[t].(before := old(past)[t].before + [rec])
    {
      assert Found(t) == past[t];
      var fed, text := FeedRecord(t, rec, 0);
    }

    // Records fed one after the other in a context no older than the last change.
    method FeedAll(t: ThreadId, recs: seq<Record>)
      requires Valid() && t in past && past[t] == Past(|setups| - 1, |setups| - 1, [])
      modifies this`contexts, this`delivered, this`past
      ensures Valid() && t in past && past[t] == Past(|setups| - 1, |setups| - 1, recs)
    {
      for i := 0 to |recs|
        invariant Valid() && t in past && past[t].builtAt == past[t].checkedAt == |setups| - 1
        invariant past[t].before == recs[..i]
      {
        FeedOne(t, recs[i]);
      }
    }

    lemma FoundIsCurrent(t: ThreadId)
      requires Valid()
      ensures PastValid(setups, Found(t))
      ensures InReach(t) ==> setups[Found(t).builtAt] == Setup(formatter, locale)
    {
      if t in past {
        assert ContextValid(message, setups, contexts[t], past[t]);
        OutdatedPassesIff(past[t].builtAt, |setups| - 1);
      }
    }

    // In every reachable state: a text delivered with fewer than 2^32 changes between the building of
    // its context and the check is what the setup current at the check writes for the record after those
    // formatted in the same context; so nothing of them is in it exactly as `IndependentIff` says.
    lemma DeliveredIsCurrent(k: nat)
      requires Valid() && k < |delivered|
      requires delivered[k].past.checkedAt - delivered[k].past.builtAt < VERSIONS
      ensures var d := delivered[k];
        && d.past.checkedAt < |setups|
        && (var setup := setups[d.past.checkedAt];
            && (setup.formatter.None? ==> d.text == message(d.rec))
            && (setup.formatter.Some? ==>
                  var w := setup.formatter.value(setup.locale, FlagsAfter(message, setup, d.past.before), d.rec);
                  !w.threw && d.text == w.text)
            && (Independent(message, setup) ==> Yields(true, d.text, WrittenAfter(message, setup, [], d.rec))))
    {
      var d := delivered[k];
      assert DeliveryValid(message, setups, d);
      OutdatedPassesIff(d.past.builtAt, d.past.checkedAt);
      YieldsFresh(message, setups[d.past.checkedAt], d.past.before, d.rec, true, d.text);
    }
  }

  // A frontend with the given setup, in which the thread has a new context.
  method SetUp(message: Record -> string, setup: Setup, t: ThreadId) returns (f: FormattingFrontend)
    ensures fresh(f) && f.Valid() && f.message == message && Setup(f.formatter, f.locale) == setup
    ensures |f.setups| <= 2 && t in f.past && f.past[t] == Past(|f.setups| - 1, |f.setups| - 1, [])
  {
    f := new FormattingFrontend(message, setup.locale);
    if setup.formatter.Some? {
      f.SetFormatter(setup.formatter.value);
    }
    f.FindContext(t);
  }

  // One thread feeds any records through a frontend set up in any way: the last one comes out as it is
  // written after the others. So every dependence that `IndependentIff` is about shows in the output.
  method EarlierRecordsShow(message: Record -> string, setup: Setup, t: ThreadId, before: seq<Record>, rec: Record)
      returns (fed: bool, text: string)
    ensures Yields(fed, text, WrittenAfter(message, setup, before, rec))
  {
    var f := SetUp(message, setup, t);
    f.FeedAll(t, before);
    assert f.Found(t) == f.past[t];
    fed, text := f.FeedRecord(t, rec, 0);
  }

  // Writes "a" on a fresh stream and leaves a flag set, writes "b" when it finds one set.
  function Sticky(locale: nat, flags: nat, rec: Record): Written {
    if flags == INITIAL_FLAGS then Written("a", 1, false) else Written("b", flags, false)
  }

  // The cleanup resets the stream's error state only: with a formatter that leaves flags set, the
  // same record fed twice by one thread comes out differently.
  method FlagsCarryOver(message: Record -> string, t: ThreadId, rec: Record) returns (first: string, second: string)
    ensures first == "a" && second == "b"
  {
    var fed;
    fed, first := EarlierRecordsShow(message, Setup(Some(Sticky), 0), t, [], rec);
    assert [rec][..0] == [];
    fed, second := EarlierRecordsShow(message, Setup(Some(Sticky), 0), t, [rec], rec);
  }
}
