/** The decoder proper (decoder.go): the root tag table, what a context does when
    it closes, delivering one line to the stack of contexts, and decoding a whole
    run of lines. */
module Decoding {
  import opened Strings
  import opened SortDate
  import opened Records
  import opened Contexts
  import opened Engine
  import opened Tags
  import opened HeaderTables
  import opened PeopleTables
  import opened SourceTables

  // ---------------------------------------------------------------------------
  // The root table (makeRootParser)

  /** The level-0 records kept in the lists of the file, each looked up by its
      xref and opened. */
  predicate IsListedRecord(t: Tag)
  {
    t.INDI? || t.SUBM? || t.FAM? || t.SOUR? || t.NOTE? || t.OBJE? || t.REPO?
  }

  /** What the root table does with one line: nothing unless the line is at level 0. */
  twostate predicate RootParsed(d: Decoder, g: Gedcom, line: Line, base: seq<Context> := old(d.parsers))
    reads d, g
  {
    if line.level != 0 || line.tag.TRLR? then g.fields == old(g.fields) && Kept(d, base)
    else if line.tag.HEAD? then g.fields == old(g.fields) && Opened(d, HeaderTable(g.header), 0, base)
    else if line.tag.SUBN? then
      && g.fields.submission != null && g.fields == old(g.fields).(submission := g.fields.submission)
      && Resolves(old(d.refs), d.refs, line.xref, SubmissionRef(g.fields.submission))
      && Pushed(d, SubmissionTable(g.fields.submission), 0, base)
    else if line.tag.INDI? || line.tag.SUBM? || line.tag.FAM? then PersonListed(d, g, line, base)
    else if line.tag.SOUR? || line.tag.NOTE? || line.tag.OBJE? || line.tag.REPO? then SourceListed(d, g, line, base)
    else g.fields == old(g.fields) && Skipped(d, line, base)
  }

  /** INDI, SUBM and FAM: the record for the line's xref is appended to its list and
      opened at level 0. */
  twostate predicate PersonListed(d: Decoder, g: Gedcom, line: Line, base: seq<Context> := old(d.parsers))
    reads d, g
  {
    if line.tag.INDI? then
      && g.fields.individual != [] && g.fields == old(g.fields).(individual := old(g.fields.individual) + [Last(g.fields.individual)])
      && Resolves(old(d.refs), d.refs, line.xref, IndividualRef(Last(g.fields.individual)))
      && Pushed(d, IndividualTable(Last(g.fields.individual)), 0, base)
    else if line.tag.SUBM? then
      && g.fields.submitter != [] && g.fields == old(g.fields).(submitter := old(g.fields.submitter) + [Last(g.fields.submitter)])
      && Resolves(old(d.refs), d.refs, line.xref, SubmitterRef(Last(g.fields.submitter)))
      && Pushed(d, SubmitterTable(Last(g.fields.submitter)), 0, base)
    else
      && g.fields.family != [] && g.fields == old(g.fields).(family := old(g.fields.family) + [Last(g.fields.family)])
      && Resolves(old(d.refs), d.refs, line.xref, FamilyRef(Last(g.fields.family)))
      && Pushed(d, FamilyTable(Last(g.fields.family)), 0, base)
  }

  /** SOUR, NOTE, OBJE and REPO, likewise. */
  twostate predicate SourceListed(d: Decoder, g: Gedcom, line: Line, base: seq<Context> := old(d.parsers))
    reads d, g
  {
    if line.tag.SOUR? then
      && g.fields.source != [] && g.fields == old(g.fields).(source := old(g.fields.source) + [Last(g.fields.source)])
      && Resolves(old(d.refs), d.refs, line.xref, SourceRef(Last(g.fields.source)))
      && Pushed(d, SourceTable(Last(g.fields.source)), 0, base)
    else if line.tag.NOTE? then
      && g.fields.note != [] && g.fields == old(g.fields).(note := old(g.fields.note) + [Last(g.fields.note)])
      && Resolves(old(d.refs), d.refs, line.xref, NoteRef(Last(g.fields.note)))
      && Pushed(d, NoteTable(Last(g.fields.note)), 0, base)
    else if line.tag.OBJE? then
      && g.fields.objects != [] && g.fields == old(g.fields).(objects := old(g.fields.objects) + [Last(g.fields.objects)])
      && Resolves(old(d.refs), d.refs, line.xref, ObjectRef(Last(g.fields.objects)))
      && Pushed(d, ObjectTable(Last(g.fields.objects)), 0, base)
    else
      && g.fields.repository != [] && g.fields == old(g.fields).(repository := old(g.fields.repository) + [Last(g.fields.repository)])
      && Resolves(old(d.refs), d.refs, line.xref, RepositoryRef(Last(g.fields.repository)))
      && Pushed(d, RepositoryTable(Last(g.fields.repository)), 0, base)
  }

  method ParseRoot(d: Decoder, g: Gedcom, line: Line)
    modifies d, g
    ensures RootParsed(d, g, line)
    ensures Step(d, line)
  {
    if line.level != 0 || line.tag.TRLR? {
      return;
    }
    if line.tag.HEAD? {
      d.OpenChild(HeaderTable(g.header), line);
    } else if line.tag.SUBN? {
      var r := d.Submission(line.xref);
      g.fields := g.fields.(submission := r);
      d.OpenChild(SubmissionTable(r), line);
    } else if line.tag.INDI? || line.tag.SUBM? || line.tag.FAM? {
      ListPerson(d, g, line);
    } else if line.tag.SOUR? || line.tag.NOTE? || line.tag.OBJE? || line.tag.REPO? {
      ListSource(d, g, line);
    } else {
      d.Unrecognized(line);
    }
  }

  method ListPerson(d: Decoder, g: Gedcom, line: Line)
    requires line.level == 0 && (line.tag.INDI? || line.tag.SUBM? || line.tag.FAM?)
    modifies d, g
    ensures PersonListed(d, g, line)
    ensures Step(d, line)
  {
    if line.tag.INDI? {
      var r := d.Individual(line.xref);
      g.fields := g.fields.(individual := g.fields.individual + [r]);
      d.OpenChild(IndividualTable(r), line);
    } else if line.tag.SUBM? {
      var r := d.Submitter(line.xref);
      g.fields := g.fields.(submitter := g.fields.submitter + [r]);
      d.OpenChild(SubmitterTable(r), line);
    } else {
      var r := d.Family(line.xref);
      g.fields := g.fields.(family := g.fields.family + [r]);
      d.OpenChild(FamilyTable(r), line);
    }
  }

  method ListSource(d: Decoder, g: Gedcom, line: Line)
    requires line.level == 0 && (line.tag.SOUR? || line.tag.NOTE? || line.tag.OBJE? || line.tag.REPO?)
    modifies d, g
    ensures SourceListed(d, g, line)
    ensures Step(d, line)
  {
    if line.tag.SOUR? {
      var r := d.Source(line.xref);
      g.fields := g.fields.(source := g.fields.source + [r]);
      d.OpenChild(SourceTable(r), line);
    } else if line.tag.NOTE? {
      var r := d.Note(line.xref);
      g.fields := g.fields.(note := g.fields.note + [r]);
      d.OpenChild(NoteTable(r), line);
    } else if line.tag.OBJE? {
      var r := d.Object(line.xref);
      g.fields := g.fields.(objects := g.fields.objects + [r]);
      d.OpenChild(ObjectTable(r), line);
    } else {
      var r := d.Repository(line.xref);
      g.fields := g.fields.(repository := g.fields.repository + [r]);
      d.OpenChild(RepositoryTable(r), line);
    }
  }

  // ---------------------------------------------------------------------------
  // Sorting events by date (the close action of families and individuals)

  /** An event with the sort key it has when the list is sorted. */
  datatype KeyedEvent = KeyedEvent(key: Instant, event: EventRecord)

  /** The events of a list paired with their current sort keys, in order. */
  function WithKeys(es: seq<EventRecord>): (ks: seq<KeyedEvent>)
    reads (set e | e in es)`fields
    ensures |ks| == |es|
    ensures forall k | 0 <= k < |es| :: ks[k] == KeyedEvent(es[k].fields.sortDate, es[k])
  {
    if es == [] then [] else [KeyedEvent(es[0].fields.sortDate, es[0])] + WithKeys(es[1..])
  }

  function EventsOf(ks: seq<KeyedEvent>): (es: seq<EventRecord>)
    ensures |es| == |ks| && forall k | 0 <= k < |ks| :: es[k] == ks[k].event
  {
    if ks == [] then [] else [ks[0].event] + EventsOf(ks[1..])
  }

  predicate KeysSorted(ks: seq<KeyedEvent>)
  {
    forall i, j | 0 <= i < j < |ks| :: ks[i].key <= ks[j].key
  }

  /** Insertion of one keyed event before the first entry with a key at least as
      large. */
  function InsertByKey(k: KeyedEvent, ks: seq<KeyedEvent>): seq<KeyedEvent>
  {
    if ks == [] || k.key <= ks[0].key then [k] + ks else [ks[0]] + InsertByKey(k, ks[1..])
  }

  /** Insertion sort on the keys. */
  function SortByKey(ks: seq<KeyedEvent>): seq<KeyedEvent>
  {
    if ks == [] then [] else InsertByKey(ks[0], SortByKey(ks[1..]))
  }

  /** Events in non-decreasing order of their sort keys, as `sort.Slice` with
      `SortDate.Before` leaves them. */
  predicate SortedByDate(es: seq<EventRecord>)
    reads (set e | e in es)`fields
  {
    forall i, j | 0 <= i < j < |es| :: es[i].fields.sortDate <= es[j].fields.sortDate
  }

  /** The events of a list in date order: the same events, each as often as in the
      list, with non-decreasing sort keys. */
  function ByDate(es: seq<EventRecord>): (r: seq<EventRecord>)
    reads (set e | e in es)`fields
    ensures multiset(r) == multiset(es)
    ensures SortedByDate(r)
  {
    KeyedSortPermutes(es);
    KeyedSortOrdered(es);
    EventsOf(SortByKey(WithKeys(es)))
  }

  lemma {:induction false} InsertByKeyPermutes(k: KeyedEvent, ks: seq<KeyedEvent>)
    ensures multiset(InsertByKey(k, ks)) == multiset(ks) + multiset{k}
    decreases |ks|
  {
    if ks != [] && k.key > ks[0].key {
      InsertByKeyPermutes(k, ks[1..]);
      assert ks == [ks[0]] + ks[1..];
    }
  }

  lemma {:induction false} InsertByKeySorted(k: KeyedEvent, ks: seq<KeyedEvent>)
    requires KeysSorted(ks)
    ensures KeysSorted(InsertByKey(k, ks))
    decreases |ks|
  {
    if ks != [] && k.key > ks[0].key {
      var rest := InsertByKey(k, ks[1..]);
      InsertByKeySorted(k, ks[1..]);
      InsertByKeyPermutes(k, ks[1..]);
      forall x | x in rest ensures ks[0].key <= x.key {
        assert x in multiset(rest);
        if x != k {
          assert x in multiset(ks[1..]);
        }
      }
    }
  }

  /** Sorting keeps exactly the entries it was given. */
  lemma {:induction false} SortByKeyPermutes(ks: seq<KeyedEvent>)
    ensures multiset(SortByKey(ks)) == multiset(ks)
    decreases |ks|
  {
    if ks != [] {
      SortByKeyPermutes(ks[1..]);
      InsertByKeyPermutes(ks[0], SortByKey(ks[1..]));
      assert ks == [ks[0]] + ks[1..];
    }
  }

  /** Sorting leaves the keys in non-decreasing order. */
  lemma {:induction false} SortByKeySorted(ks: seq<KeyedEvent>)
    ensures KeysSorted(SortByKey(ks))
    decreases |ks|
  {
    if ks != [] {
      SortByKeySorted(ks[1..]);
      InsertByKeySorted(ks[0], SortByKey(ks[1..]));
    }
  }

  lemma {:induction false} InsertByKeyEvents(k: KeyedEvent, ks: seq<KeyedEvent>)
    ensures multiset(EventsOf(InsertByKey(k, ks))) == multiset(EventsOf(ks)) + multiset{k.event}
    decreases |ks|
  {
    if ks != [] && k.key > ks[0].key {
      InsertByKeyEvents(k, ks[1..]);
      assert EventsOf(ks) == [ks[0].event] + EventsOf(ks[1..]);
    }
  }

  /** Sorting keeps exactly the events it was given. */
  lemma {:induction false} SortByKeyEvents(ks: seq<KeyedEvent>)
    ensures multiset(EventsOf(SortByKey(ks))) == multiset(EventsOf(ks))
    decreases |ks|
  {
    if ks != [] {
      SortByKeyEvents(ks[1..]);
      InsertByKeyEvents(ks[0], SortByKey(ks[1..]));
      assert EventsOf(ks) == [ks[0].event] + EventsOf(ks[1..]);
    }
  }

  /** Sorting the keyed events keeps exactly the events of the list. */
  lemma KeyedSortPermutes(es: seq<EventRecord>)
    ensures multiset(EventsOf(SortByKey(WithKeys(es)))) == multiset(es)
  {
    SortByKeyEvents(WithKeys(es));
    assert EventsOf(WithKeys(es)) == es;
  }

  /** Every entry of the sorted pairs carries its own event's sort key. */
  lemma SortedKeysTrue(es: seq<EventRecord>, x: KeyedEvent)
    requires x in SortByKey(WithKeys(es))
    ensures x.key == x.event.fields.sortDate
  {
    SortByKeyPermutes(WithKeys(es));
    assert x in multiset(WithKeys(es));
  }

  /** Sorting the keyed events leaves them in non-decreasing order of their sort
      keys. */
  lemma KeyedSortOrdered(es: seq<EventRecord>)
    ensures SortedByDate(EventsOf(SortByKey(WithKeys(es))))
  {
    var sorted := SortByKey(WithKeys(es));
    SortByKeySorted(WithKeys(es));
    var r := EventsOf(sorted);
    forall i, j | 0 <= i < j < |r| ensures r[i].fields.sortDate <= r[j].fields.sortDate {
      SortedKeysTrue(es, sorted[i]);
      SortedKeysTrue(es, sorted[j]);
    }
  }

  // ---------------------------------------------------------------------------
  // Close actions

  /** An event closes: without a DATE it takes the current time as its sort key
      (decoder.go:446-448). */
  method CloseEvent(e: EventRecord, now: Instant)
    modifies e`fields
    ensures old(e.fields.date) == "" ==> e.fields == old(e.fields).(sortDate := now)
    ensures old(e.fields.date) != "" ==> e.fields == old(e.fields)
  {
    if e.fields.date == "" {
      e.fields := e.fields.(sortDate := now);
    }
  }

  /** A family closes: its events are put in date order (decoder.go:533-535). */
  method CloseFamily(f: FamilyRecord)
    modifies f`fields
    ensures f.fields == old(f.fields).(event := f.fields.event)
    ensures multiset(f.fields.event) == multiset(old(f.fields.event))
    ensures SortedByDate(f.fields.event)
  {
    f.fields := f.fields.(event := ByDate(f.fields.event));
  }

  /** An individual closes: its events and its attributes are each put in date
      order (decoder.go:722-727). */
  method CloseIndividual(i: IndividualRecord)
    modifies i`fields
    ensures i.fields == old(i.fields).(event := i.fields.event, attribute := i.fields.attribute)
    ensures multiset(i.fields.event) == multiset(old(i.fields.event))
    ensures multiset(i.fields.attribute) == multiset(old(i.fields.attribute))
    ensures SortedByDate(i.fields.event) && SortedByDate(i.fields.attribute)
  {
    i.fields := i.fields.(event := ByDate(i.fields.event), attribute := ByDate(i.fields.attribute));
  }

  /** The record a context writes to when it closes: the event of an event table,
      the family of a family table, the individual of an individual table. */
  function ClosedEvent(t: Table): set<EventRecord>
  {
    if t.EventTable? then {t.event} else {}
  }

  function ClosedFamily(t: Table): set<FamilyRecord>
  {
    if t.FamilyTable? then {t.family} else {}
  }

  function ClosedIndividual(t: Table): set<IndividualRecord>
  {
    if t.IndividualTable? then {t.individual} else {}
  }

  /** The same records as objects; every other table closes without writing. */
  function ClosedObjects(t: Table): (s: set<object>)
    ensures s <= TableObjects(t)
  {
    if t.EventTable? then {t.event}
    else if t.FamilyTable? then {t.family}
    else if t.IndividualTable? then {t.individual}
    else {}
  }

  /** The events on the lists the close action of `t` sorts. */
  function SortedEvents(t: Table): set<EventRecord>
    reads ClosedFamily(t)`fields, ClosedIndividual(t)`fields
  {
    if t.FamilyTable? then set e | e in t.family.fields.event
    else if t.IndividualTable? then (set e | e in t.individual.fields.event) + (set e | e in t.individual.fields.attribute)
    else {}
  }

  /** An event's fields from `a` to `b` under close actions: at most the sort key
      changed, and only to `now` on an event without a date. */
  predicate EventCloseStep(a: EventFields, b: EventFields, now: Instant)
  {
    b == a.(sortDate := b.sortDate) && (b.sortDate == a.sortDate || (a.date == "" && b.sortDate == now))
  }

  /** A family's fields under close actions: at most its events were reordered. */
  predicate FamilyCloseStep(a: FamilyFields, b: FamilyFields)
  {
    b == a.(event := b.event) && multiset(b.event) == multiset(a.event)
  }

  /** An individual's fields under close actions: at most its events and its
      attributes were reordered. */
  predicate IndividualCloseStep(a: IndividualFields, b: IndividualFields)
  {
    && b == a.(event := b.event, attribute := b.attribute)
    && multiset(b.event) == multiset(a.event) && multiset(b.attribute) == multiset(a.attribute)
  }

  /** The fields of the record the close action of a table writes, as they stand at
      some moment: an event's, a family's or an individual's; nothing for every other
      table. */
  datatype Snapshot =
    | EventSnap(eventFields: EventFields)
    | FamilySnap(familyFields: FamilyFields)
    | IndividualSnap(individualFields: IndividualFields)
    | NoSnap

  function SnapOf(t: Table): Snapshot
    reads ClosedEvent(t)`fields, ClosedFamily(t)`fields, ClosedIndividual(t)`fields
  {
    if t.EventTable? then EventSnap(t.event.fields)
    else if t.FamilyTable? then FamilySnap(t.family.fields)
    else if t.IndividualTable? then IndividualSnap(t.individual.fields)
    else NoSnap
  }

  /** Two runs of close actions on an event together do no more than one; the
      sort key of an event without a date, once set to `now`, stays `now`. */
  lemma EventStepsCompose(a: EventFields, b: EventFields, c: EventFields, now: Instant)
    requires EventCloseStep(a, b, now) && EventCloseStep(b, c, now)
    ensures EventCloseStep(a, c, now)
    ensures a.date == "" && (b.sortDate == now || c.sortDate == now) ==> c.sortDate == now
  {
    assert b.date == a.date;
  }

  lemma FamilyStepsCompose(a: FamilyFields, b: FamilyFields, c: FamilyFields)
    requires FamilyCloseStep(a, b) && FamilyCloseStep(b, c)
    ensures FamilyCloseStep(a, c)
  {
  }

  lemma IndividualStepsCompose(a: IndividualFields, b: IndividualFields, c: IndividualFields)
    requires IndividualCloseStep(a, b) && IndividualCloseStep(b, c)
    ensures IndividualCloseStep(a, c)
  {
  }

  /** What close actions may have done to the record of `t` since its fields were
      `s`: nothing beyond what its own close action does. */
  predicate CloseStepFrom(s: Snapshot, t: Table, now: Instant)
    reads ClosedEvent(t)`fields, ClosedFamily(t)`fields, ClosedIndividual(t)`fields
  {
    if t.EventTable? then s.EventSnap? && EventCloseStep(s.eventFields, t.event.fields, now)
    else if t.FamilyTable? then s.FamilySnap? && FamilyCloseStep(s.familyFields, t.family.fields)
    else if t.IndividualTable? then s.IndividualSnap? && IndividualCloseStep(s.individualFields, t.individual.fields)
    else true
  }

  /** The close action of `t` has run since its fields were `s`: besides the
      reorderings above, an event without a date has `now` as its sort key. */
  predicate ClosedFrom(s: Snapshot, t: Table, now: Instant)
    reads ClosedEvent(t)`fields, ClosedFamily(t)`fields, ClosedIndividual(t)`fields
  {
    && CloseStepFrom(s, t, now)
    && (t.EventTable? && s.EventSnap? && s.eventFields.date == "" ==> t.event.fields.sortDate == now)
  }

  /** What close actions may have done to the record of `t` between two states. */
  twostate predicate ClosedAtMost(t: Table, now: Instant)
    reads ClosedEvent(t)`fields, ClosedFamily(t)`fields, ClosedIndividual(t)`fields
  {
    CloseStepFrom(old(SnapOf(t)), t, now)
  }

  /** The close action of `t` has run between two states. */
  twostate predicate Closed(t: Table, now: Instant)
    reads ClosedEvent(t)`fields, ClosedFamily(t)`fields, ClosedIndividual(t)`fields
  {
    ClosedFrom(old(SnapOf(t)), t, now)
  }

  /** The lists the close action of `t` sorts are in date order. */
  predicate SortedLists(t: Table)
    reads ClosedFamily(t)`fields, ClosedIndividual(t)`fields, SortedEvents(t)`fields
  {
    && (t.FamilyTable? ==> SortedByDate(t.family.fields.event))
    && (t.IndividualTable? ==> SortedByDate(t.individual.fields.event) && SortedByDate(t.individual.fields.attribute))
  }

  /** The close action of the context that runs a table: events, families and
      individuals have one; every other table closes without a change. */
  method Close(t: Table, now: Instant)
    modifies ClosedEvent(t)`fields, ClosedFamily(t)`fields, ClosedIndividual(t)`fields
    ensures Closed(t, now) && SortedLists(t)
  {
    if t.EventTable? {
      CloseEvent(t.event, now);
    } else if t.FamilyTable? {
      CloseFamily(t.family);
    } else if t.IndividualTable? {
      CloseIndividual(t.individual);
    }
  }

  /** The records the close actions of the contexts `ps[lo..]` write to. */
  function ClosingEvents(ps: seq<Context>, lo: nat): (r: set<EventRecord>)
    ensures forall k | lo <= k < |ps| && ps[k].Open? :: ClosedEvent(ps[k].table) <= r
    ensures r <= Targets(ps)
  {
    set k | lo <= k < |ps| && ps[k].Open? && ps[k].table.EventTable? :: ps[k].table.event
  }

  function ClosingFamilies(ps: seq<Context>, lo: nat): (r: set<FamilyRecord>)
    ensures forall k | lo <= k < |ps| && ps[k].Open? :: ClosedFamily(ps[k].table) <= r
    ensures r <= Targets(ps)
  {
    set k | lo <= k < |ps| && ps[k].Open? && ps[k].table.FamilyTable? :: ps[k].table.family
  }

  function ClosingIndividuals(ps: seq<Context>, lo: nat): (r: set<IndividualRecord>)
    ensures forall k | lo <= k < |ps| && ps[k].Open? :: ClosedIndividual(ps[k].table) <= r
    ensures r <= Targets(ps)
  {
    set k | lo <= k < |ps| && ps[k].Open? && ps[k].table.IndividualTable? :: ps[k].table.individual
  }

  /** The snapshots of the records of every context on the stack. */
  function SnapsOf(ps: seq<Context>): (r: seq<Snapshot>)
    reads ClosingEvents(ps, 0)`fields, ClosingFamilies(ps, 0)`fields, ClosingIndividuals(ps, 0)`fields
    ensures |r| == |ps| && forall k | 0 <= k < |ps| && ps[k].Open? :: r[k] == SnapOf(ps[k].table)
    decreases |ps|
  {
    if ps == [] then []
    else SnapsOf(ps[..|ps| - 1]) + [if Top(ps).Open? then SnapOf(Top(ps).table) else NoSnap]
  }

  /** None of the contexts `ps[lo..k]`, which close after `ps[k]`, is an event on the
      lists that the close action of `ps[k]` sorts: their sort keys are final by then. */
  predicate EventsClosedFirst(ps: seq<Context>, lo: int, k: int)
    requires 0 <= k < |ps| && ps[k].Open?
    reads ClosedFamily(ps[k].table)`fields, ClosedIndividual(ps[k].table)`fields
  {
    forall j | 0 <= j < k && lo <= j && ps[j].Open? && ps[j].table.EventTable? :: ps[j].table.event !in SortedEvents(ps[k].table)
  }

  /** The events on the lists that the close actions of the contexts `ps[lo..]`
      sort. */
  function ListedEvents(ps: seq<Context>, lo: nat): (r: set<EventRecord>)
    reads ClosingFamilies(ps, lo)`fields, ClosingIndividuals(ps, lo)`fields
    ensures forall k | lo <= k < |ps| && ps[k].Open? :: SortedEvents(ps[k].table) <= r
  {
    set k, e | lo <= k < |ps| && ps[k].Open? && e in SortedEvents(ps[k].table) :: e
  }

  /** One turn of the closing loop: the contexts `ps[n + 1..]` have closed, whose
      records were `snaps` before the loop, and the close action of `ps[n]` runs. */
  datatype Turn = Turn(ps: seq<Context>, snaps: seq<Snapshot>, n: nat, now: Instant)

  predicate TurnReady(w: Turn)
  {
    1 <= w.n < |w.ps| == |w.snaps| && forall k | 1 <= k < |w.ps| :: w.ps[k].Open?
  }

  /** Once the contexts `ps[n..]` have closed, every record of the stack was written
      by no more than its own close action since its snapshot, and the close actions
      of `ps[n..]` have run. */
  predicate StepsDone(ps: seq<Context>, snaps: seq<Snapshot>, n: int, now: Instant)
    reads ClosingEvents(ps, 1)`fields, ClosingFamilies(ps, 1)`fields, ClosingIndividuals(ps, 1)`fields
  {
    && |snaps| == |ps|
    && (forall k | 1 <= k < |ps| && ps[k].Open? :: CloseStepFrom(snaps[k], ps[k].table, now))
    && (forall k | 1 <= k < |ps| && n <= k && ps[k].Open? :: ClosedFrom(snaps[k], ps[k].table, now))
  }

  /** Once the contexts `ps[n..]` have closed, the lists each of them sorted are in
      date order, unless an event that closed after it is on them. */
  predicate ListsDone(ps: seq<Context>, n: int)
    reads ClosingFamilies(ps, 1)`fields, ClosingIndividuals(ps, 1)`fields, ListedEvents(ps, 1)`fields
  {
    forall k | 1 <= k < |ps| && n <= k && ps[k].Open? :: EventsClosedFirst(ps, n, k) ==> SortedLists(ps[k].table)
  }

  /** Before any context closes, every record is where its snapshot has it, and no
      context has closed yet. */
  lemma StepsStart(ps: seq<Context>, now: Instant)
    ensures StepsDone(ps, SnapsOf(ps), |ps|, now) && ListsDone(ps, |ps|)
  {
    var snaps := SnapsOf(ps);
    forall k | 1 <= k < |ps| && ps[k].Open? ensures CloseStepFrom(snaps[k], ps[k].table, now) {
      assert snaps[k] == SnapOf(ps[k].table);
    }
  }

  /** The close action of `ps[n]` keeps every record of the stack within what its
      own close action does, and adds `ps[n]` to those whose close action has run. */
  twostate lemma StepsKept(w: Turn)
    requires TurnReady(w) && old(StepsDone(w.ps, w.snaps, w.n + 1, w.now))
    requires Closed(w.ps[w.n].table, w.now)
    requires forall e: EventRecord | old(allocated(e)) && e !in ClosedEvent(w.ps[w.n].table) :: e.fields == old(e.fields)
    requires forall f: FamilyRecord | old(allocated(f)) && f !in ClosedFamily(w.ps[w.n].table) :: f.fields == old(f.fields)
    requires forall i: IndividualRecord | old(allocated(i)) && i !in ClosedIndividual(w.ps[w.n].table) :: i.fields == old(i.fields)
    ensures StepsDone(w.ps, w.snaps, w.n, w.now)
  {
    var Turn(ps, snaps, n, now) := w;
    var top := ps[n].table;
    forall k | 1 <= k < |ps| ensures CloseStepFrom(snaps[k], ps[k].table, now) && (n <= k ==> ClosedFrom(snaps[k], ps[k].table, now)) {
      var t := ps[k].table;
      if t.EventTable? {
        if t != top {
          assert t.event !in ClosedEvent(top);
        } else {
          assert EventCloseStep(old(t.event.fields), t.event.fields, now);
          EventStepsCompose(snaps[k].eventFields, old(t.event.fields), t.event.fields, now);
        }
      } else if t.FamilyTable? {
        if t != top {
          assert t.family !in ClosedFamily(top);
        } else {
          assert FamilyCloseStep(old(t.family.fields), t.family.fields);
          FamilyStepsCompose(snaps[k].familyFields, old(t.family.fields), t.family.fields);
        }
      } else if t.IndividualTable? {
        if t != top {
          assert t.individual !in ClosedIndividual(top);
        } else {
          assert IndividualCloseStep(old(t.individual.fields), t.individual.fields);
          IndividualStepsCompose(snaps[k].individualFields, old(t.individual.fields), t.individual.fields);
        }
      }
    }
  }

  /** The close action of `ps[n]` keeps the lists of every context closed before it
      in date order, unless `ps[n]` is an event on those lists. */
  twostate lemma ListsKept(w: Turn)
    requires TurnReady(w) && old(ListsDone(w.ps, w.n + 1))
    requires SortedLists(w.ps[w.n].table)
    requires forall e: EventRecord | old(allocated(e)) && e !in ClosedEvent(w.ps[w.n].table) :: e.fields == old(e.fields)
    requires forall f: FamilyRecord | old(allocated(f)) && f !in ClosedFamily(w.ps[w.n].table) :: f.fields == old(f.fields)
    requires forall i: IndividualRecord | old(allocated(i)) && i !in ClosedIndividual(w.ps[w.n].table) :: i.fields == old(i.fields)
    ensures ListsDone(w.ps, w.n)
  {
    var Turn(ps, snaps, n, now) := w;
    var top := ps[n].table;
    forall k | 1 <= k < |ps| && n <= k && ps[k].Open? && EventsClosedFirst(ps, n, k) ensures SortedLists(ps[k].table) {
      var t := ps[k].table;
      if k != n && t != top && (t.FamilyTable? || t.IndividualTable?) {
        if t.FamilyTable? {
          assert t.family !in ClosedFamily(top);
        } else {
          assert t.individual !in ClosedIndividual(top);
        }
        assert old(EventsClosedFirst(ps, n + 1, k));
        var es := if t.FamilyTable? then t.family.fields.event else t.individual.fields.event + t.individual.fields.attribute;
        forall e | e in es ensures e.fields == old(e.fields) {
          assert e in SortedEvents(t);
          if top.EventTable? {
            assert top.event != e;
          }
          assert old(allocated(e)) && e !in ClosedEvent(top);
        }
      }
    }
  }

  /** The close action of `top`, the table of `w.ps[w.n]`, runs: the contexts
      `w.ps[w.n..]` have then closed. */
  method CloseRecord(top: Table, now: Instant, ghost w: Turn)
    requires TurnReady(w) && w.ps[w.n].table == top && w.now == now
    requires StepsDone(w.ps, w.snaps, w.n + 1, w.now) && ListsDone(w.ps, w.n + 1)
    modifies ClosedEvent(top)`fields, ClosedFamily(top)`fields, ClosedIndividual(top)`fields
    ensures StepsDone(w.ps, w.snaps, w.n, w.now) && ListsDone(w.ps, w.n)
  {
    Close(top, now);
    StepsKept(w);
    ListsKept(w);
  }

  /** One turn of the closing loop: the top context, `ps[n]`, is popped and its
      close action runs. */
  method CloseTop(d: Decoder, now: Instant, ghost w: Turn)
    requires d.Valid() && TurnReady(w) && w.now == now && d.parsers == w.ps[..w.n + 1]
    requires StepsDone(w.ps, w.snaps, w.n + 1, w.now) && ListsDone(w.ps, w.n + 1)
    modifies d`parsers
    modifies ClosedEvent(w.ps[w.n].table)`fields, ClosedFamily(w.ps[w.n].table)`fields, ClosedIndividual(w.ps[w.n].table)`fields
    ensures d.Valid() && d.parsers == w.ps[..w.n]
    ensures StepsDone(w.ps, w.snaps, w.n, w.now) && ListsDone(w.ps, w.n)
  {
    var top := Top(d.parsers).table;
    assert top == w.ps[w.n].table;
    LivePrefix(d.parsers, w.n);
    var popped := d.PopParser();
    CloseRecord(top, now, w);
  }

  /** The closing of the contexts a line at `level` closes, as the parsers do it:
      the top context, if the line closes it, runs its close action and is popped,
      and the context below it is given the line. `w.ps` is the stack before the
      line, whose records were `w.snaps`; `w.ps[w.n..]` have closed already. */
  method PopClosed(d: Decoder, level: int, now: Instant, ghost w: Turn)
    requires d.Valid() && 1 <= w.n <= |w.ps| == |w.snaps| && (forall k | 1 <= k < |w.ps| :: w.ps[k].Open?)
    requires d.parsers == w.ps[..w.n] && w.now == now
    requires StepsDone(w.ps, w.snaps, w.n, now) && ListsDone(w.ps, w.n)
    modifies d`parsers
    modifies ClosingEvents(w.ps, |Survivors(d.parsers, level)|)`fields
    modifies ClosingFamilies(w.ps, |Survivors(d.parsers, level)|)`fields
    modifies ClosingIndividuals(w.ps, |Survivors(d.parsers, level)|)`fields
    ensures d.Valid() && d.parsers == Survivors(old(d.parsers), level)
    ensures StepsDone(w.ps, w.snaps, |d.parsers|, now) && ListsDone(w.ps, |d.parsers|)
    decreases w.n
  {
    if Top(d.parsers).Open? && level <= Top(d.parsers).minLevel {
      var w' := w.(n := w.n - 1);
      assert w.ps[..w.n][..w'.n] == w.ps[..w'.n];
      CloseTop(d, now, w');
      PopClosed(d, level, now, w');
    }
  }

  /** What the closing loop leaves, stated between the states before and after it. */
  twostate lemma ClosingDone(w: Turn)
    requires 1 <= w.n <= |w.ps| == |w.snaps| && (forall k | 1 <= k < |w.ps| :: w.ps[k].Open?)
    requires w.snaps == old(SnapsOf(w.ps))
    requires StepsDone(w.ps, w.snaps, w.n, w.now) && ListsDone(w.ps, w.n)
    ensures forall k | 1 <= k < |w.ps| :: ClosedAtMost(w.ps[k].table, w.now)
    ensures forall k | w.n <= k < |w.ps| :: Closed(w.ps[k].table, w.now)
    ensures forall k | w.n <= k < |w.ps| :: EventsClosedFirst(w.ps, w.n, k) ==> SortedLists(w.ps[k].table)
  {
  }

  /** The first half of a call of the top parser: every context the line closes
      runs its close action and is popped. The root is never popped, so `popParser`
      never panics. Only the records of the closed contexts are written, each by
      no more than its own close action. */
  method CloseContexts(d: Decoder, line: Line, now: Instant)
    requires d.Valid()
    modifies d`parsers
    modifies ClosingEvents(d.parsers, |Survivors(d.parsers, line.level)|)`fields
    modifies ClosingFamilies(d.parsers, |Survivors(d.parsers, line.level)|)`fields
    modifies ClosingIndividuals(d.parsers, |Survivors(d.parsers, line.level)|)`fields
    ensures d.Valid()
    ensures d.parsers == Survivors(old(d.parsers), line.level)
    ensures d.refs == old(d.refs) && d.unrecognized == old(d.unrecognized)
    ensures forall k | 1 <= k < |old(d.parsers)| :: ClosedAtMost(old(d.parsers)[k].table, now)
    ensures forall k | |d.parsers| <= k < |old(d.parsers)| :: Closed(old(d.parsers)[k].table, now)
    ensures forall k | |d.parsers| <= k < |old(d.parsers)| ::
      EventsClosedFirst(old(d.parsers), |d.parsers|, k) ==> SortedLists(old(d.parsers)[k].table)
  {
    ghost var ps := d.parsers;
    ghost var snaps := SnapsOf(ps);
    StepsStart(ps, now);
    PopClosed(d, line.level, now, Turn(ps, snaps, |ps|, now));
    ClosingDone(Turn(ps, snaps, |d.parsers|, now));
  }

  // ---------------------------------------------------------------------------
  // Delivering a line (the body every parser closure starts with, and the scan
  // loop's call of the top parser)

  /** What any tag table may do with one line: add to the registry, keeping every
      record under its own id, and either do nothing to the stack and the callback
      log, or open one context at the line's level, having called the callback with
      the line at most once. */
  twostate predicate Dispatched(d: Decoder, line: Line)
    reads d
  {
    && old(d.refs).Keys <= d.refs.Keys
    && (Keyed(old(d.refs)) ==> Keyed(d.refs))
    && (|| Quiet(d)
        || (&& |d.parsers| == |old(d.parsers)| + 1
            && d.parsers[..|old(d.parsers)|] == old(d.parsers)
            && Top(d.parsers).Open? && Top(d.parsers).minLevel == line.level
            && (d.unrecognized == old(d.unrecognized) || d.unrecognized == old(d.unrecognized) + [line])))
  }

  /** A context opened on top of `ps` that extends an element of a data record's
      text list points at an element that exists. */
  predicate NewTopLive(ps: seq<Context>, ps': seq<Context>)
    reads if |ps'| > |ps| then TopObjects(ps') else {}
  {
    |ps'| > |ps| && OpensDataText(Top(ps')) ==> Top(ps').table.target.index < |Top(ps').table.target.data.fields.text|
  }

  predicate IsHeaderTable(t: Table)
  {
    || t.AddressTable? || t.ChangedTable? || t.CorpTable? || t.EncodingTable? || t.HeaderDataTable?
    || t.HeaderInfoTable? || t.HeaderTable? || t.HeaderSourceTable? || t.SubmissionTable?
    || t.SubmitterTable? || t.TimestampTable?
  }

  predicate IsPeopleTable(t: Table)
  {
    || t.ChildTable? || t.FamilyLinkTable? || t.NameTable? || t.PlaceTable? || t.MapTable?
    || t.SpouseInfoTable? || t.EventTable? || t.FamilyTable? || t.IndividualTable?
  }

  /** What the tag table `t` did with the line, as the table's own handler states it. */
  twostate predicate TableParsed(d: Decoder, t: Table, line: Line, now: Instant, outcome: Outcome, base: seq<Context> := old(d.parsers))
    reads *
  {
    if IsHeaderTable(t) then outcome == Done && HeaderSideParsed(d, t, line, base)
    else if IsPeopleTable(t) then PeopleParsed(d, t, line, now, outcome, base)
    else SourceSideParsed(d, t, line, outcome, base)
  }

  twostate predicate HeaderSideParsed(d: Decoder, t: Table, line: Line, base: seq<Context> := old(d.parsers))
    reads *
  {
    if t.AddressTable? then AddressParsed(d, t.address, line, base)
    else if t.ChangedTable? then ChangedParsed(d, t.changed, line, base)
    else if t.CorpTable? then CorpParsed(d, t.corp, line, base)
    else if t.EncodingTable? then EncodingParsed(d, t.encoding, line, base)
    else if t.HeaderDataTable? then HeaderDataParsed(d, t.headerData, line, base)
    else if t.HeaderInfoTable? then HeaderInfoParsed(d, t.info, line, base)
    else if t.HeaderTable? then HeaderParsed(d, t.header, line, base)
    else if t.HeaderSourceTable? then HeaderSourceParsed(d, t.headerSource, line, base)
    else if t.SubmissionTable? then SubmissionParsed(d, t.submission, line, base)
    else if t.SubmitterTable? then SubmitterParsed(d, t.submitter, line, base)
    else t.TimestampTable? && TimestampParsed(d, t.timestamp, line, base)
  }

  twostate predicate PeopleParsed(d: Decoder, t: Table, line: Line, now: Instant, outcome: Outcome, base: seq<Context> := old(d.parsers))
    reads *
  {
    if t.ChildTable? then outcome == Done && ChildParsed(d, t.child, line, base)
    else if t.FamilyLinkTable? then outcome == Done && FamilyLinkParsed(d, t.link, line, base)
    else if t.NameTable? then outcome == Done && NameParsed(d, t.name, line, base)
    else if t.PlaceTable? then outcome == Done && PlaceParsed(d, t.place, line, base)
    else if t.MapTable? then outcome == Done && MapParsed(d, t.place, line, base)
    else if t.SpouseInfoTable? then outcome == Done && SpouseInfoParsed(d, t.spouseInfo, line, base)
    else if t.EventTable? then EventParsed(d, t.event, line, now, outcome, base)
    else if t.FamilyTable? then FamilyParsed(d, t.family, line, outcome, base)
    else t.IndividualTable? && IndividualParsed(d, t.individual, line, outcome, base)
  }

  twostate predicate SourceSideParsed(d: Decoder, t: Table, line: Line, outcome: Outcome, base: seq<Context> := old(d.parsers))
    reads *
  {
    if t.CitationTable? then CitationParsed(d, t.citation, line, outcome, base)
    else if t.DataTable? then outcome == Done && DataParsed(d, t.data, line, base)
    else if t.FileTable? then outcome == Done && FileParsed(d, t.file, line, base)
    else if t.NoteTable? then outcome == Done && NoteParsed(d, t.note, line, base)
    else if t.ObjectTable? then ObjectParsed(d, t.obj, line, outcome, base)
    else if t.RepositoryTable? then outcome == Done && RepositoryParsed(d, line, base)
    else if t.SourceDataTable? then outcome == Done && SourceDataParsed(d, t.sourceData, line, base)
    else if t.SourceTable? then SourceParsed(d, t.source, line, outcome, base)
    else if t.TextTable? then outcome == Done && TextParsed(d, t.target, line, base)
    else outcome == Done && Kept(d, base)
  }

  /** The tables of the header and the submission records. None of them can panic. */
  method DispatchHeader(d: Decoder, t: Table, line: Line)
    requires IsHeaderTable(t) && TextTargetsLive(d.parsers)
    modifies d, TableObjects(t)
    ensures Step(d, line)
    ensures TextTargetsLive(old(d.parsers))
    ensures HeaderSideParsed(d, t, line)
  {
    if t.AddressTable? {
      ParseAddress(d, t.address, line);
    } else if t.ChangedTable? {
      ParseChanged(d, t.changed, line);
    } else if t.CorpTable? {
      ParseCorp(d, t.corp, line);
    } else if t.EncodingTable? {
      ParseEncoding(d, t.encoding, line);
    } else if t.HeaderDataTable? {
      ParseHeaderData(d, t.headerData, line);
    } else if t.HeaderInfoTable? {
      ParseHeaderInfo(d, t.info, line);
    } else if t.HeaderTable? {
      ParseHeader(d, t.header, line);
    } else if t.HeaderSourceTable? {
      ParseHeaderSource(d, t.headerSource, line);
    } else if t.SubmissionTable? {
      ParseSubmission(d, t.submission, line);
    } else if t.SubmitterTable? {
      ParseSubmitter(d, t.submitter, line);
    } else {
      ParseTimestamp(d, t.timestamp, line);
    }
  }

  /** The tables of individuals, families and their events. */
  method DispatchPeople(d: Decoder, t: Table, line: Line, now: Instant) returns (outcome: Outcome)
    requires IsPeopleTable(t) && TextTargetsLive(d.parsers)
    modifies d, TableObjects(t)
    ensures Step(d, line)
    ensures TextTargetsLive(old(d.parsers))
    ensures outcome.Panic? ==> outcome == Panic(SliceOutOfRange) && line.value == ""
    ensures PeopleParsed(d, t, line, now, outcome)
  {
    outcome := Done;
    if t.ChildTable? {
      ParseChild(d, t.child, line);
    } else if t.FamilyLinkTable? {
      ParseFamilyLink(d, t.link, line);
    } else if t.NameTable? {
      ParseName(d, t.name, line);
    } else if t.PlaceTable? {
      ParsePlace(d, t.place, line);
    } else if t.MapTable? {
      ParseMap(d, t.place, line);
    } else if t.SpouseInfoTable? {
      ParseSpouseInfo(d, t.spouseInfo, line);
    } else if t.EventTable? {
      outcome := ParseEvent(d, t.event, line, now);
    } else if t.FamilyTable? {
      outcome := ParseFamily(d, t.family, line);
    } else {
      outcome := ParseIndividual(d, t.individual, line);
    }
  }

  /** The tables of sources, citations, notes, objects and text, and the slurk table. */
  method DispatchSource(d: Decoder, t: Table, line: Line) returns (outcome: Outcome)
    requires !IsHeaderTable(t) && !IsPeopleTable(t) && TextTargetsLive(d.parsers)
    requires t.TextTable? ==> TargetLive(t.target)
    modifies d, TableObjects(t)
    ensures Dispatched(d, line)
    ensures TextTargetsLive(old(d.parsers)) && NewTopLive(old(d.parsers), d.parsers)
    ensures outcome.Panic? ==> outcome == Panic(SliceOutOfRange) && line.value == ""
    ensures SourceSideParsed(d, t, line, outcome)
  {
    outcome := Done;
    if t.CitationTable? {
      outcome := ParseCitation(d, t.citation, line);
    } else if t.DataTable? {
      ParseData(d, t.data, line);
    } else if t.FileTable? {
      ParseFile(d, t.file, line);
    } else if t.NoteTable? {
      ParseNote(d, t.note, line);
    } else if t.ObjectTable? {
      outcome := ParseObject(d, t.obj, line);
    } else if t.RepositoryTable? {
      ParseRepository(d, line);
    } else if t.SourceDataTable? {
      ParseSourceData(d, t.sourceData, line);
    } else if t.SourceTable? {
      outcome := ParseSource(d, t.source, line);
    } else if t.TextTable? {
      ParseText(d, t.target, line);
    }
  }

  /** What the top context of the stack before the line did with it: the root
      table's effect, or the effect of the top open context's table. */
  twostate predicate Handled(d: Decoder, line: Line, now: Instant, outcome: Outcome, base: seq<Context> := old(d.parsers))
    reads *
  {
    base != [] &&
    var c := Top(base);
    if c.Open? then TableParsed(d, c.table, line, now, outcome, base) else outcome == Done && RootParsed(d, c.gedcom, line, base)
  }

  /** The top context's tag table handles the line: the root table, or the table of
      the top open context, with the effect that table's handler states. */
  method Dispatch(d: Decoder, line: Line, now: Instant) returns (outcome: Outcome)
    requires d.Valid()
    modifies d, TopObjects(d.parsers)
    ensures Dispatched(d, line)
    ensures TextTargetsLive(d.parsers)
    ensures Top(old(d.parsers)).RootContext? && |d.parsers| > |old(d.parsers)| ==> line.level == 0
    ensures outcome.Panic? ==> outcome == Panic(SliceOutOfRange) && line.value == ""
    ensures Handled(d, line, now, outcome)
    ensures Top(old(d.parsers)).Open? && Top(old(d.parsers)).table.SlurkTable? ==> outcome == Done && Kept(d)
  {
    ghost var ps := d.parsers;
    var c := Top(d.parsers);
    outcome := Done;
    if c.RootContext? {
      ParseRoot(d, c.gedcom, line);
    } else if IsHeaderTable(c.table) {
      DispatchHeader(d, c.table, line);
    } else if IsPeopleTable(c.table) {
      outcome := DispatchPeople(d, c.table, line, now);
    } else {
      outcome := DispatchSource(d, c.table, line);
    }
    if |d.parsers| > |ps| {
      LiveExtend(ps, d.parsers);
    }
  }

  /** One line delivered: the contexts it closes are gone, and at most one context
      was opened, at the line's level, on top of those that remain. */
  twostate predicate Delivered(d: Decoder, line: Line)
    reads d
  {
    var s := Survivors(old(d.parsers), line.level);
    && old(d.refs).Keys <= d.refs.Keys
    && (|| d.parsers == s
        || (&& |d.parsers| == |s| + 1 && d.parsers[..|s|] == s
            && Top(d.parsers).Open? && Top(d.parsers).minLevel == line.level))
    && (d.unrecognized == old(d.unrecognized) || d.unrecognized == old(d.unrecognized) + [line])
  }

  /** The records that the table handling the line after the closing does not write
      to keep what the close actions did to them: `w.ps[w.n..]` have closed, and
      `w.ps[w.n - 1]` is the handling context. */
  twostate lemma ClosingSurvives(w: Turn)
    requires 1 <= w.n <= |w.ps| == |w.snaps| && (forall k | 1 <= k < |w.ps| :: w.ps[k].Open?)
    requires forall k | w.n <= k < |w.ps| && ClosedObjects(w.ps[k].table) !! TopObjects(w.ps[..w.n]) ::
      old(ClosedFrom(w.snaps[k], w.ps[k].table, w.now))
    requires forall k | w.n <= k < |w.ps| && ClosedObjects(w.ps[k].table) !! TopObjects(w.ps[..w.n]) ::
      old(EventsClosedFirst(w.ps, w.n, k) ==> SortedLists(w.ps[k].table))
    requires forall e: EventRecord | old(allocated(e)) && e !in TopObjects(w.ps[..w.n]) :: e.fields == old(e.fields)
    requires forall f: FamilyRecord | old(allocated(f)) && f !in TopObjects(w.ps[..w.n]) :: f.fields == old(f.fields)
    requires forall i: IndividualRecord | old(allocated(i)) && i !in TopObjects(w.ps[..w.n]) :: i.fields == old(i.fields)
    ensures forall k | w.n <= k < |w.ps| && ClosedObjects(w.ps[k].table) !! TopObjects(w.ps[..w.n]) ::
      ClosedFrom(w.snaps[k], w.ps[k].table, w.now)
    ensures forall k | w.n <= k < |w.ps| && ClosedObjects(w.ps[k].table) !! TopObjects(w.ps[..w.n]) ::
      SortedEvents(w.ps[k].table) !! TopObjects(w.ps[..w.n]) && EventsClosedFirst(w.ps, w.n, k) ==>
        SortedLists(w.ps[k].table)
  {
    var top := TopObjects(w.ps[..w.n]);
    forall k | w.n <= k < |w.ps| && ClosedObjects(w.ps[k].table) !! top
      ensures ClosedFrom(w.snaps[k], w.ps[k].table, w.now)
      ensures SortedEvents(w.ps[k].table) !! top && EventsClosedFirst(w.ps, w.n, k) ==> SortedLists(w.ps[k].table)
    {
      var t := w.ps[k].table;
      if t.FamilyTable? || t.IndividualTable? {
        var es := if t.FamilyTable? then t.family.fields.event else t.individual.fields.event + t.individual.fields.attribute;
        if SortedEvents(t) !! top {
          forall e | e in es ensures e.fields == old(e.fields) {
            assert e in SortedEvents(t);
          }
        }
      }
    }
  }

  /** `popParser`'s call of the new top parser once the contexts `w.ps[w.n..]` have
      closed: the top context handles the line, and the records its table does not
      write to keep what the close actions did to them. */
  method Redeliver(d: Decoder, line: Line, now: Instant, ghost w: Turn) returns (outcome: Outcome)
    requires d.Valid() && 1 <= w.n <= |w.ps| == |w.snaps| && (forall k | 1 <= k < |w.ps| :: w.ps[k].Open?)
    requires d.parsers == w.ps[..w.n] && w.now == now
    requires forall k | 1 <= k < |d.parsers| :: d.parsers[k].minLevel < line.level
    requires forall k | w.n <= k < |w.ps| && ClosedObjects(w.ps[k].table) !! TopObjects(w.ps[..w.n]) ::
      ClosedFrom(w.snaps[k], w.ps[k].table, w.now)
    requires forall k | w.n <= k < |w.ps| && ClosedObjects(w.ps[k].table) !! TopObjects(w.ps[..w.n]) ::
      EventsClosedFirst(w.ps, w.n, k) ==> SortedLists(w.ps[k].table)
    modifies d, TopObjects(d.parsers)
    ensures d.Valid() && Dispatched(d, line)
    ensures Handled(d, line, now, outcome)
    ensures outcome.Panic? ==> outcome == Panic(SliceOutOfRange) && line.value == ""
    ensures Top(old(d.parsers)).Open? && Top(old(d.parsers)).table.SlurkTable? ==> outcome == Done && Kept(d)
    ensures forall k | w.n <= k < |w.ps| && ClosedObjects(w.ps[k].table) !! TopObjects(w.ps[..w.n]) ::
      ClosedFrom(w.snaps[k], w.ps[k].table, w.now)
    ensures forall k | w.n <= k < |w.ps| && ClosedObjects(w.ps[k].table) !! TopObjects(w.ps[..w.n]) ::
      SortedEvents(w.ps[k].table) !! TopObjects(w.ps[..w.n]) && EventsClosedFirst(w.ps, w.n, k) ==>
        SortedLists(w.ps[k].table)
  {
    ghost var s := d.parsers;
    outcome := Dispatch(d, line, now);
    if |d.parsers| > |s| {
      PushExtendWellFormed(s, d.gedcom, d.parsers);
    }
    ClosingSurvives(w);
  }

  /** A line that closes the top context: the contexts it closes run their close
      actions and are popped, and the context below them handles the line, as
      `popParser` redelivers it. The close actions' effects survive on every record
      the handling table does not write to; what that table does with the line is
      stated by `Redeliver`, against the state after the closing. */
  method CloseAndDispatch(d: Decoder, line: Line, now: Instant) returns (outcome: Outcome)
    requires d.Valid() && Top(d.parsers).Open? && line.level <= Top(d.parsers).minLevel
    modifies d, Targets(d.parsers)
    ensures d.Valid()
    ensures Delivered(d, line)
    ensures outcome.Panic? ==> outcome == Panic(SliceOutOfRange) && line.value == ""
    ensures Survivors(old(d.parsers), line.level) != old(d.parsers)
    ensures var s := Survivors(old(d.parsers), line.level);
      s != [] && Top(s).Open? && Top(s).table.SlurkTable? ==>
        outcome == Done && d.parsers == s && d.refs == old(d.refs) && d.unrecognized == old(d.unrecognized)
    ensures var s := Survivors(old(d.parsers), line.level);
      forall k | |s| <= k < |old(d.parsers)| && ClosedObjects(old(d.parsers)[k].table) !! TopObjects(s) ::
        Closed(old(d.parsers)[k].table, now)
    ensures var s := Survivors(old(d.parsers), line.level);
      forall k | |s| <= k < |old(d.parsers)| && ClosedObjects(old(d.parsers)[k].table) !! TopObjects(s) ::
        SortedEvents(old(d.parsers)[k].table) !! TopObjects(s) && EventsClosedFirst(old(d.parsers), |s|, k) ==>
          SortedLists(old(d.parsers)[k].table)
  {
    SurvivorsExact(d.parsers, d.gedcom, line.level);
    ghost var ps := d.parsers;
    ghost var snaps := SnapsOf(ps);
    CloseContexts(d, line, now);
    ghost var s := d.parsers;
    TargetsPrefix(old(d.parsers), |s|);
    outcome := Redeliver(d, line, now, Turn(ps, snaps, |s|, now));
  }

  /** A call of the top parser: the contexts the line closes are closed, then the
      context below them handles the line. A line that closes nothing is handled by
      the top context's table; otherwise the close actions' effects survive on every
      record the handling table does not write to. */
  method Deliver(d: Decoder, line: Line, now: Instant) returns (outcome: Outcome)
    requires d.Valid()
    modifies d, Targets(d.parsers)
    ensures d.Valid()
    ensures Delivered(d, line)
    ensures outcome.Panic? ==> outcome == Panic(SliceOutOfRange) && line.value == ""
    ensures var s := Survivors(old(d.parsers), line.level);
      s != [] && Top(s).Open? && Top(s).table.SlurkTable? ==>
        outcome == Done && d.parsers == s && d.refs == old(d.refs) && d.unrecognized == old(d.unrecognized)
    ensures Survivors(old(d.parsers), line.level) == old(d.parsers) ==> Handled(d, line, now, outcome)
    ensures var s := Survivors(old(d.parsers), line.level);
      forall k | |s| <= k < |old(d.parsers)| && ClosedObjects(old(d.parsers)[k].table) !! TopObjects(s) ::
        Closed(old(d.parsers)[k].table, now)
    ensures var s := Survivors(old(d.parsers), line.level);
      forall k | |s| <= k < |old(d.parsers)| && ClosedObjects(old(d.parsers)[k].table) !! TopObjects(s) ::
        SortedEvents(old(d.parsers)[k].table) !! TopObjects(s) && EventsClosedFirst(old(d.parsers), |s|, k) ==>
          SortedLists(old(d.parsers)[k].table)
  {
    if Top(d.parsers).Open? && line.level <= Top(d.parsers).minLevel {
      outcome := CloseAndDispatch(d, line, now);
    } else {
      SurvivorsExact(d.parsers, d.gedcom, line.level);
      ghost var s := d.parsers;
      outcome := Dispatch(d, line, now);
      if |d.parsers| > |s| {
        PushExtendWellFormed(s, d.gedcom, d.parsers);
      }
    }
  }
}
