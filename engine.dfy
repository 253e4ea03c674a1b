/** The decoder's state (decoder.go `Decoder`): the registry of shared records
    keyed by cross-reference id, the stack of parser contexts, and the calls made
    to the unrecognised-tag callback, kept as a log. */
module Engine {
  import opened Strings
  import opened Records
  import opened Contexts
  import opened Tags

  /** A registry entry: the record and its dynamic type (`d.refs` holds
      `interface{}` values and each getter type-asserts its own kind). */
  datatype Ref =
    | IndividualRef(individual: IndividualRecord)
    | FamilyRef(family: FamilyRecord)
    | RepositoryRef(repository: RepositoryRecord)
    | SourceRef(source: SourceRecord)
    | SubmitterRef(submitter: SubmitterRecord)
    | SubmissionRef(submission: SubmissionRecord)
    | NoteRef(note: NoteRecord)
    | ObjectRef(obj: ObjectRecord)

  function RefObject(r: Ref): object
  {
    match r
    case IndividualRef(x) => x
    case FamilyRef(x) => x
    case RepositoryRef(x) => x
    case SourceRef(x) => x
    case SubmitterRef(x) => x
    case SubmissionRef(x) => x
    case NoteRef(x) => x
    case ObjectRef(x) => x
  }

  function RefXref(r: Ref): string
  {
    match r
    case IndividualRef(x) => x.xref
    case FamilyRef(x) => x.xref
    case RepositoryRef(x) => x.xref
    case SourceRef(x) => x.xref
    case SubmitterRef(x) => x.xref
    case SubmissionRef(x) => x.xref
    case NoteRef(x) => x.xref
    case ObjectRef(x) => x.xref
  }

  /** Both entries hold records of the same kind: the type assertion succeeds. */
  predicate SameKind(a: Ref, b: Ref)
  {
    match a
    case IndividualRef(_) => b.IndividualRef?
    case FamilyRef(_) => b.FamilyRef?
    case RepositoryRef(_) => b.RepositoryRef?
    case SourceRef(_) => b.SourceRef?
    case SubmitterRef(_) => b.SubmitterRef?
    case SubmissionRef(_) => b.SubmissionRef?
    case NoteRef(_) => b.NoteRef?
    case ObjectRef(_) => b.ObjectRef?
  }

  /** The record is as `&XxxRecord{Xref: xref}` leaves it: every other field zero. */
  predicate Blank(r: Ref)
    reads RefObject(r)
  {
    match r
    case IndividualRef(x) => x.fields == IndividualFields()
    case FamilyRef(x) => x.fields == FamilyFields()
    case RepositoryRef(x) => true
    case SourceRef(x) => x.fields == SourceFields()
    case SubmitterRef(x) => x.fields == SubmitterFields()
    case SubmissionRef(x) => x.fields == SubmissionFields()
    case NoteRef(x) => x.fields == NoteFields()
    case ObjectRef(x) => x.fields == ObjectFields()
  }

  function RefObjects(m: map<string, Ref>): set<object>
  {
    set r | r in m.Values :: RefObject(r)
  }

  /** The outcome of delivering a line: Go's decoder either returns normally or
      panics; it never returns an error. */
  datatype Outcome = Done | Panic(reason: string)

  const MassiveError := "MASSIVE ERROR"
  const SliceOutOfRange := "slice bounds out of range [:1] with length 0"

  class Decoder {
    const gedcom: Gedcom
    var refs: map<string, Ref>
    var parsers: seq<Context>
    /** The `(level, tag, value, xref)` of every call of the unrecognised-tag callback. */
    ghost var unrecognized: seq<Line>

    /** The stack is well formed, every text table extends a string that exists, and
        every registered record is registered under its own id. */
    predicate Valid()
      reads this`parsers, this`refs, DataTexts(parsers)`fields
    {
      WellFormed(parsers, gedcom) && TextTargetsLive(parsers) && Keyed(refs)
    }

    /** `Decode` before its scan: an empty file, an empty registry and the root context. */
    constructor()
      ensures fresh(gedcom) && fresh(gedcom.header)
      ensures gedcom.fields == GedcomFields() && gedcom.header.fields == HeaderFields()
      ensures refs == map[] && parsers == [RootContext(gedcom)] && unrecognized == []
      ensures Valid()
    {
      gedcom := new Gedcom();
      refs := map[];
      parsers := [RootContext(gedcom)];
      unrecognized := [];
    }

    /** `pushParser`: the stack grows by exactly the new context. */
    method PushParser(c: Context)
      modifies this`parsers
      ensures parsers == old(parsers) + [c]
    {
      parsers := parsers + [c];
    }

    /** `popParser` without the redelivery, which `Deliver` performs: the top context
        goes, or the decoder panics when only the root is left. */
    method PopParser() returns (outcome: Outcome)
      modifies this`parsers
      ensures |old(parsers)| < 2 ==> outcome == Panic(MassiveError) && parsers == old(parsers)
      ensures |old(parsers)| >= 2 ==> outcome == Done && parsers == old(parsers)[..|old(parsers)| - 1]
    {
      var n := |parsers| - 1;
      if n < 1 {
        return Panic(MassiveError);
      }
      parsers := parsers[..n];
      outcome := Done;
    }

    /** The unrecognised-tag branch shared by every tag table: one callback with the
        line, then a slurk context at the line's level. */
    method Unrecognized(line: Line)
      modifies this`parsers, this`unrecognized
      ensures unrecognized == old(unrecognized) + [line]
      ensures parsers == old(parsers) + [Open(SlurkTable, line.level)]
      ensures Step(this, line)
    {
      unrecognized := unrecognized + [line];
      PushParser(Open(SlurkTable, line.level));
    }

    /** `d.pushParser(make…Parser(d, r, level))` in a tag table running for `line`:
        a child context opened at the line's level. */
    method OpenChild(t: Table, line: Line)
      requires !OpensDataText(Open(t, line.level))
      modifies this`parsers
      ensures parsers == old(parsers) + [Open(t, line.level)]
      ensures Step(this, line)
    {
      PushParser(Open(t, line.level));
    }

    method Individual(xref: string) returns (rec: IndividualRecord)
      modifies this`refs
      ensures Resolves(old(refs), refs, xref, IndividualRef(rec))
      ensures old(refs).Keys <= refs.Keys
      ensures Keyed(old(refs)) ==> Keyed(refs) && rec.xref == xref
      ensures Quiet(this)
      ensures Creates(old(refs), xref, IndividualRef(rec)) ==> fresh(rec) && rec.fields == IndividualFields()
    {
      if xref == "" {
        return new IndividualRecord("");
      }
      if xref in refs && refs[xref].IndividualRef? {
        return refs[xref].individual;
      }
      rec := new IndividualRecord(xref);
      refs := refs[rec.xref := IndividualRef(rec)];
    }

    method Family(xref: string) returns (rec: FamilyRecord)
      modifies this`refs
      ensures Resolves(old(refs), refs, xref, FamilyRef(rec))
      ensures old(refs).Keys <= refs.Keys
      ensures Keyed(old(refs)) ==> Keyed(refs) && rec.xref == xref
      ensures Quiet(this)
      ensures Creates(old(refs), xref, FamilyRef(rec)) ==> fresh(rec) && rec.fields == FamilyFields()
    {
      if xref == "" {
        return new FamilyRecord("");
      }
      if xref in refs && refs[xref].FamilyRef? {
        return refs[xref].family;
      }
      rec := new FamilyRecord(xref);
      refs := refs[rec.xref := FamilyRef(rec)];
    }

    method Repository(xref: string) returns (rec: RepositoryRecord)
      modifies this`refs
      ensures Resolves(old(refs), refs, xref, RepositoryRef(rec))
      ensures old(refs).Keys <= refs.Keys
      ensures Keyed(old(refs)) ==> Keyed(refs) && rec.xref == xref
      ensures Quiet(this)
      ensures Creates(old(refs), xref, RepositoryRef(rec)) ==> fresh(rec)
    {
      if xref == "" {
        return new RepositoryRecord("");
      }
      if xref in refs && refs[xref].RepositoryRef? {
        return refs[xref].repository;
      }
      rec := new RepositoryRecord(xref);
      refs := refs[rec.xref := RepositoryRef(rec)];
    }

    method Source(xref: string) returns (rec: SourceRecord)
      modifies this`refs
      ensures Resolves(old(refs), refs, xref, SourceRef(rec))
      ensures old(refs).Keys <= refs.Keys
      ensures Keyed(old(refs)) ==> Keyed(refs) && rec.xref == xref
      ensures Quiet(this)
      ensures Creates(old(refs), xref, SourceRef(rec)) ==> fresh(rec) && rec.fields == SourceFields()
    {
      if xref == "" {
        return new SourceRecord("");
      }
      if xref in refs && refs[xref].SourceRef? {
        return refs[xref].source;
      }
      rec := new SourceRecord(xref);
      refs := refs[rec.xref := SourceRef(rec)];
    }

    method Submitter(xref: string) returns (rec: SubmitterRecord)
      modifies this`refs
      ensures Resolves(old(refs), refs, xref, SubmitterRef(rec))
      ensures old(refs).Keys <= refs.Keys
      ensures Keyed(old(refs)) ==> Keyed(refs) && rec.xref == xref
      ensures Quiet(this)
      ensures Creates(old(refs), xref, SubmitterRef(rec)) ==> fresh(rec) && rec.fields == SubmitterFields()
    {
      if xref == "" {
        return new SubmitterRecord("");
      }
      if xref in refs && refs[xref].SubmitterRef? {
        return refs[xref].submitter;
      }
      rec := new SubmitterRecord(xref);
      refs := refs[rec.xref := SubmitterRef(rec)];
    }

    method Submission(xref: string) returns (rec: SubmissionRecord)
      modifies this`refs
      ensures Resolves(old(refs), refs, xref, SubmissionRef(rec))
      ensures old(refs).Keys <= refs.Keys
      ensures Keyed(old(refs)) ==> Keyed(refs) && rec.xref == xref
      ensures Quiet(this)
      ensures Creates(old(refs), xref, SubmissionRef(rec)) ==> fresh(rec) && rec.fields == SubmissionFields()
    {
      if xref == "" {
        return new SubmissionRecord("");
      }
      if xref in refs && refs[xref].SubmissionRef? {
        return refs[xref].submission;
      }
      rec := new SubmissionRecord(xref);
      refs := refs[rec.xref := SubmissionRef(rec)];
    }

    method Note(xref: string) returns (rec: NoteRecord)
      modifies this`refs
      ensures Resolves(old(refs), refs, xref, NoteRef(rec))
      ensures old(refs).Keys <= refs.Keys
      ensures Keyed(old(refs)) ==> Keyed(refs) && rec.xref == xref
      ensures Quiet(this)
      ensures Creates(old(refs), xref, NoteRef(rec)) ==> fresh(rec) && rec.fields == NoteFields()
    {
      if xref == "" {
        return new NoteRecord("", "");
      }
      if xref in refs && refs[xref].NoteRef? {
        return refs[xref].note;
      }
      rec := new NoteRecord(xref, "");
      refs := refs[rec.xref := NoteRef(rec)];
    }

    method Object(xref: string) returns (rec: ObjectRecord)
      modifies this`refs
      ensures Resolves(old(refs), refs, xref, ObjectRef(rec))
      ensures old(refs).Keys <= refs.Keys
      ensures Keyed(old(refs)) ==> Keyed(refs) && rec.xref == xref
      ensures Quiet(this)
      ensures Creates(old(refs), xref, ObjectRef(rec)) ==> fresh(rec) && rec.fields == ObjectFields()
    {
      if xref == "" {
        return new ObjectRecord("");
      }
      if xref in refs && refs[xref].ObjectRef? {
        return refs[xref].obj;
      }
      rec := new ObjectRecord(xref);
      refs := refs[rec.xref := ObjectRef(rec)];
    }
  }

  // ---------------------------------------------------------------------------
  // Properties of the registry

  /** Whether a getter for the kind of `r` creates a record for `xref` instead of
      returning a registered one: always for "", and when the id is unregistered or
      registered with a record of another kind (the type assertion fails). */
  predicate Creates(m: map<string, Ref>, xref: string, r: Ref)
  {
    xref == "" || !(xref in m && SameKind(m[xref], r))
  }

  /** The registry `m0` before and `m1` after a getter call for `xref` that returned
      `r`: "" gives a record with an empty id and leaves the registry alone; an id
      registered with a record of the same kind gives that record; any other id gives
      a record with that id, registered under it. */
  predicate Resolves(m0: map<string, Ref>, m1: map<string, Ref>, xref: string, r: Ref)
  {
    if xref == "" then
      RefXref(r) == "" && m1 == m0
    else if xref in m0 && SameKind(m0[xref], r) then
      r == m0[xref] && m1 == m0
    else
      RefXref(r) == xref && m1 == m0[xref := r]
  }

  /** Every record is registered under its own id. */
  predicate Keyed(m: map<string, Ref>)
  {
    forall k | k in m :: RefXref(m[k]) == k
  }

  /** The getters keep every record registered under its own id, so a non-empty id
      always yields a record whose id is that id. */
  lemma ResolvesKeyed(m0: map<string, Ref>, m1: map<string, Ref>, xref: string, r: Ref)
    requires Keyed(m0) && Resolves(m0, m1, xref, r)
    ensures Keyed(m1)
    ensures RefXref(r) == xref
  {
    if xref != "" && !(xref in m0 && SameKind(m0[xref], r)) {
      forall k | k in m1 ensures RefXref(m1[k]) == k {
        if k != xref {
          assert m1[k] == m0[k];
        }
      }
    }
  }

  /** A non-empty id is registered after the call, mapped to the record returned. */
  lemma ResolvesRegisters(m0: map<string, Ref>, m1: map<string, Ref>, xref: string, r: Ref)
    requires xref != "" && Resolves(m0, m1, xref, r)
    ensures xref in m1 && m1[xref] == r
  {
  }

  /** Asking again for the same kind and id returns the identical record and changes
      nothing: one instance per id and kind. */
  lemma ResolvesAgain(m0: map<string, Ref>, m1: map<string, Ref>, m2: map<string, Ref>, xref: string, r1: Ref, r2: Ref)
    requires xref != "" && Resolves(m0, m1, xref, r1) && Resolves(m1, m2, xref, r2) && SameKind(r1, r2)
    ensures r2 == r1 && m2 == m1
  {
    ResolvesRegisters(m0, m1, xref, r1);
  }

  /** Entries are never removed, and every other id keeps its entry. */
  lemma ResolvesKeeps(m0: map<string, Ref>, m1: map<string, Ref>, xref: string, r: Ref)
    requires Resolves(m0, m1, xref, r)
    ensures m0.Keys <= m1.Keys
    ensures forall k | k in m0 && k != xref :: k in m1 && m1[k] == m0[k]
  {
  }

  /** An id held by a record of another kind is taken over by the new record. */
  lemma ResolvesReplaces(m0: map<string, Ref>, m1: map<string, Ref>, xref: string, r: Ref)
    requires xref != "" && xref in m0 && !SameKind(m0[xref], r) && Resolves(m0, m1, xref, r)
    ensures m1[xref] == r && m1[xref] != m0[xref]
  {
  }

  // ---------------------------------------------------------------------------
  // What one tag table does to the decoder

  /** What every tag table may do to the decoder when it runs for `line`: it removes
      no registry entry, keeps every record registered under its own id, and either leaves the stack and the callback log alone or
      opens exactly one context, at the line's level, above the old stack, and not a
      text table on a data record's text element (only the data table opens those);
      the callback is called at most once, and only together with a slurk context. */
  twostate predicate Step(d: Decoder, line: Line)
    reads d
  {
    && old(d.refs).Keys <= d.refs.Keys
    && (Keyed(old(d.refs)) ==> Keyed(d.refs))
    && (|| Quiet(d)
        || (&& |d.parsers| == |old(d.parsers)| + 1
            && d.parsers[..|old(d.parsers)|] == old(d.parsers)
            && Top(d.parsers).Open?
            && Top(d.parsers).minLevel == line.level
            && !OpensDataText(Top(d.parsers))
            && (|| d.unrecognized == old(d.unrecognized)
                || (d.unrecognized == old(d.unrecognized) + [line] && Top(d.parsers).table == SlurkTable))))
  }


  /** Neither the stack nor the callback log changed. */
  twostate predicate Quiet(d: Decoder, base: seq<Context> := old(d.parsers))
    reads d
  {
    d.parsers == base && d.unrecognized == old(d.unrecognized)
  }

  /** A tag table with nothing to do for the line. */
  twostate predicate Kept(d: Decoder, base: seq<Context> := old(d.parsers))
    reads d
  {
    d.parsers == base && d.unrecognized == old(d.unrecognized) && d.refs == old(d.refs)
  }

  /** A tag table that opened one child context at `level` and called nothing. */
  twostate predicate Pushed(d: Decoder, new t: Table, level: int, base: seq<Context> := old(d.parsers))
    reads d
  {
    d.parsers == base + [Open(t, level)] && d.unrecognized == old(d.unrecognized)
  }

  /** The unrecognised-tag branch: one callback, one slurk context, no registry change. */
  twostate predicate Skipped(d: Decoder, line: Line, base: seq<Context> := old(d.parsers))
    reads d
  {
    && d.parsers == base + [Open(SlurkTable, line.level)]
    && d.unrecognized == old(d.unrecognized) + [line]
    && d.refs == old(d.refs)
  }

  /** A tag table that opened one child context and left the registry alone. */
  twostate predicate Opened(d: Decoder, new t: Table, level: int, base: seq<Context> := old(d.parsers))
    reads d
  {
    Pushed(d, t, level, base) && d.refs == old(d.refs)
  }

  function Last<T>(s: seq<T>): T
    requires s != []
  {
    s[|s| - 1]
  }

  // ---------------------------------------------------------------------------
  // The child records a tag table creates and opens a context on

  /** The objects of the last citation of a list: the citation and its embedded data. */
  function LastCitationObjects(cs: seq<CitationRecord>): set<object>
  {
    if cs == [] then {} else {Last(cs), Last(cs).data}
  }

  /** The objects of an event, if there is one: the event and its embedded place
      and address. */
  function EventObjects(e: EventRecord?): set<object>
  {
    if e == null then {} else {e, e.place, e.address}
  }

  /** The objects of the last event of a list. */
  function LastEventObjects(es: seq<EventRecord>): set<object>
  {
    if es == [] then {} else EventObjects(Last(es))
  }

  /** `&CitationRecord{Source: d.source(stripXref(value))}` with its context opened. */
  twostate predicate NewCitation(d: Decoder, new c: CitationRecord, value: string, level: int, base: seq<Context> := old(d.parsers))
    reads d, c, c.data
  {
    && fresh(c) && fresh(c.data)
    && c.fields == CitationFields() && c.data.fields == DataFields()
    && Resolves(old(d.refs), d.refs, StripXref(value), SourceRef(c.source))
    && Pushed(d, CitationTable(c), level, base)
  }

  /** `&NoteRecord{Note: value}` with its context opened. */
  twostate predicate NewInlineNote(d: Decoder, new n: NoteRecord, value: string, level: int, base: seq<Context> := old(d.parsers))
    reads d, n
  {
    && fresh(n) && n.xref == "" && n.fields == NoteFields(note := value)
    && Opened(d, NoteTable(n), level, base)
  }

  /** `&EventRecord{Tag: tag, Value: value}` with its context opened. */
  twostate predicate NewEvent(d: Decoder, new e: EventRecord, tag: string, value: string, level: int, base: seq<Context> := old(d.parsers))
    reads d, e, e.place, e.address
  {
    && fresh(e) && fresh(e.place) && fresh(e.address)
    && e.tag == tag && e.value == value && e.fields == EventFields()
    && e.place.fields == PlaceFields() && e.address.fields == AddressFields()
    && Opened(d, EventTable(e), level, base)
  }

  /** `&FamilyLinkRecord{Family: d.family(stripXref(value))}` with its context opened. */
  twostate predicate NewLink(d: Decoder, new f: FamilyLinkRecord, value: string, level: int, base: seq<Context> := old(d.parsers))
    reads d, f
  {
    && fresh(f) && f.fields == FamilyLinkFields()
    && Resolves(old(d.refs), d.refs, StripXref(value), FamilyRef(f.family))
    && Pushed(d, FamilyLinkTable(f), level, base)
  }

  /** A pointer NOTE resolves through the registry and opens nothing; an inline
      NOTE is a new note whose context is opened. */
  twostate predicate NoteResolved(d: Decoder, new n: NoteRecord, value: string, level: int, base: seq<Context> := old(d.parsers))
    reads d, n
  {
    && value != ""
    && if IsPointer(value) then
         Resolves(old(d.refs), d.refs, StripXref(value), NoteRef(n)) && Quiet(d, base)
       else
         NewInlineNote(d, n, value, level, base)
  }

  /** The same for OBJE: a pointer resolves, anything else is a new inline object. */
  twostate predicate ObjectResolved(d: Decoder, new o: ObjectRecord, value: string, level: int, base: seq<Context> := old(d.parsers))
    reads d, o
  {
    && value != ""
    && if IsPointer(value) then
         Resolves(old(d.refs), d.refs, StripXref(value), ObjectRef(o)) && Quiet(d, base)
       else
         fresh(o) && o.xref == "" && o.fields == ObjectFields() && Opened(d, ObjectTable(o), level, base)
  }

  // ---------------------------------------------------------------------------
  // Values that are either a pointer or an inline record (NOTE, OBJE, CAUS).
  // `value[0:1]` panics on an empty value before anything changes; each tag table
  // returns `Panic(SliceOutOfRange)` for it and calls these only on non-empty values.

  /** `value[0:1] == "@"` on a value that is at least one byte long. */
  predicate IsPointer(value: string)
    requires value != ""
  {
    value[0] == '@'
  }

  /** A non-empty NOTE value: a pointer (first byte `@`) resolves through the
      registry, anything else opens an inline record. */
  method ResolveNote(d: Decoder, line: Line) returns (n: NoteRecord)
    requires line.value != ""
    modifies d`refs, d`parsers
    ensures NoteResolved(d, n, line.value, line.level)
    ensures Step(d, line)
  {
    if IsPointer(line.value) {
      n := d.Note(StripXref(line.value));
    } else {
      n := OpenInlineNote(d, line);
    }
  }

  /** A non-empty OBJE value: a pointer (first byte `@`) resolves through the
      registry, anything else opens an inline record. */
  method ResolveObject(d: Decoder, line: Line) returns (o: ObjectRecord)
    requires line.value != ""
    modifies d`refs, d`parsers
    ensures ObjectResolved(d, o, line.value, line.level)
    ensures Step(d, line)
  {
    if IsPointer(line.value) {
      o := d.Object(StripXref(line.value));
    } else {
      o := OpenInlineObject(d, line);
    }
  }

  // ---------------------------------------------------------------------------
  // Child records shared by several tag tables

  /** An inline OBJE: `&ObjectRecord{}` and its context. */
  method OpenInlineObject(d: Decoder, line: Line) returns (o: ObjectRecord)
    modifies d`parsers
    ensures fresh(o) && o.xref == "" && o.fields == ObjectFields() && Opened(d, ObjectTable(o), line.level)
    ensures Step(d, line)
  {
    o := new ObjectRecord("");
    d.OpenChild(ObjectTable(o), line);
  }

  /** SOUR under a record: `&CitationRecord{Source: d.source(stripXref(value))}`
      and its context. */
  method OpenCitation(d: Decoder, line: Line) returns (c: CitationRecord)
    modifies d`refs, d`parsers
    ensures NewCitation(d, c, line.value, line.level)
    ensures Step(d, line)
  {
    var source := d.Source(StripXref(line.value));
    c := new CitationRecord(source);
    d.OpenChild(CitationTable(c), line);
  }

  /** FAMC or FAMS: `&FamilyLinkRecord{Family: d.family(stripXref(value))}` and its
      context. */
  method OpenFamilyLink(d: Decoder, line: Line) returns (f: FamilyLinkRecord)
    modifies d`refs, d`parsers
    ensures NewLink(d, f, line.value, line.level)
    ensures Step(d, line)
  {
    var family := d.Family(StripXref(line.value));
    f := new FamilyLinkRecord(family);
    d.OpenChild(FamilyLinkTable(f), line);
  }

  /** A NOTE that is always inline: `&NoteRecord{Note: value}` and its context. */
  method OpenInlineNote(d: Decoder, line: Line) returns (n: NoteRecord)
    modifies d`parsers
    ensures NewInlineNote(d, n, line.value, line.level)
    ensures Step(d, line)
  {
    n := new NoteRecord("", line.value);
    d.OpenChild(NoteTable(n), line);
  }

  /** An event or attribute tag: `&EventRecord{Tag: tag, Value: value}` and its
      context. */
  method OpenEvent(d: Decoder, line: Line) returns (e: EventRecord)
    modifies d`parsers
    ensures NewEvent(d, e, Name(line.tag), line.value, line.level)
    ensures Step(d, line)
  {
    e := new EventRecord(Name(line.tag), line.value);
    d.OpenChild(EventTable(e), line);
  }
}
