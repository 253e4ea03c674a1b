/** The tag tables of individuals, families and their events (decoder.go
    `makeIndividualParser`, `makeFamilyParser`, `makeEventParser` and the parsers
    they open). As in the header tables, each method is the body of a parser
    closure for a line deeper than the context's `minLevel`. The three large tables
    are specified by a predicate over the old and new state and handle their tags in
    groups. */
module PeopleTables {
  import opened Strings
  import opened SortDate
  import opened Records
  import opened Contexts
  import opened Engine
  import opened Tags

  // ---------------------------------------------------------------------------
  // Small tables

  /** What the child table does with one line. */
  twostate predicate ChildParsed(d: Decoder, r: ChildRecord, line: Line, base: seq<Context> := old(d.parsers))
    reads d, r
  {
    if line.tag.UserFREL? then r.fields == old(r.fields).(fatherRelation := line.value) && Kept(d, base)
    else if line.tag.UserMREL? then r.fields == old(r.fields).(motherRelation := line.value) && Kept(d, base)
    else r.fields == old(r.fields) && Skipped(d, line, base)
  }

  method ParseChild(d: Decoder, r: ChildRecord, line: Line)
    modifies d, r
    ensures ChildParsed(d, r, line)
    ensures Step(d, line)
  {
    if line.tag.UserFREL? {
      r.fields := r.fields.(fatherRelation := line.value);
    } else if line.tag.UserMREL? {
      r.fields := r.fields.(motherRelation := line.value);
    } else {
      d.Unrecognized(line);
    }
  }

  /** What the family link table does with one line. */
  twostate predicate FamilyLinkParsed(d: Decoder, f: FamilyLinkRecord, line: Line, base: seq<Context> := old(d.parsers))
    reads d, f, f.fields.note
  {
    if line.tag.PEDI? then f.fields == old(f.fields).(pedigree := line.value) && Kept(d, base)
    else if line.tag.ADOP? then f.fields == old(f.fields).(adoptedBy := line.value) && Kept(d, base)
    else if line.tag.NOTE? then
      && f.fields.note != [] && f.fields == old(f.fields).(note := old(f.fields.note) + [Last(f.fields.note)])
      && NewInlineNote(d, Last(f.fields.note), line.value, line.level, base)
    else f.fields == old(f.fields) && Skipped(d, line, base)
  }

  method ParseFamilyLink(d: Decoder, f: FamilyLinkRecord, line: Line)
    modifies d, f
    ensures FamilyLinkParsed(d, f, line)
    ensures Step(d, line)
  {
    if line.tag.PEDI? {
      f.fields := f.fields.(pedigree := line.value);
    } else if line.tag.ADOP? {
      f.fields := f.fields.(adoptedBy := line.value);
    } else if line.tag.NOTE? {
      var n := OpenInlineNote(d, line);
      f.fields := f.fields.(note := f.fields.note + [n]);
    } else {
      d.Unrecognized(line);
    }
  }

  /** What the name table does with one line. */
  twostate predicate NameParsed(d: Decoder, n: NameRecord, line: Line, base: seq<Context> := old(d.parsers))
    reads d, n, LastCitationObjects(n.fields.citation), n.fields.note
  {
    if line.tag.NSFX? then n.fields == old(n.fields).(suffix := line.value) && Kept(d, base)
    else if line.tag.NPFX? then n.fields == old(n.fields).(prefix := line.value) && Kept(d, base)
    else if line.tag.SOUR? then
      && n.fields.citation != [] && n.fields == old(n.fields).(citation := old(n.fields.citation) + [Last(n.fields.citation)])
      && NewCitation(d, Last(n.fields.citation), line.value, line.level, base)
    else if line.tag.NOTE? then
      && n.fields.note != [] && n.fields == old(n.fields).(note := old(n.fields.note) + [Last(n.fields.note)])
      && NewInlineNote(d, Last(n.fields.note), line.value, line.level, base)
    else n.fields == old(n.fields) && Skipped(d, line, base)
  }

  method ParseName(d: Decoder, n: NameRecord, line: Line)
    modifies d, n
    ensures NameParsed(d, n, line)
    ensures Step(d, line)
  {
    if line.tag.NSFX? {
      n.fields := n.fields.(suffix := line.value);
    } else if line.tag.NPFX? {
      n.fields := n.fields.(prefix := line.value);
    } else if line.tag.SOUR? {
      var c := OpenCitation(d, line);
      n.fields := n.fields.(citation := n.fields.citation + [c]);
    } else if line.tag.NOTE? {
      var r := OpenInlineNote(d, line);
      n.fields := n.fields.(note := n.fields.note + [r]);
    } else {
      d.Unrecognized(line);
    }
  }

  /** What the place table does with one line. */
  twostate predicate PlaceParsed(d: Decoder, p: PlaceRecord, line: Line, base: seq<Context> := old(d.parsers))
    reads d, p, LastCitationObjects(p.fields.citation), p.fields.note
  {
    if line.tag.SOUR? then
      && p.fields.citation != [] && p.fields == old(p.fields).(citation := old(p.fields.citation) + [Last(p.fields.citation)])
      && NewCitation(d, Last(p.fields.citation), line.value, line.level, base)
    else if line.tag.NOTE? then
      && p.fields.note != [] && p.fields == old(p.fields).(note := old(p.fields.note) + [Last(p.fields.note)])
      && NewInlineNote(d, Last(p.fields.note), line.value, line.level, base)
    else if line.tag.MAP? then p.fields == old(p.fields) && Opened(d, MapTable(p), line.level, base)
    else p.fields == old(p.fields) && Skipped(d, line, base)
  }

  method ParsePlace(d: Decoder, p: PlaceRecord, line: Line)
    modifies d, p
    ensures PlaceParsed(d, p, line)
    ensures Step(d, line)
  {
    if line.tag.SOUR? {
      var c := OpenCitation(d, line);
      p.fields := p.fields.(citation := p.fields.citation + [c]);
    } else if line.tag.NOTE? {
      var n := OpenInlineNote(d, line);
      p.fields := p.fields.(note := p.fields.note + [n]);
    } else if line.tag.MAP? {
      d.OpenChild(MapTable(p), line);
    } else {
      d.Unrecognized(line);
    }
  }

  /** What the map table does with one line. */
  twostate predicate MapParsed(d: Decoder, p: PlaceRecord, line: Line, base: seq<Context> := old(d.parsers))
    reads d, p
  {
    if line.tag.LATI? then p.fields == old(p.fields).(latitude := line.value) && Kept(d, base)
    else if line.tag.LONG? then p.fields == old(p.fields).(longitude := line.value) && Kept(d, base)
    else p.fields == old(p.fields) && Skipped(d, line, base)
  }

  /** The map table writes the coordinates into the place it was opened for. */
  method ParseMap(d: Decoder, p: PlaceRecord, line: Line)
    modifies d, p
    ensures MapParsed(d, p, line)
    ensures Step(d, line)
  {
    if line.tag.LATI? {
      p.fields := p.fields.(latitude := line.value);
    } else if line.tag.LONG? {
      p.fields := p.fields.(longitude := line.value);
    } else {
      d.Unrecognized(line);
    }
  }

  /** What the spouse table does with one line. */
  twostate predicate SpouseInfoParsed(d: Decoder, r: SpouseInfoRecord, line: Line, base: seq<Context> := old(d.parsers))
    reads d, r
  {
    if line.tag.AGE? then r.fields == old(r.fields).(age := line.value) && Kept(d, base)
    else r.fields == old(r.fields) && Skipped(d, line, base)
  }

  method ParseSpouseInfo(d: Decoder, r: SpouseInfoRecord, line: Line)
    modifies d, r
    ensures SpouseInfoParsed(d, r, line)
    ensures Step(d, line)
  {
    if line.tag.AGE? {
      r.fields := r.fields.(age := line.value);
    } else {
      d.Unrecognized(line);
    }
  }

  // ---------------------------------------------------------------------------
  // Events

  /** What the event table (decoder.go:443-504) does with one line. `now` stands
      for the clock reading `getSortDate` falls back on. */
  twostate predicate EventParsed(d: Decoder, e: EventRecord, line: Line, now: Instant, outcome: Outcome, base: seq<Context> := old(d.parsers))
    reads d, e, e.place, e.address, e.fields.spouseInfo, LastCitationObjects(e.fields.citation), e.fields.parents
    reads e.fields.note, e.fields.cause
  {
    && (line.tag.PLAC? || e.place.fields == old(e.place.fields))
    && (line.tag.ADDR? || e.address.fields == old(e.address.fields))
    && if IsEventDetail(line.tag) then outcome == Done && EventDetailSet(d, e, line, now, base)
       else if line.tag.SOUR? || line.tag.FAMC? then outcome == Done && EventLinked(d, e, line, base)
       else if line.tag.NOTE? || line.tag.CAUS? then EventNoted(d, e, line, outcome, base)
       else outcome == Done && e.fields == old(e.fields) && Skipped(d, line, base)
  }

  predicate IsEventDetail(t: Tag)
  {
    t.TYPE? || t.DATE? || t.PLAC? || t.ADDR? || t.HUSB? || t.WIFE?
  }

  /** The event's own fields, its embedded place and address, and its spouse
      details. A dated event gets the sort date of its date. */
  twostate predicate EventDetailSet(d: Decoder, e: EventRecord, line: Line, now: Instant, base: seq<Context> := old(d.parsers))
    reads d, e, e.place, e.address, e.fields.spouseInfo
  {
    if line.tag.TYPE? then e.fields == old(e.fields).(eventType := line.value) && Kept(d, base)
    else if line.tag.DATE? then
      e.fields == old(e.fields).(date := line.value, sortDate := GetSortDate(line.value, now)) && Kept(d, base)
    else if line.tag.PLAC? then
      && e.fields == old(e.fields) && e.place.fields == old(e.place.fields).(name := line.value)
      && Opened(d, PlaceTable(e.place), line.level, base)
    else if line.tag.ADDR? then
      && e.fields == old(e.fields) && e.address.fields == old(e.address.fields).(full := line.value)
      && Opened(d, AddressTable(e.address), line.level, base)
    else
      && e.fields.spouseInfo != [] && e.fields == old(e.fields).(spouseInfo := old(e.fields.spouseInfo) + [Last(e.fields.spouseInfo)])
      && fresh(Last(e.fields.spouseInfo)) && Last(e.fields.spouseInfo).spouse == Name(line.tag)
      && Last(e.fields.spouseInfo).fields == SpouseInfoFields()
      && Opened(d, SpouseInfoTable(Last(e.fields.spouseInfo)), line.level, base)
  }

  /** A citation of a source, and a link to the parents' family, which only a
      birth or an adoption records; FAMC under any other event is ignored. */
  twostate predicate EventLinked(d: Decoder, e: EventRecord, line: Line, base: seq<Context> := old(d.parsers))
    reads d, e, LastCitationObjects(e.fields.citation), e.fields.parents
  {
    if line.tag.SOUR? then
      && e.fields.citation != [] && e.fields == old(e.fields).(citation := old(e.fields.citation) + [Last(e.fields.citation)])
      && NewCitation(d, Last(e.fields.citation), line.value, line.level, base)
    else if e.tag == "BIRT" || e.tag == "ADOP" then
      && e.fields.parents != [] && e.fields == old(e.fields).(parents := old(e.fields.parents) + [Last(e.fields.parents)])
      && NewLink(d, Last(e.fields.parents), line.value, line.level, base)
    else e.fields == old(e.fields) && Kept(d, base)
  }

  /** A note or a cause: a pointer to a shared note or an inline note; an empty
      value panics before anything changes. */
  twostate predicate EventNoted(d: Decoder, e: EventRecord, line: Line, outcome: Outcome, base: seq<Context> := old(d.parsers))
    reads d, e, e.fields.note, e.fields.cause
  {
    if line.value == "" then outcome == Panic(SliceOutOfRange) && e.fields == old(e.fields) && Kept(d, base)
    else if line.tag.NOTE? then
      && outcome == Done && e.fields.note != []
      && e.fields == old(e.fields).(note := old(e.fields.note) + [Last(e.fields.note)])
      && NoteResolved(d, Last(e.fields.note), line.value, line.level, base)
    else
      && outcome == Done && e.fields.cause != []
      && e.fields == old(e.fields).(cause := old(e.fields.cause) + [Last(e.fields.cause)])
      && NoteResolved(d, Last(e.fields.cause), line.value, line.level, base)
  }

  method ParseEvent(d: Decoder, e: EventRecord, line: Line, now: Instant) returns (outcome: Outcome)
    modifies d, e, e.place, e.address
    ensures EventParsed(d, e, line, now, outcome)
    ensures outcome.Panic? ==> outcome == Panic(SliceOutOfRange) && line.value == ""
    ensures Step(d, line)
  {
    outcome := Done;
    if IsEventDetail(line.tag) {
      SetEventDetail(d, e, line, now);
    } else if line.tag.SOUR? || line.tag.FAMC? {
      LinkEvent(d, e, line);
    } else if line.tag.NOTE? || line.tag.CAUS? {
      outcome := NoteEvent(d, e, line);
    } else {
      d.Unrecognized(line);
    }
  }

  method SetEventDetail(d: Decoder, e: EventRecord, line: Line, now: Instant)
    requires IsEventDetail(line.tag)
    modifies d, e, e.place, e.address
    ensures EventDetailSet(d, e, line, now)
    ensures line.tag.PLAC? || e.place.fields == old(e.place.fields)
    ensures line.tag.ADDR? || e.address.fields == old(e.address.fields)
    ensures Step(d, line)
  {
    if line.tag.TYPE? {
      e.fields := e.fields.(eventType := line.value);
    } else if line.tag.DATE? {
      e.fields := e.fields.(date := line.value, sortDate := GetSortDate(line.value, now));
    } else if line.tag.PLAC? {
      e.place.fields := e.place.fields.(name := line.value);
      d.OpenChild(PlaceTable(e.place), line);
    } else if line.tag.ADDR? {
      e.address.fields := e.address.fields.(full := line.value);
      d.OpenChild(AddressTable(e.address), line);
    } else {
      var r := new SpouseInfoRecord(Name(line.tag));
      e.fields := e.fields.(spouseInfo := e.fields.spouseInfo + [r]);
      d.OpenChild(SpouseInfoTable(r), line);
    }
  }

  method LinkEvent(d: Decoder, e: EventRecord, line: Line)
    requires line.tag.SOUR? || line.tag.FAMC?
    modifies d, e
    ensures EventLinked(d, e, line)
    ensures Step(d, line)
  {
    if line.tag.SOUR? {
      var c := OpenCitation(d, line);
      e.fields := e.fields.(citation := e.fields.citation + [c]);
    } else if e.tag == "BIRT" || e.tag == "ADOP" {
      var f := OpenFamilyLink(d, line);
      e.fields := e.fields.(parents := e.fields.parents + [f]);
    }
  }

  method NoteEvent(d: Decoder, e: EventRecord, line: Line) returns (outcome: Outcome)
    requires line.tag.NOTE? || line.tag.CAUS?
    modifies d, e
    ensures EventNoted(d, e, line, outcome)
    ensures Step(d, line)
  {
    if line.value == "" {
      return Panic(SliceOutOfRange);
    }
    var n := ResolveNote(d, line);
    if line.tag.NOTE? {
      e.fields := e.fields.(note := e.fields.note + [n]);
    } else {
      e.fields := e.fields.(cause := e.fields.cause + [n]);
    }
    outcome := Done;
  }

  // ---------------------------------------------------------------------------
  // Families

  /** The family events: each opens an event appended to the family's events. */
  predicate IsFamilyEvent(t: Tag)
  {
    || t.ANUL? || t.CENS? || t.DIV? || t.DIVF? || t.ENGA? || t.MARR? || t.MARB? || t.MARC?
    || t.MARL? || t.MARS? || t.EVEN?
  }

  /** What the family table (decoder.go:530-586) does with one line. */
  twostate predicate FamilyParsed(d: Decoder, f: FamilyRecord, line: Line, outcome: Outcome, base: seq<Context> := old(d.parsers))
    reads d, f, f.fields.child, LastCitationObjects(f.fields.citation), LastEventObjects(f.fields.event)
    reads EventObjects(f.fields.numberOfChildren), f.fields.changed, f.fields.objects, f.fields.note
  {
    if line.tag.HUSB? || line.tag.WIFE? then outcome == Done && FamilySpouseSet(d, f, line, base)
    else if line.tag.CHIL? || line.tag.SOUR? then outcome == Done && FamilyChildOrCitation(d, f, line, base)
    else if IsFamilyEvent(line.tag) || line.tag.NCHI? || line.tag.CHAN? then outcome == Done && FamilyEventAdded(d, f, line, base)
    else if line.tag.OBJE? || line.tag.NOTE? then FamilyPointerAdded(d, f, line, outcome, base)
    else outcome == Done && f.fields == old(f.fields) && Skipped(d, line, base)
  }

  /** HUSB and WIFE look the individual up by id. */
  twostate predicate FamilySpouseSet(d: Decoder, f: FamilyRecord, line: Line, base: seq<Context> := old(d.parsers))
    reads d, f
  {
    if line.tag.HUSB? then
      && f.fields.husband != null && f.fields == old(f.fields).(husband := f.fields.husband)
      && Resolves(old(d.refs), d.refs, StripXref(line.value), IndividualRef(f.fields.husband)) && Quiet(d, base)
    else
      && f.fields.wife != null && f.fields == old(f.fields).(wife := f.fields.wife)
      && Resolves(old(d.refs), d.refs, StripXref(line.value), IndividualRef(f.fields.wife)) && Quiet(d, base)
  }

  /** CHIL wraps the individual it looks up in a new child record; SOUR cites a source. */
  twostate predicate FamilyChildOrCitation(d: Decoder, f: FamilyRecord, line: Line, base: seq<Context> := old(d.parsers))
    reads d, f, f.fields.child, LastCitationObjects(f.fields.citation)
  {
    if line.tag.CHIL? then
      && f.fields.child != [] && f.fields == old(f.fields).(child := old(f.fields.child) + [Last(f.fields.child)])
      && NewChild(d, Last(f.fields.child), line.value, line.level, base)
    else
      && f.fields.citation != [] && f.fields == old(f.fields).(citation := old(f.fields.citation) + [Last(f.fields.citation)])
      && NewCitation(d, Last(f.fields.citation), line.value, line.level, base)
  }

  /** A family event joins the event list; NCHI replaces the number of children;
      CHAN replaces the change record. */
  twostate predicate FamilyEventAdded(d: Decoder, f: FamilyRecord, line: Line, base: seq<Context> := old(d.parsers))
    reads d, f, LastEventObjects(f.fields.event), EventObjects(f.fields.numberOfChildren), f.fields.changed
  {
    if IsFamilyEvent(line.tag) then
      && f.fields.event != [] && f.fields == old(f.fields).(event := old(f.fields.event) + [Last(f.fields.event)])
      && NewEvent(d, Last(f.fields.event), Name(line.tag), line.value, line.level, base)
    else if line.tag.NCHI? then
      && f.fields.numberOfChildren != null && f.fields == old(f.fields).(numberOfChildren := f.fields.numberOfChildren)
      && NewEvent(d, f.fields.numberOfChildren, Name(line.tag), line.value, line.level, base)
    else
      && f.fields.changed != null && f.fields == old(f.fields).(changed := f.fields.changed)
      && fresh(f.fields.changed) && f.fields.changed.fields == ChangedFields()
      && Opened(d, ChangedTable(f.fields.changed), line.level, base)
  }

  /** OBJE and NOTE: a pointer to a shared record or an inline one; an empty value
      panics before anything changes. */
  twostate predicate FamilyPointerAdded(d: Decoder, f: FamilyRecord, line: Line, outcome: Outcome, base: seq<Context> := old(d.parsers))
    reads d, f, f.fields.objects, f.fields.note
  {
    if line.value == "" then outcome == Panic(SliceOutOfRange) && f.fields == old(f.fields) && Kept(d, base)
    else if line.tag.OBJE? then
      && outcome == Done && f.fields.objects != []
      && f.fields == old(f.fields).(objects := old(f.fields.objects) + [Last(f.fields.objects)])
      && ObjectResolved(d, Last(f.fields.objects), line.value, line.level, base)
    else
      && outcome == Done && f.fields.note != []
      && f.fields == old(f.fields).(note := old(f.fields.note) + [Last(f.fields.note)])
      && NoteResolved(d, Last(f.fields.note), line.value, line.level, base)
  }

  /** `&ChildRecord{Person: d.individual(stripXref(value))}` with its context opened. */
  twostate predicate NewChild(d: Decoder, new c: ChildRecord, value: string, level: int, base: seq<Context> := old(d.parsers))
    reads d, c
  {
    && fresh(c) && c.fields == ChildFields()
    && Resolves(old(d.refs), d.refs, StripXref(value), IndividualRef(c.person))
    && Pushed(d, ChildTable(c), level, base)
  }

  method OpenChildRecord(d: Decoder, line: Line) returns (c: ChildRecord)
    modifies d`refs, d`parsers
    ensures NewChild(d, c, line.value, line.level)
    ensures Step(d, line)
  {
    var person := d.Individual(StripXref(line.value));
    c := new ChildRecord(person);
    d.OpenChild(ChildTable(c), line);
  }

  method ParseFamily(d: Decoder, f: FamilyRecord, line: Line) returns (outcome: Outcome)
    modifies d, f
    ensures FamilyParsed(d, f, line, outcome)
    ensures outcome.Panic? ==> outcome == Panic(SliceOutOfRange) && line.value == ""
    ensures Step(d, line)
  {
    outcome := Done;
    if line.tag.HUSB? || line.tag.WIFE? {
      SetFamilySpouse(d, f, line);
    } else if line.tag.CHIL? || line.tag.SOUR? {
      AddFamilyChildOrCitation(d, f, line);
    } else if IsFamilyEvent(line.tag) || line.tag.NCHI? || line.tag.CHAN? {
      AddFamilyEvent(d, f, line);
    } else if line.tag.OBJE? || line.tag.NOTE? {
      outcome := AddFamilyPointer(d, f, line);
    } else {
      d.Unrecognized(line);
    }
  }

  method SetFamilySpouse(d: Decoder, f: FamilyRecord, line: Line)
    requires line.tag.HUSB? || line.tag.WIFE?
    modifies d, f
    ensures FamilySpouseSet(d, f, line)
    ensures Step(d, line)
  {
    var person := d.Individual(StripXref(line.value));
    if line.tag.HUSB? {
      f.fields := f.fields.(husband := person);
    } else {
      f.fields := f.fields.(wife := person);
    }
  }

  method AddFamilyChildOrCitation(d: Decoder, f: FamilyRecord, line: Line)
    requires line.tag.CHIL? || line.tag.SOUR?
    modifies d, f
    ensures FamilyChildOrCitation(d, f, line)
    ensures Step(d, line)
  {
    if line.tag.CHIL? {
      var c := OpenChildRecord(d, line);
      f.fields := f.fields.(child := f.fields.child + [c]);
    } else {
      var c := OpenCitation(d, line);
      f.fields := f.fields.(citation := f.fields.citation + [c]);
    }
  }

  method AddFamilyEvent(d: Decoder, f: FamilyRecord, line: Line)
    requires IsFamilyEvent(line.tag) || line.tag.NCHI? || line.tag.CHAN?
    modifies d, f
    ensures FamilyEventAdded(d, f, line)
    ensures Step(d, line)
  {
    if IsFamilyEvent(line.tag) {
      var e := OpenEvent(d, line);
      f.fields := f.fields.(event := f.fields.event + [e]);
    } else if line.tag.NCHI? {
      var e := OpenEvent(d, line);
      f.fields := f.fields.(numberOfChildren := e);
    } else {
      var c := new ChangedRecord();
      f.fields := f.fields.(changed := c);
      d.OpenChild(ChangedTable(c), line);
    }
  }

  method AddFamilyPointer(d: Decoder, f: FamilyRecord, line: Line) returns (outcome: Outcome)
    requires line.tag.OBJE? || line.tag.NOTE?
    modifies d, f
    ensures FamilyPointerAdded(d, f, line, outcome)
    ensures Step(d, line)
  {
    if line.value == "" {
      return Panic(SliceOutOfRange);
    }
    var fields := f.fields;
    if line.tag.OBJE? {
      var o := ResolveObject(d, line);
      fields := fields.(objects := fields.objects + [o]);
    } else {
      var n := ResolveNote(d, line);
      fields := fields.(note := fields.note + [n]);
    }
    f.fields := fields;
    outcome := Done;
  }

  // ---------------------------------------------------------------------------
  // Individuals

  /** The individual events: each opens an event appended to the events. */
  predicate IsIndividualEvent(t: Tag)
  {
    || t.BIRT? || t.CHR? || t.DEAT? || t.BURI? || t.CREM? || t.ADOP? || t.BAPM? || t.BARM?
    || t.BASM? || t.BLES? || t.CHRA? || t.CONF? || t.FCOM? || t.ORDN? || t.NATU? || t.EMIG?
    || t.IMMI? || t.CENS? || t.PROB? || t.WILL? || t.GRAD? || t.RETI? || t.EVEN?
  }

  /** The individual attributes: each opens an event appended to the attributes. */
  predicate IsAttribute(t: Tag)
  {
    || t.CAST? || t.DSCR? || t.EDUC? || t.IDNO? || t.NATI? || t.NCHI? || t.NMR? || t.OCCU?
    || t.PROP? || t.RELI? || t.RESI? || t.SSN? || t.TITL? || t.FACT? || t.UserMILT?
  }

  /** What the individual table (decoder.go:719-789) does with one line. */
  twostate predicate IndividualParsed(d: Decoder, i: IndividualRecord, line: Line, outcome: Outcome, base: seq<Context> := old(d.parsers))
    reads d, i, i.fields.name, LastEventObjects(i.fields.event), LastEventObjects(i.fields.attribute), i.fields.changed
    reads i.fields.parents, i.fields.family, LastCitationObjects(i.fields.citation), i.fields.objects, i.fields.note
  {
    if line.tag.NAME? || line.tag.SEX? || IsIndividualEvent(line.tag) || IsAttribute(line.tag) || line.tag.CHAN? then
      outcome == Done && IndividualFactAdded(d, i, line, base)
    else if line.tag.FAMC? || line.tag.FAMS? then outcome == Done && IndividualLinked(d, i, line, base)
    else if line.tag.SOUR? || line.tag.UserPHOTO? then outcome == Done && IndividualSourced(d, i, line, base)
    else if line.tag.OBJE? || line.tag.NOTE? then IndividualPointerAdded(d, i, line, outcome, base)
    else outcome == Done && i.fields == old(i.fields) && Skipped(d, line, base)
  }

  /** Names, sex, events, attributes and the change record. */
  twostate predicate IndividualFactAdded(d: Decoder, i: IndividualRecord, line: Line, base: seq<Context> := old(d.parsers))
    reads d, i, i.fields.name, LastEventObjects(i.fields.event), LastEventObjects(i.fields.attribute), i.fields.changed
  {
    if line.tag.NAME? then
      && i.fields.name != [] && i.fields == old(i.fields).(name := old(i.fields.name) + [Last(i.fields.name)])
      && fresh(Last(i.fields.name)) && Last(i.fields.name).name == line.value && Last(i.fields.name).fields == NameFields()
      && Opened(d, NameTable(Last(i.fields.name)), line.level, base)
    else if line.tag.SEX? then i.fields == old(i.fields).(sex := line.value) && Kept(d, base)
    else if IsIndividualEvent(line.tag) then
      && i.fields.event != [] && i.fields == old(i.fields).(event := old(i.fields.event) + [Last(i.fields.event)])
      && NewEvent(d, Last(i.fields.event), Name(line.tag), line.value, line.level, base)
    else if IsAttribute(line.tag) then
      && i.fields.attribute != [] && i.fields == old(i.fields).(attribute := old(i.fields.attribute) + [Last(i.fields.attribute)])
      && NewEvent(d, Last(i.fields.attribute), Name(line.tag), line.value, line.level, base)
    else
      && i.fields.changed != null && i.fields == old(i.fields).(changed := i.fields.changed)
      && fresh(i.fields.changed) && i.fields.changed.fields == ChangedFields()
      && Opened(d, ChangedTable(i.fields.changed), line.level, base)
  }

  /** Links to the family of the individual's parents and to the individual's own
      families. */
  twostate predicate IndividualLinked(d: Decoder, i: IndividualRecord, line: Line, base: seq<Context> := old(d.parsers))
    reads d, i, i.fields.parents, i.fields.family
  {
    if line.tag.FAMC? then
      && i.fields.parents != [] && i.fields == old(i.fields).(parents := old(i.fields.parents) + [Last(i.fields.parents)])
      && NewLink(d, Last(i.fields.parents), line.value, line.level, base)
    else
      && i.fields.family != [] && i.fields == old(i.fields).(family := old(i.fields.family) + [Last(i.fields.family)])
      && NewLink(d, Last(i.fields.family), line.value, line.level, base)
  }

  /** Citations, and the photo, which is looked up by id and opens nothing. */
  twostate predicate IndividualSourced(d: Decoder, i: IndividualRecord, line: Line, base: seq<Context> := old(d.parsers))
    reads d, i, LastCitationObjects(i.fields.citation)
  {
    if line.tag.SOUR? then
      && i.fields.citation != [] && i.fields == old(i.fields).(citation := old(i.fields.citation) + [Last(i.fields.citation)])
      && NewCitation(d, Last(i.fields.citation), line.value, line.level, base)
    else
      && i.fields.photo != null && i.fields == old(i.fields).(photo := i.fields.photo)
      && Resolves(old(d.refs), d.refs, StripXref(line.value), ObjectRef(i.fields.photo)) && Quiet(d, base)
  }

  /** OBJE and NOTE: a pointer to a shared record or an inline one; an empty value
      panics before anything changes. */
  twostate predicate IndividualPointerAdded(d: Decoder, i: IndividualRecord, line: Line, outcome: Outcome, base: seq<Context> := old(d.parsers))
    reads d, i, i.fields.objects, i.fields.note
  {
    if line.value == "" then outcome == Panic(SliceOutOfRange) && i.fields == old(i.fields) && Kept(d, base)
    else if line.tag.OBJE? then
      && outcome == Done && i.fields.objects != []
      && i.fields == old(i.fields).(objects := old(i.fields.objects) + [Last(i.fields.objects)])
      && ObjectResolved(d, Last(i.fields.objects), line.value, line.level, base)
    else
      && outcome == Done && i.fields.note != []
      && i.fields == old(i.fields).(note := old(i.fields.note) + [Last(i.fields.note)])
      && NoteResolved(d, Last(i.fields.note), line.value, line.level, base)
  }

  method ParseIndividual(d: Decoder, i: IndividualRecord, line: Line) returns (outcome: Outcome)
    modifies d, i
    ensures IndividualParsed(d, i, line, outcome)
    ensures outcome.Panic? ==> outcome == Panic(SliceOutOfRange) && line.value == ""
    ensures Step(d, line)
  {
    outcome := Done;
    if line.tag.NAME? || line.tag.SEX? || IsIndividualEvent(line.tag) || IsAttribute(line.tag) || line.tag.CHAN? {
      AddIndividualFact(d, i, line);
    } else if line.tag.FAMC? || line.tag.FAMS? {
      LinkIndividual(d, i, line);
    } else if line.tag.SOUR? || line.tag.UserPHOTO? {
      SourceIndividual(d, i, line);
    } else if line.tag.OBJE? || line.tag.NOTE? {
      outcome := AddIndividualPointer(d, i, line);
    } else {
      d.Unrecognized(line);
    }
  }

  method AddIndividualFact(d: Decoder, i: IndividualRecord, line: Line)
    requires line.tag.NAME? || line.tag.SEX? || IsIndividualEvent(line.tag) || IsAttribute(line.tag) || line.tag.CHAN?
    modifies d, i
    ensures IndividualFactAdded(d, i, line)
    ensures Step(d, line)
  {
    if line.tag.NAME? {
      var n := new NameRecord(line.value);
      i.fields := i.fields.(name := i.fields.name + [n]);
      d.OpenChild(NameTable(n), line);
    } else if line.tag.SEX? {
      i.fields := i.fields.(sex := line.value);
    } else if IsIndividualEvent(line.tag) {
      var e := OpenEvent(d, line);
      i.fields := i.fields.(event := i.fields.event + [e]);
    } else if IsAttribute(line.tag) {
      var e := OpenEvent(d, line);
      i.fields := i.fields.(attribute := i.fields.attribute + [e]);
    } else {
      var c := new ChangedRecord();
      i.fields := i.fields.(changed := c);
      d.OpenChild(ChangedTable(c), line);
    }
  }

  method LinkIndividual(d: Decoder, i: IndividualRecord, line: Line)
    requires line.tag.FAMC? || line.tag.FAMS?
    modifies d, i
    ensures IndividualLinked(d, i, line)
    ensures Step(d, line)
  {
    var f := OpenFamilyLink(d, line);
    if line.tag.FAMC? {
      i.fields := i.fields.(parents := i.fields.parents + [f]);
    } else {
      i.fields := i.fields.(family := i.fields.family + [f]);
    }
  }

  method SourceIndividual(d: Decoder, i: IndividualRecord, line: Line)
    requires line.tag.SOUR? || line.tag.UserPHOTO?
    modifies d, i
    ensures IndividualSourced(d, i, line)
    ensures Step(d, line)
  {
    if line.tag.SOUR? {
      var c := OpenCitation(d, line);
      i.fields := i.fields.(citation := i.fields.citation + [c]);
    } else {
      var o := d.Object(StripXref(line.value));
      i.fields := i.fields.(photo := o);
    }
  }

  method AddIndividualPointer(d: Decoder, i: IndividualRecord, line: Line) returns (outcome: Outcome)
    requires line.tag.OBJE? || line.tag.NOTE?
    modifies d, i
    ensures IndividualPointerAdded(d, i, line, outcome)
    ensures Step(d, line)
  {
    if line.value == "" {
      return Panic(SliceOutOfRange);
    }
    var fields := i.fields;
    if line.tag.OBJE? {
      var o := ResolveObject(d, line);
      fields := fields.(objects := fields.objects + [o]);
    } else {
      var n := ResolveNote(d, line);
      fields := fields.(note := fields.note + [n]);
    }
    i.fields := fields;
    outcome := Done;
  }
}
