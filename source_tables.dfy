/** The tag tables of sources, citations and the records below them (decoder.go
    `makeSourceParser`, `makeSourceDataParser`, `makeCitationParser`,
    `makeDataParser`, `makeNoteParser`, `makeObjectParser`, `makeFileParser`,
    `makeRepositoryParser`, `makeTextParser`). Each method is what one table does
    with a line deeper than its context's `minLevel`; closing contexts is the
    decoder's business. */
module SourceTables {
  import opened Strings
  import opened Records
  import opened Contexts
  import opened Engine
  import opened Tags

  // ---------------------------------------------------------------------------
  // Text continuation (makeTextParser)

  predicate IsContinuation(t: Tag)
  {
    t.CONT? || t.CONC?
  }

  /** A CONT or CONC line as the continuation it applies. */
  function ContinuationOf(line: Line): (c: Continuation)
    requires IsContinuation(line.tag)
    ensures c.text == line.value && (c.Cont? <==> line.tag.CONT?)
  {
    if line.tag.CONT? then Cont(line.value) else Conc(line.value)
  }

  /** The string variable exists: a data text element is within the list. */
  predicate TargetLive(t: TextTarget)
    reads TextObjects(t)
  {
    t.DataText? ==> t.index < |t.data.fields.text|
  }

  /** The current value of the string variable a text table extends. */
  function TextValue(t: TextTarget): string
    reads TextObjects(t)
    requires TargetLive(t)
  {
    if t.CitationPage? then t.citation.fields.page
    else if t.DataText? then t.data.fields.text[t.index]
    else if t.SourceField? then GetSourceText(t.source.fields, t.which)
    else t.cell.value
  }

  /** The string variable a text table extends holds `v`, and nothing else about its
      owner changed. */
  twostate predicate Written(t: TextTarget, v: string)
    reads TextObjects(t)
  {
    if t.CitationPage? then t.citation.fields == old(t.citation.fields).(page := v)
    else if t.DataText? then
      && t.index < |old(t.data.fields.text)|
      && t.data.fields == old(t.data.fields).(text := old(t.data.fields.text)[t.index := v])
    else if t.SourceField? then t.source.fields == SetSourceText(old(t.source.fields), t.which, v)
    else t.cell.value == v
  }

  /** `*s = v` through the address the text table holds. */
  method WriteText(t: TextTarget, v: string)
    requires TargetLive(t)
    modifies TextObjects(t)
    ensures Written(t, v)
  {
    if t.CitationPage? {
      t.citation.fields := t.citation.fields.(page := v);
    } else if t.DataText? {
      t.data.fields := t.data.fields.(text := t.data.fields.text[t.index := v]);
    } else if t.SourceField? {
      t.source.fields := SetSourceText(t.source.fields, t.which, v);
    } else {
      t.cell.value := v;
    }
  }

  /** What the text table does with one line. */
  twostate predicate TextParsed(d: Decoder, t: TextTarget, line: Line, base: seq<Context> := old(d.parsers))
    reads d, TextObjects(t)
  {
    && old(TargetLive(t))
    && if IsContinuation(line.tag) then Written(t, Extend(old(TextValue(t)), ContinuationOf(line))) && Kept(d, base)
       else Written(t, old(TextValue(t))) && Skipped(d, line, base)
  }

  /** CONT adds a line break and the value to the string, CONC the value alone;
      anything else is unrecognised. */
  method ParseText(d: Decoder, t: TextTarget, line: Line)
    requires TargetLive(t)
    modifies d, TextObjects(t)
    ensures TextParsed(d, t, line)
    ensures Step(d, line)
  {
    if IsContinuation(line.tag) {
      WriteText(t, Extend(TextValue(t), ContinuationOf(line)));
    } else {
      d.Unrecognized(line);
    }
  }

  // ---------------------------------------------------------------------------
  // Notes, data, objects, files, repositories

  /** What the note table does with one line. */
  twostate predicate NoteParsed(d: Decoder, n: NoteRecord, line: Line, base: seq<Context> := old(d.parsers))
    reads d, n, LastCitationObjects(n.fields.citation)
  {
    if IsContinuation(line.tag) then
      n.fields == old(n.fields).(note := Extend(old(n.fields.note), ContinuationOf(line))) && Kept(d, base)
    else if line.tag.SOUR? then
      && n.fields.citation != [] && n.fields == old(n.fields).(citation := old(n.fields.citation) + [Last(n.fields.citation)])
      && NewCitation(d, Last(n.fields.citation), line.value, line.level, base)
    else n.fields == old(n.fields) && Skipped(d, line, base)
  }

  method ParseNote(d: Decoder, n: NoteRecord, line: Line)
    modifies d, n
    ensures NoteParsed(d, n, line)
    ensures Step(d, line)
  {
    if IsContinuation(line.tag) {
      n.fields := n.fields.(note := Extend(n.fields.note, ContinuationOf(line)));
    } else if line.tag.SOUR? {
      var c := OpenCitation(d, line);
      n.fields := n.fields.(citation := n.fields.citation + [c]);
    } else {
      d.Unrecognized(line);
    }
  }

  /** What the data table does with one line. */
  twostate predicate DataParsed(d: Decoder, r: DataRecord, line: Line, base: seq<Context> := old(d.parsers))
    reads d, r
  {
    if line.tag.DATE? then r.fields == old(r.fields).(date := line.value) && Kept(d, base)
    else if line.tag.TEXT? then
      && r.fields == old(r.fields).(text := old(r.fields.text) + [line.value])
      && Opened(d, TextTable(DataText(r, |old(r.fields.text)|)), line.level, base)
    else r.fields == old(r.fields) && Skipped(d, line, base)
  }

  /** DATE sets the date; TEXT appends a text element and opens a text table on
      that element. */
  method ParseData(d: Decoder, r: DataRecord, line: Line)
    modifies d, r
    ensures DataParsed(d, r, line)
    ensures |r.fields.text| >= |old(r.fields.text)|
  {
    if line.tag.DATE? {
      r.fields := r.fields.(date := line.value);
    } else if line.tag.TEXT? {
      r.fields := r.fields.(text := r.fields.text + [line.value]);
      d.PushParser(Open(TextTable(DataText(r, |r.fields.text| - 1)), line.level));
    } else {
      d.Unrecognized(line);
    }
  }

  /** What the object table does with one line. */
  twostate predicate ObjectParsed(d: Decoder, o: ObjectRecord, line: Line, outcome: Outcome, base: seq<Context> := old(d.parsers))
    reads d, o, o.fields.note, o.fields.file
  {
    if line.tag.FILE? then
      && outcome == Done && o.fields.file != null && o.fields == old(o.fields).(file := o.fields.file)
      && fresh(o.fields.file) && o.fields.file.name == line.value && o.fields.file.fields == FileFields()
      && Opened(d, FileTable(o.fields.file), line.level, base)
    else if line.tag.NOTE? then
      if line.value == "" then outcome == Panic(SliceOutOfRange) && o.fields == old(o.fields) && Kept(d, base)
      else
        && outcome == Done && o.fields.note != []
        && o.fields == old(o.fields).(note := old(o.fields.note) + [Last(o.fields.note)])
        && NoteResolved(d, Last(o.fields.note), line.value, line.level, base)
    else outcome == Done && o.fields == old(o.fields) && Skipped(d, line, base)
  }

  /** FILE creates the file record and opens it; NOTE is a pointer or an inline
      note, and an empty value panics. */
  method ParseObject(d: Decoder, o: ObjectRecord, line: Line) returns (outcome: Outcome)
    modifies d, o
    ensures ObjectParsed(d, o, line, outcome)
    ensures Step(d, line)
  {
    outcome := Done;
    if line.tag.FILE? {
      var f := new FileRecord(line.value);
      o.fields := o.fields.(file := f);
      d.OpenChild(FileTable(f), line);
    } else if line.tag.NOTE? {
      if line.value == "" {
        return Panic(SliceOutOfRange);
      }
      var n := ResolveNote(d, line);
      o.fields := o.fields.(note := o.fields.note + [n]);
    } else {
      d.Unrecognized(line);
    }
  }

  /** What the file table does with one line. */
  twostate predicate FileParsed(d: Decoder, f: FileRecord, line: Line, base: seq<Context> := old(d.parsers))
    reads d, f, f.fields.description
  {
    if line.tag.TITL? then f.fields == old(f.fields).(title := line.value) && Kept(d, base)
    else if line.tag.FORM? then f.fields == old(f.fields).(form := line.value) && Kept(d, base)
    else if line.tag.UserTEXT? then
      && f.fields.description != null && f.fields == old(f.fields).(description := f.fields.description)
      && NewInlineNote(d, f.fields.description, line.value, line.level, base)
    else f.fields == old(f.fields) && Skipped(d, line, base)
  }

  /** TITL and FORM set fields; `_TEXT` makes an inline note the description. */
  method ParseFile(d: Decoder, f: FileRecord, line: Line)
    modifies d, f
    ensures FileParsed(d, f, line)
    ensures Step(d, line)
  {
    if line.tag.TITL? {
      f.fields := f.fields.(title := line.value);
    } else if line.tag.FORM? {
      f.fields := f.fields.(form := line.value);
    } else if line.tag.UserTEXT? {
      var n := OpenInlineNote(d, line);
      f.fields := f.fields.(description := n);
    } else {
      d.Unrecognized(line);
    }
  }

  /** What the repository table does with one line. */
  twostate predicate RepositoryParsed(d: Decoder, line: Line, base: seq<Context> := old(d.parsers))
    reads d
  {
    if line.tag.NAME? || line.tag.ADDR? || line.tag.EMAIL? || line.tag.PHON? then Kept(d, base)
    else Skipped(d, line, base)
  }

  /** NAME, ADDR, EMAIL and PHON are accepted and dropped; the repository record
      itself is never written. */
  method ParseRepository(d: Decoder, line: Line)
    modifies d
    ensures RepositoryParsed(d, line)
    ensures Step(d, line)
  {
    if !(line.tag.NAME? || line.tag.ADDR? || line.tag.EMAIL? || line.tag.PHON?) {
      d.Unrecognized(line);
    }
  }

  // ---------------------------------------------------------------------------
  // Citations and their data

  /** What the citation table (makeCitationParser) does with one line. */
  twostate predicate CitationParsed(d: Decoder, c: CitationRecord, line: Line, outcome: Outcome, base: seq<Context> := old(d.parsers))
    reads d, c, c.fields.note, c.fields.objects
  {
    if line.tag.PAGE? then
      outcome == Done && c.fields == old(c.fields).(page := line.value) && Opened(d, TextTable(CitationPage(c)), line.level, base)
    else if line.tag.QUAY? then outcome == Done && c.fields == old(c.fields).(quality := line.value) && Kept(d, base)
    else if line.tag.NOTE? then
      && outcome == Done && c.fields.note != []
      && c.fields == old(c.fields).(note := old(c.fields.note) + [Last(c.fields.note)])
      && NewInlineNote(d, Last(c.fields.note), line.value, line.level, base)
    else if line.tag.DATA? then outcome == Done && c.fields == old(c.fields) && Opened(d, DataTable(c.data), line.level, base)
    else if line.tag.OBJE? then CitationObjectAdded(d, c, line, outcome, base)
    else outcome == Done && c.fields == old(c.fields) && Skipped(d, line, base)
  }

  /** OBJE: a pointer or an inline object; an empty value panics. */
  twostate predicate CitationObjectAdded(d: Decoder, c: CitationRecord, line: Line, outcome: Outcome, base: seq<Context> := old(d.parsers))
    reads d, c, c.fields.objects
  {
    if line.value == "" then outcome == Panic(SliceOutOfRange) && c.fields == old(c.fields) && Kept(d, base)
    else
      && outcome == Done && c.fields.objects != []
      && c.fields == old(c.fields).(objects := old(c.fields.objects) + [Last(c.fields.objects)])
      && ObjectResolved(d, Last(c.fields.objects), line.value, line.level, base)
  }

  method ParseCitation(d: Decoder, c: CitationRecord, line: Line) returns (outcome: Outcome)
    modifies d, c
    ensures CitationParsed(d, c, line, outcome)
    ensures outcome.Panic? ==> outcome == Panic(SliceOutOfRange) && line.value == ""
    ensures Step(d, line)
  {
    outcome := Done;
    if line.tag.PAGE? {
      c.fields := c.fields.(page := line.value);
      d.OpenChild(TextTable(CitationPage(c)), line);
    } else if line.tag.QUAY? {
      c.fields := c.fields.(quality := line.value);
    } else if line.tag.NOTE? {
      var n := OpenInlineNote(d, line);
      c.fields := c.fields.(note := c.fields.note + [n]);
    } else if line.tag.DATA? {
      d.OpenChild(DataTable(c.data), line);
    } else if line.tag.OBJE? {
      outcome := AddCitationObject(d, c, line);
    } else {
      d.Unrecognized(line);
    }
  }

  method AddCitationObject(d: Decoder, c: CitationRecord, line: Line) returns (outcome: Outcome)
    modifies d, c
    ensures CitationObjectAdded(d, c, line, outcome)
    ensures Step(d, line)
  {
    if line.value == "" {
      return Panic(SliceOutOfRange);
    }
    var o := ResolveObject(d, line);
    c.fields := c.fields.(objects := c.fields.objects + [o]);
    outcome := Done;
  }

  /** What the source data table does with one line. */
  twostate predicate SourceDataParsed(d: Decoder, r: SourceDataRecord, line: Line, base: seq<Context> := old(d.parsers))
    reads d, r, LastEventObjects(r.fields.event), r.fields.note
  {
    if line.tag.AGNC? then r.fields == old(r.fields).(agency := line.value) && Kept(d, base)
    else if line.tag.EVEN? then
      && r.fields.event != [] && r.fields == old(r.fields).(event := old(r.fields.event) + [Last(r.fields.event)])
      && NewEvent(d, Last(r.fields.event), "EVEN", line.value, line.level, base)
    else if line.tag.NOTE? then
      && r.fields.note != [] && r.fields == old(r.fields).(note := old(r.fields.note) + [Last(r.fields.note)])
      && NewInlineNote(d, Last(r.fields.note), line.value, line.level, base)
    else r.fields == old(r.fields) && Skipped(d, line, base)
  }

  /** AGNC sets the agency; EVEN opens an event tagged "EVEN"; NOTE is always an
      inline note. */
  method ParseSourceData(d: Decoder, r: SourceDataRecord, line: Line)
    modifies d, r
    ensures SourceDataParsed(d, r, line)
    ensures Step(d, line)
  {
    if line.tag.AGNC? {
      r.fields := r.fields.(agency := line.value);
    } else if line.tag.EVEN? {
      assert Name(line.tag) == "EVEN";
      var e := OpenEvent(d, line);
      r.fields := r.fields.(event := r.fields.event + [e]);
    } else if line.tag.NOTE? {
      var n := OpenInlineNote(d, line);
      r.fields := r.fields.(note := r.fields.note + [n]);
    } else {
      d.Unrecognized(line);
    }
  }

  // ---------------------------------------------------------------------------
  // Sources

  /** The tags that set one single-valued text field and open a text table on it. */
  predicate IsSourceText(t: Tag)
  {
    t.AUTH? || t.TITL? || t.ABBR? || t.PUBL? || t.TEXT? || t.TYPE? || t.PERI? || t.VOL? || t.MEDI?
  }

  function TextFieldOf(t: Tag): SourceText
    requires IsSourceText(t)
  {
    if t.AUTH? then Author else if t.TITL? then Title else if t.ABBR? then Abbr
    else if t.PUBL? then Publication else if t.TEXT? then SourceText.Text else if t.TYPE? then SourceType
    else if t.PERI? then Periodical else if t.VOL? then Volume else MediaType
  }

  /** The tags that append one value to a list field. */
  predicate IsSourceList(t: Tag)
  {
    || t.PAGE? || t.FILM? || t.FILE? || t.FILN? || t.DATE? || t.PLAC? || t.DATV? || t.URL?
    || t.LOCA? || t.REPO? || t.SUBM?
  }

  function ListFieldOf(t: Tag): SourceList
    requires IsSourceList(t)
  {
    if t.PAGE? then Page else if t.FILM? then Film else if t.FILE? then SourceList.File
    else if t.FILN? then FileNumber else if t.DATE? then SourceList.Date else if t.PLAC? then SourceList.Place
    else if t.DATV? then DateViewed else if t.URL? then Url else if t.LOCA? then DocLocation
    else if t.REPO? then SourceList.Repository else SourceList.Submitter
  }

  /** What the source table (makeSourceParser) does with one line. */
  twostate predicate SourceParsed(d: Decoder, s: SourceRecord, line: Line, outcome: Outcome, base: seq<Context> := old(d.parsers))
    reads d, s, s.fields.changed, s.fields.note, s.fields.objects, s.fields.eventData, TopObjects(d.parsers)
  {
    if IsSourceText(line.tag) then outcome == Done && SourceTextSet(d, s, line, base)
    else if IsSourceList(line.tag) then outcome == Done && SourceListAppended(d, s, line, base)
    else if line.tag.CHAN? || line.tag.NOTE? || line.tag.DATA? then outcome == Done && SourceChildAdded(d, s, line, base)
    else if line.tag.OBJE? then SourceObjectAdded(d, s, line, outcome, base)
    else outcome == Done && s.fields == old(s.fields) && Skipped(d, line, base)
  }

  /** The field gets the line's value, and a text table extends that field. */
  twostate predicate SourceTextSet(d: Decoder, s: SourceRecord, line: Line, base: seq<Context> := old(d.parsers))
    requires IsSourceText(line.tag)
    reads d, s
  {
    && s.fields == SetSourceText(old(s.fields), TextFieldOf(line.tag), line.value)
    && Opened(d, TextTable(SourceField(s, TextFieldOf(line.tag))), line.level, base)
  }

  /** The list gets the line's value appended, and a text table extends a fresh local
      copy of the value rather than the stored element. */
  twostate predicate SourceListAppended(d: Decoder, s: SourceRecord, line: Line, base: seq<Context> := old(d.parsers))
    requires IsSourceList(line.tag)
    reads d, s, TopObjects(d.parsers)
  {
    && s.fields == AppendSourceList(old(s.fields), ListFieldOf(line.tag), line.value)
    && CopyOpened(d, line, base)
  }

  /** `r := value; d.pushParser(makeTextParser(d, &r, level))`: one text table on a
      fresh string variable holding the line's value, the registry and the callback
      log untouched. */
  twostate predicate CopyOpened(d: Decoder, line: Line, base: seq<Context> := old(d.parsers))
    reads d, TopObjects(d.parsers)
  {
    && d.refs == old(d.refs) && d.unrecognized == old(d.unrecognized)
    && d.parsers != [] && d.parsers == base + [Top(d.parsers)]
    && Top(d.parsers).Open? && Top(d.parsers).minLevel == line.level
    && Top(d.parsers).table.TextTable? && Top(d.parsers).table.target.LocalCopy?
    && fresh(Top(d.parsers).table.target.cell) && Top(d.parsers).table.target.cell.value == line.value
  }

  /** CHAN, NOTE and DATA: a new change record, inline note or data record, opened. */
  twostate predicate SourceChildAdded(d: Decoder, s: SourceRecord, line: Line, base: seq<Context> := old(d.parsers))
    reads d, s, s.fields.changed, s.fields.note, s.fields.eventData
  {
    if line.tag.CHAN? then
      && s.fields.changed != null && s.fields == old(s.fields).(changed := s.fields.changed)
      && fresh(s.fields.changed) && s.fields.changed.fields == ChangedFields()
      && Opened(d, ChangedTable(s.fields.changed), line.level, base)
    else if line.tag.NOTE? then
      && s.fields.note != [] && s.fields == old(s.fields).(note := old(s.fields.note) + [Last(s.fields.note)])
      && NewInlineNote(d, Last(s.fields.note), line.value, line.level, base)
    else
      && s.fields.eventData != null && s.fields == old(s.fields).(eventData := s.fields.eventData)
      && fresh(s.fields.eventData) && s.fields.eventData.fields == SourceDataFields()
      && Opened(d, SourceDataTable(s.fields.eventData), line.level, base)
  }

  /** OBJE: a pointer or an inline object; an empty value panics. */
  twostate predicate SourceObjectAdded(d: Decoder, s: SourceRecord, line: Line, outcome: Outcome, base: seq<Context> := old(d.parsers))
    reads d, s, s.fields.objects
  {
    if line.value == "" then outcome == Panic(SliceOutOfRange) && s.fields == old(s.fields) && Kept(d, base)
    else
      && outcome == Done && s.fields.objects != []
      && s.fields == old(s.fields).(objects := old(s.fields.objects) + [Last(s.fields.objects)])
      && ObjectResolved(d, Last(s.fields.objects), line.value, line.level, base)
  }

  method ParseSource(d: Decoder, s: SourceRecord, line: Line) returns (outcome: Outcome)
    modifies d, s
    ensures SourceParsed(d, s, line, outcome)
    ensures outcome.Panic? ==> outcome == Panic(SliceOutOfRange) && line.value == ""
    ensures Step(d, line)
  {
    outcome := Done;
    if IsSourceText(line.tag) {
      SetSourceField(d, s, line);
    } else if IsSourceList(line.tag) {
      AppendSourceField(d, s, line);
    } else if line.tag.CHAN? || line.tag.NOTE? || line.tag.DATA? {
      AddSourceChild(d, s, line);
    } else if line.tag.OBJE? {
      outcome := AddSourceObject(d, s, line);
    } else {
      d.Unrecognized(line);
    }
  }

  method SetSourceField(d: Decoder, s: SourceRecord, line: Line)
    requires IsSourceText(line.tag)
    modifies d, s
    ensures SourceTextSet(d, s, line)
    ensures Step(d, line)
  {
    var which := TextFieldOf(line.tag);
    s.fields := SetSourceText(s.fields, which, line.value);
    d.OpenChild(TextTable(SourceField(s, which)), line);
  }

  method AppendSourceField(d: Decoder, s: SourceRecord, line: Line)
    requires IsSourceList(line.tag)
    modifies d, s
    ensures SourceListAppended(d, s, line)
    ensures Step(d, line)
  {
    s.fields := AppendSourceList(s.fields, ListFieldOf(line.tag), line.value);
    var copy := new StringCell(line.value);
    d.OpenChild(TextTable(LocalCopy(copy)), line);
  }

  method AddSourceChild(d: Decoder, s: SourceRecord, line: Line)
    requires line.tag.CHAN? || line.tag.NOTE? || line.tag.DATA?
    modifies d, s
    ensures SourceChildAdded(d, s, line)
    ensures Step(d, line)
  {
    if line.tag.CHAN? {
      var c := new ChangedRecord();
      s.fields := s.fields.(changed := c);
      d.OpenChild(ChangedTable(c), line);
    } else if line.tag.NOTE? {
      var n := OpenInlineNote(d, line);
      s.fields := s.fields.(note := s.fields.note + [n]);
    } else {
      var r := new SourceDataRecord();
      s.fields := s.fields.(eventData := r);
      d.OpenChild(SourceDataTable(r), line);
    }
  }

  method AddSourceObject(d: Decoder, s: SourceRecord, line: Line) returns (outcome: Outcome)
    requires line.tag.OBJE?
    modifies d, s
    ensures SourceObjectAdded(d, s, line, outcome)
    ensures Step(d, line)
  {
    if line.value == "" {
      return Panic(SliceOutOfRange);
    }
    var o := ResolveObject(d, line);
    s.fields := s.fields.(objects := s.fields.objects + [o]);
    assert Last(s.fields.objects) == o;
    outcome := Done;
  }
}
