/** The tag tables of the header and of the small records around it
    (decoder.go `makeHeaderParser` and the parsers it opens, the address, change,
    submitter and submission parsers). Each method is the body of a parser closure
    for a line deeper than the context's `minLevel`: it writes the line into its
    record, may open a child context at the line's level, and sends an unknown tag
    to the callback and a slurk context. */
module HeaderTables {
  import opened Strings
  import opened Records
  import opened Contexts
  import opened Engine
  import opened Tags

  /** What the address table does with one line. */
  twostate predicate AddressParsed(d: Decoder, a: AddressRecord, line: Line, base: seq<Context> := old(d.parsers))
    reads d, a
  {
    if line.tag.CONT? then a.fields == old(a.fields).(full := old(a.fields.full) + "\n" + line.value) && Kept(d, base)
    else if line.tag.ADR1? then a.fields == old(a.fields).(line1 := line.value) && Kept(d, base)
    else if line.tag.ADR2? then a.fields == old(a.fields).(line2 := line.value) && Kept(d, base)
    else if line.tag.CITY? then a.fields == old(a.fields).(city := line.value) && Kept(d, base)
    else if line.tag.STAE? then a.fields == old(a.fields).(state := line.value) && Kept(d, base)
    else if line.tag.POST? then a.fields == old(a.fields).(postalCode := line.value) && Kept(d, base)
    else if line.tag.CTRY? then a.fields == old(a.fields).(country := line.value) && Kept(d, base)
    else if line.tag.PHON? then a.fields == old(a.fields).(phone := line.value) && Kept(d, base)
    else a.fields == old(a.fields) && Skipped(d, line, base)
  }

  method ParseAddress(d: Decoder, a: AddressRecord, line: Line)
    modifies d, a
    ensures AddressParsed(d, a, line)
    ensures Step(d, line)
  {
    if line.tag.CONT? {
      a.fields := a.fields.(full := a.fields.full + "\n" + line.value);
    } else if line.tag.ADR1? {
      a.fields := a.fields.(line1 := line.value);
    } else if line.tag.ADR2? {
      a.fields := a.fields.(line2 := line.value);
    } else if line.tag.CITY? {
      a.fields := a.fields.(city := line.value);
    } else if line.tag.STAE? {
      a.fields := a.fields.(state := line.value);
    } else if line.tag.POST? {
      a.fields := a.fields.(postalCode := line.value);
    } else if line.tag.CTRY? {
      a.fields := a.fields.(country := line.value);
    } else if line.tag.PHON? {
      a.fields := a.fields.(phone := line.value);
    } else {
      d.Unrecognized(line);
    }
  }

  /** What the change table does with one line. */
  twostate predicate ChangedParsed(d: Decoder, r: ChangedRecord, line: Line, base: seq<Context> := old(d.parsers))
    reads d, r, r.fields.note, r.fields.stamp
  {
    if line.tag.DATE? then
      && r.fields.stamp != null && r.fields == old(r.fields).(stamp := r.fields.stamp)
      && fresh(r.fields.stamp) && r.fields.stamp.date == line.value && r.fields.stamp.fields == TimestampFields()
      && Opened(d, TimestampTable(r.fields.stamp), line.level, base)
    else if line.tag.NOTE? then
      && r.fields.note != [] && r.fields == old(r.fields).(note := old(r.fields.note) + [Last(r.fields.note)])
      && NewInlineNote(d, Last(r.fields.note), line.value, line.level, base)
    else r.fields == old(r.fields) && Skipped(d, line, base)
  }

  method ParseChanged(d: Decoder, r: ChangedRecord, line: Line)
    modifies d, r
    ensures ChangedParsed(d, r, line)
    ensures Step(d, line)
  {
    if line.tag.DATE? {
      var t := new TimestampRecord(line.value);
      r.fields := r.fields.(stamp := t);
      d.OpenChild(TimestampTable(t), line);
    } else if line.tag.NOTE? {
      var n := OpenInlineNote(d, line);
      r.fields := r.fields.(note := r.fields.note + [n]);
    } else {
      d.Unrecognized(line);
    }
  }

  /** What the corporation table does with one line. */
  twostate predicate CorpParsed(d: Decoder, r: CorpRecord, line: Line, base: seq<Context> := old(d.parsers))
    reads d, r, r.fields.address
  {
    if line.tag.ADDR? then
      && r.fields.address != null && r.fields == old(r.fields).(address := r.fields.address)
      && fresh(r.fields.address) && r.fields.address.fields == AddressFields(full := line.value)
      && Opened(d, AddressTable(r.fields.address), line.level, base)
    else if line.tag.PHON? then r.fields == old(r.fields).(phone := old(r.fields.phone) + [line.value]) && Kept(d, base)
    else r.fields == old(r.fields) && Skipped(d, line, base)
  }

  method ParseCorp(d: Decoder, r: CorpRecord, line: Line)
    modifies d, r
    ensures CorpParsed(d, r, line)
    ensures Step(d, line)
  {
    if line.tag.ADDR? {
      var a := new AddressRecord(line.value);
      r.fields := r.fields.(address := a);
      d.OpenChild(AddressTable(a), line);
    } else if line.tag.PHON? {
      r.fields := r.fields.(phone := r.fields.phone + [line.value]);
    } else {
      d.Unrecognized(line);
    }
  }

  /** What the character set table does with one line. */
  twostate predicate EncodingParsed(d: Decoder, e: EncodingRecord, line: Line, base: seq<Context> := old(d.parsers))
    reads d, e
  {
    if line.tag.VERS? then e.fields == old(e.fields).(version := line.value) && Kept(d, base)
    else e.fields == old(e.fields) && Skipped(d, line, base)
  }

  method ParseEncoding(d: Decoder, e: EncodingRecord, line: Line)
    modifies d, e
    ensures EncodingParsed(d, e, line)
    ensures Step(d, line)
  {
    if line.tag.VERS? {
      e.fields := e.fields.(version := line.value);
    } else {
      d.Unrecognized(line);
    }
  }

  /** What the header source data table does with one line. */
  twostate predicate HeaderDataParsed(d: Decoder, r: HeaderDataRecord, line: Line, base: seq<Context> := old(d.parsers))
    reads d, r
  {
    if line.tag.DATE? then r.fields == old(r.fields).(date := line.value) && Kept(d, base)
    else if line.tag.COPR? then r.fields == old(r.fields).(copyright := line.value) && Kept(d, base)
    else r.fields == old(r.fields) && Skipped(d, line, base)
  }

  method ParseHeaderData(d: Decoder, r: HeaderDataRecord, line: Line)
    modifies d, r
    ensures HeaderDataParsed(d, r, line)
    ensures Step(d, line)
  {
    if line.tag.DATE? {
      r.fields := r.fields.(date := line.value);
    } else if line.tag.COPR? {
      r.fields := r.fields.(copyright := line.value);
    } else {
      d.Unrecognized(line);
    }
  }

  /** What the GEDC table does with one line. */
  twostate predicate HeaderInfoParsed(d: Decoder, r: HeaderInfoRecord, line: Line, base: seq<Context> := old(d.parsers))
    reads d, r
  {
    if line.tag.VERS? then r.fields == old(r.fields).(version := line.value) && Kept(d, base)
    else if line.tag.FORM? then r.fields == old(r.fields).(form := line.value) && Kept(d, base)
    else r.fields == old(r.fields) && Skipped(d, line, base)
  }

  method ParseHeaderInfo(d: Decoder, r: HeaderInfoRecord, line: Line)
    modifies d, r
    ensures HeaderInfoParsed(d, r, line)
    ensures Step(d, line)
  {
    if line.tag.VERS? {
      r.fields := r.fields.(version := line.value);
    } else if line.tag.FORM? {
      r.fields := r.fields.(form := line.value);
    } else {
      d.Unrecognized(line);
    }
  }

  /** What the header table (decoder.go:650-690) does with one line: a field set,
      a child record opened, or the line skipped. */
  twostate predicate HeaderParsed(d: Decoder, h: HeaderRecord, line: Line, base: seq<Context> := old(d.parsers))
    reads d, h, h.fields.encoding, h.fields.timestamp, h.fields.source, h.fields.info, h.fields.note
  {
    if line.tag.COPR? || line.tag.FILE? || line.tag.LANG? || line.tag.DEST? || line.tag.SUBM? || line.tag.SUBN? then
      HeaderFieldSet(d, h, line, base)
    else if line.tag.CHAR? || line.tag.DATE? || line.tag.SOUR? || line.tag.GEDC? || line.tag.NOTE? then
      HeaderChildOpened(d, h, line, base)
    else h.fields == old(h.fields) && Skipped(d, line, base)
  }

  /** The header tags that set a field of the header: a value, or a shared record
      looked up by its id. */
  twostate predicate HeaderFieldSet(d: Decoder, h: HeaderRecord, line: Line, base: seq<Context> := old(d.parsers))
    reads d, h
  {
    if line.tag.COPR? then h.fields == old(h.fields).(copyright := line.value) && Kept(d, base)
    else if line.tag.FILE? then h.fields == old(h.fields).(file := line.value) && Kept(d, base)
    else if line.tag.LANG? then h.fields == old(h.fields).(language := line.value) && Kept(d, base)
    else if line.tag.DEST? then h.fields == old(h.fields).(destination := line.value) && Kept(d, base)
    else if line.tag.SUBM? then
      && h.fields.submitter != null && h.fields == old(h.fields).(submitter := h.fields.submitter)
      && Resolves(old(d.refs), d.refs, StripXref(line.value), SubmitterRef(h.fields.submitter)) && Quiet(d, base)
    else
      && h.fields.submission != null && h.fields == old(h.fields).(submission := h.fields.submission)
      && Resolves(old(d.refs), d.refs, StripXref(line.value), SubmissionRef(h.fields.submission)) && Quiet(d, base)
  }

  /** The header tags that open a child record. */
  twostate predicate HeaderChildOpened(d: Decoder, h: HeaderRecord, line: Line, base: seq<Context> := old(d.parsers))
    reads d, h, h.fields.encoding, h.fields.timestamp, h.fields.source, h.fields.info, h.fields.note
  {
    if line.tag.CHAR? then
      && h.fields.encoding != null && h.fields == old(h.fields).(encoding := h.fields.encoding)
      && fresh(h.fields.encoding) && h.fields.encoding.name == line.value && h.fields.encoding.fields == EncodingFields()
      && Opened(d, EncodingTable(h.fields.encoding), line.level, base)
    else if line.tag.DATE? then
      && h.fields.timestamp != null && h.fields == old(h.fields).(timestamp := h.fields.timestamp)
      && fresh(h.fields.timestamp) && h.fields.timestamp.date == line.value && h.fields.timestamp.fields == TimestampFields()
      && Opened(d, TimestampTable(h.fields.timestamp), line.level, base)
    else if line.tag.SOUR? then
      && h.fields.source != null && h.fields == old(h.fields).(source := h.fields.source)
      && fresh(h.fields.source) && h.fields.source.source == line.value && h.fields.source.fields == HeaderSourceFields()
      && Opened(d, HeaderSourceTable(h.fields.source), line.level, base)
    else if line.tag.GEDC? then
      && h.fields.info != null && h.fields == old(h.fields).(info := h.fields.info)
      && fresh(h.fields.info) && h.fields.info.fields == HeaderInfoFields()
      && Opened(d, HeaderInfoTable(h.fields.info), line.level, base)
    else
      && h.fields.note != null && h.fields == old(h.fields).(note := h.fields.note)
      && NewInlineNote(d, h.fields.note, line.value, line.level, base)
  }

  method ParseHeader(d: Decoder, h: HeaderRecord, line: Line)
    modifies d, h
    ensures HeaderParsed(d, h, line)
    ensures Step(d, line)
  {
    if line.tag.COPR? || line.tag.FILE? || line.tag.LANG? || line.tag.DEST? || line.tag.SUBM? || line.tag.SUBN? {
      SetHeaderField(d, h, line);
    } else if line.tag.CHAR? || line.tag.DATE? || line.tag.SOUR? || line.tag.GEDC? || line.tag.NOTE? {
      OpenHeaderChild(d, h, line);
    } else {
      d.Unrecognized(line);
    }
  }

  method SetHeaderField(d: Decoder, h: HeaderRecord, line: Line)
    requires line.tag.COPR? || line.tag.FILE? || line.tag.LANG? || line.tag.DEST? || line.tag.SUBM? || line.tag.SUBN?
    modifies d, h
    ensures HeaderFieldSet(d, h, line)
    ensures Step(d, line)
  {
    if line.tag.COPR? {
      h.fields := h.fields.(copyright := line.value);
    } else if line.tag.FILE? {
      h.fields := h.fields.(file := line.value);
    } else if line.tag.LANG? {
      h.fields := h.fields.(language := line.value);
    } else if line.tag.DEST? {
      h.fields := h.fields.(destination := line.value);
    } else if line.tag.SUBM? {
      var sm := d.Submitter(StripXref(line.value));
      h.fields := h.fields.(submitter := sm);
    } else {
      var sn := d.Submission(StripXref(line.value));
      h.fields := h.fields.(submission := sn);
    }
  }

  method OpenHeaderChild(d: Decoder, h: HeaderRecord, line: Line)
    requires line.tag.CHAR? || line.tag.DATE? || line.tag.SOUR? || line.tag.GEDC? || line.tag.NOTE?
    modifies d, h
    ensures HeaderChildOpened(d, h, line)
    ensures Step(d, line)
  {
    if line.tag.CHAR? {
      var e := new EncodingRecord(line.value);
      h.fields := h.fields.(encoding := e);
      d.OpenChild(EncodingTable(e), line);
    } else if line.tag.DATE? {
      var t := new TimestampRecord(line.value);
      h.fields := h.fields.(timestamp := t);
      d.OpenChild(TimestampTable(t), line);
    } else if line.tag.SOUR? {
      var hs := new HeaderSourceRecord(line.value);
      h.fields := h.fields.(source := hs);
      d.OpenChild(HeaderSourceTable(hs), line);
    } else if line.tag.GEDC? {
      var info := new HeaderInfoRecord();
      h.fields := h.fields.(info := info);
      d.OpenChild(HeaderInfoTable(info), line);
    } else {
      var n := OpenInlineNote(d, line);
      h.fields := h.fields.(note := n);
    }
  }

  /** What the header source table does with one line. */
  twostate predicate HeaderSourceParsed(d: Decoder, r: HeaderSourceRecord, line: Line, base: seq<Context> := old(d.parsers))
    reads d, r, r.fields.corporation, r.fields.data
  {
    if line.tag.VERS? then r.fields == old(r.fields).(version := line.value) && Kept(d, base)
    else if line.tag.NAME? then r.fields == old(r.fields).(name := line.value) && Kept(d, base)
    else if line.tag.FORM? then r.fields == old(r.fields).(form := line.value) && Kept(d, base)
    else if line.tag.CORP? then
      && r.fields.corporation != null && r.fields == old(r.fields).(corporation := r.fields.corporation)
      && fresh(r.fields.corporation) && r.fields.corporation.name == line.value
      && r.fields.corporation.fields == CorpFields()
      && Opened(d, CorpTable(r.fields.corporation), line.level, base)
    else if line.tag.DATA? then
      && r.fields.data != null && r.fields == old(r.fields).(data := r.fields.data)
      && fresh(r.fields.data) && r.fields.data.name == line.value && r.fields.data.fields == HeaderDataFields()
      && Opened(d, HeaderDataTable(r.fields.data), line.level, base)
    else r.fields == old(r.fields) && Skipped(d, line, base)
  }

  method ParseHeaderSource(d: Decoder, r: HeaderSourceRecord, line: Line)
    modifies d, r
    ensures HeaderSourceParsed(d, r, line)
    ensures Step(d, line)
  {
    if line.tag.VERS? {
      r.fields := r.fields.(version := line.value);
    } else if line.tag.NAME? {
      r.fields := r.fields.(name := line.value);
    } else if line.tag.FORM? {
      r.fields := r.fields.(form := line.value);
    } else if line.tag.CORP? {
      var c := new CorpRecord(line.value);
      r.fields := r.fields.(corporation := c);
      d.OpenChild(CorpTable(c), line);
    } else if line.tag.DATA? {
      var c := new HeaderDataRecord(line.value);
      r.fields := r.fields.(data := c);
      d.OpenChild(HeaderDataTable(c), line);
    } else {
      d.Unrecognized(line);
    }
  }

  /** What the submission table does with one line. */
  twostate predicate SubmissionParsed(d: Decoder, r: SubmissionRecord, line: Line, base: seq<Context> := old(d.parsers))
    reads d, r, r.fields.submitter
  {
    if line.tag.FAMF? then r.fields == old(r.fields).(familyFile := line.value) && Kept(d, base)
    else if line.tag.TEMP? then r.fields == old(r.fields).(templeCode := line.value) && Kept(d, base)
    else if line.tag.ANCE? then r.fields == old(r.fields).(ancestors := line.value) && Kept(d, base)
    else if line.tag.DESC? then r.fields == old(r.fields).(descendants := line.value) && Kept(d, base)
    else if line.tag.ORDI? then r.fields == old(r.fields).(ordinance := line.value) && Kept(d, base)
    else if line.tag.SUBM? then
      && r.fields.submitter != null && r.fields == old(r.fields).(submitter := r.fields.submitter)
      && Resolves(old(d.refs), d.refs, StripXref(line.value), SubmitterRef(r.fields.submitter)) && Quiet(d, base)
    else r.fields == old(r.fields) && Skipped(d, line, base)
  }

  method ParseSubmission(d: Decoder, r: SubmissionRecord, line: Line)
    modifies d, r
    ensures SubmissionParsed(d, r, line)
    ensures Step(d, line)
  {
    if line.tag.FAMF? {
      r.fields := r.fields.(familyFile := line.value);
    } else if line.tag.TEMP? {
      r.fields := r.fields.(templeCode := line.value);
    } else if line.tag.ANCE? {
      r.fields := r.fields.(ancestors := line.value);
    } else if line.tag.DESC? {
      r.fields := r.fields.(descendants := line.value);
    } else if line.tag.ORDI? {
      r.fields := r.fields.(ordinance := line.value);
    } else if line.tag.SUBM? {
      var s := d.Submitter(StripXref(line.value));
      r.fields := r.fields.(submitter := s);
    } else {
      d.Unrecognized(line);
    }
  }

  /** What the submitter table does with one line. */
  twostate predicate SubmitterParsed(d: Decoder, r: SubmitterRecord, line: Line, base: seq<Context> := old(d.parsers))
    reads d, r, r.fields.address, r.fields.changed
  {
    if line.tag.NAME? then r.fields == old(r.fields).(name := line.value) && Kept(d, base)
    else if line.tag.LANG? then r.fields == old(r.fields).(language := line.value) && Kept(d, base)
    else if line.tag.ADDR? then
      && r.fields.address != null && r.fields == old(r.fields).(address := r.fields.address)
      && fresh(r.fields.address) && r.fields.address.fields == AddressFields(full := line.value)
      && Opened(d, AddressTable(r.fields.address), line.level, base)
    else if line.tag.PHON? then r.fields == old(r.fields).(phone := old(r.fields.phone) + [line.value]) && Kept(d, base)
    else if line.tag.CHAN? then
      && r.fields.changed != null && r.fields == old(r.fields).(changed := r.fields.changed)
      && fresh(r.fields.changed) && r.fields.changed.fields == ChangedFields()
      && Opened(d, ChangedTable(r.fields.changed), line.level, base)
    else r.fields == old(r.fields) && Skipped(d, line, base)
  }

  method ParseSubmitter(d: Decoder, r: SubmitterRecord, line: Line)
    modifies d, r
    ensures SubmitterParsed(d, r, line)
    ensures Step(d, line)
  {
    if line.tag.NAME? {
      r.fields := r.fields.(name := line.value);
    } else if line.tag.LANG? {
      r.fields := r.fields.(language := line.value);
    } else if line.tag.ADDR? {
      var a := new AddressRecord(line.value);
      r.fields := r.fields.(address := a);
      d.OpenChild(AddressTable(a), line);
    } else if line.tag.PHON? {
      r.fields := r.fields.(phone := r.fields.phone + [line.value]);
    } else if line.tag.CHAN? {
      var c := new ChangedRecord();
      r.fields := r.fields.(changed := c);
      d.OpenChild(ChangedTable(c), line);
    } else {
      d.Unrecognized(line);
    }
  }

  /** What the timestamp table does with one line. */
  twostate predicate TimestampParsed(d: Decoder, t: TimestampRecord, line: Line, base: seq<Context> := old(d.parsers))
    reads d, t
  {
    if line.tag.TIME? then t.fields == old(t.fields).(time := line.value) && Kept(d, base)
    else t.fields == old(t.fields) && Skipped(d, line, base)
  }

  method ParseTimestamp(d: Decoder, t: TimestampRecord, line: Line)
    modifies d, t
    ensures TimestampParsed(d, t, line)
    ensures Step(d, line)
  {
    if line.tag.TIME? {
      t.fields := t.fields.(time := line.value);
    } else {
      d.Unrecognized(line);
    }
  }
}
