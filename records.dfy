/** The records the decoder builds. Each Go record is a class: what the composite
    literal that creates it sets once is a `const`; everything a tag table assigns or
    appends to later lives in one `fields` value, whose constructor defaults are Go's
    zero values. A struct embedded by value (`EventRecord.Place`, `EventRecord.Address`,
    `CitationRecord.Data`) is a sub-object allocated with its owner, because the tag
    tables hand out its address. */
module Records {
  import opened SortDate
  import Citation
  import Strings

  datatype AddressFields = AddressFields(
    full: string := "", line1: string := "", line2: string := "", city: string := "",
    state: string := "", postalCode: string := "", country: string := "", phone: string := "")

  class AddressRecord {
    var fields: AddressFields
    constructor(full: string)
      ensures fields == AddressFields(full := full)
    {
      fields := AddressFields(full := full);
    }
  }

  datatype ChangedFields = ChangedFields(stamp: TimestampRecord? := null, note: seq<NoteRecord> := [])

  class ChangedRecord {
    var fields: ChangedFields
    constructor()
      ensures fields == ChangedFields()
    {
      fields := ChangedFields();
    }
  }

  datatype ChildFields = ChildFields(fatherRelation: string := "", motherRelation: string := "")

  class ChildRecord {
    const person: IndividualRecord
    var fields: ChildFields
    constructor(person: IndividualRecord)
      ensures this.person == person && fields == ChildFields()
    {
      this.person := person;
      fields := ChildFields();
    }
  }

  datatype CorpFields = CorpFields(address: AddressRecord? := null, phone: seq<string> := [])

  class CorpRecord {
    const name: string
    var fields: CorpFields
    constructor(name: string)
      ensures this.name == name && fields == CorpFields()
    {
      this.name := name;
      fields := CorpFields();
    }
  }

  datatype CitationFields = CitationFields(
    page: string := "", quality: string := "", note: seq<NoteRecord> := [], objects: seq<ObjectRecord> := [])

  class CitationRecord {
    const source: SourceRecord
    const data: DataRecord
    var fields: CitationFields
    constructor(source: SourceRecord)
      ensures this.source == source && fresh(data) && data.fields == DataFields() && fields == CitationFields()
    {
      this.source := source;
      data := new DataRecord();
      fields := CitationFields();
    }
  }

  datatype DataFields = DataFields(date: string := "", text: seq<string> := [])

  class DataRecord {
    var fields: DataFields
    constructor()
      ensures fields == DataFields()
    {
      fields := DataFields();
    }
  }

  datatype EncodingFields = EncodingFields(version: string := "")

  class EncodingRecord {
    const name: string
    var fields: EncodingFields
    constructor(name: string)
      ensures this.name == name && fields == EncodingFields()
    {
      this.name := name;
      fields := EncodingFields();
    }
  }

  datatype EventFields = EventFields(
    eventType: string := "", date: string := "", sortDate: Instant := ZeroTime,
    citation: seq<CitationRecord> := [], note: seq<NoteRecord> := [], cause: seq<NoteRecord> := [],
    parents: seq<FamilyLinkRecord> := [], spouseInfo: seq<SpouseInfoRecord> := [])

  class EventRecord {
    const tag: string
    const value: string
    const place: PlaceRecord
    const address: AddressRecord
    var fields: EventFields
    constructor(tag: string, value: string)
      ensures this.tag == tag && this.value == value && fields == EventFields()
      ensures fresh(place) && place.fields == PlaceFields()
      ensures fresh(address) && address.fields == AddressFields()
    {
      this.tag := tag;
      this.value := value;
      place := new PlaceRecord();
      address := new AddressRecord("");
      fields := EventFields();
    }
  }

  datatype FamilyLinkFields = FamilyLinkFields(pedigree: string := "", adoptedBy: string := "", note: seq<NoteRecord> := [])

  class FamilyLinkRecord {
    const family: FamilyRecord
    var fields: FamilyLinkFields
    constructor(family: FamilyRecord)
      ensures this.family == family && fields == FamilyLinkFields()
    {
      this.family := family;
      fields := FamilyLinkFields();
    }
  }

  datatype FamilyFields = FamilyFields(
    husband: IndividualRecord? := null, wife: IndividualRecord? := null, child: seq<ChildRecord> := [],
    event: seq<EventRecord> := [], numberOfChildren: EventRecord? := null,
    citation: seq<CitationRecord> := [], objects: seq<ObjectRecord> := [], note: seq<NoteRecord> := [],
    changed: ChangedRecord? := null)

  class FamilyRecord {
    const xref: string
    var fields: FamilyFields
    constructor(xref: string)
      ensures this.xref == xref && fields == FamilyFields()
    {
      this.xref := xref;
      fields := FamilyFields();
    }
  }

  datatype FileFields = FileFields(title: string := "", form: string := "", description: NoteRecord? := null)

  class FileRecord {
    const name: string
    var fields: FileFields
    constructor(name: string)
      ensures this.name == name && fields == FileFields()
    {
      this.name := name;
      fields := FileFields();
    }
  }

  datatype HeaderDataFields = HeaderDataFields(date: string := "", copyright: string := "")

  class HeaderDataRecord {
    const name: string
    var fields: HeaderDataFields
    constructor(name: string)
      ensures this.name == name && fields == HeaderDataFields()
    {
      this.name := name;
      fields := HeaderDataFields();
    }
  }

  datatype HeaderInfoFields = HeaderInfoFields(version: string := "", form: string := "")

  class HeaderInfoRecord {
    var fields: HeaderInfoFields
    constructor()
      ensures fields == HeaderInfoFields()
    {
      fields := HeaderInfoFields();
    }
  }

  datatype HeaderFields = HeaderFields(
    copyright: string := "", file: string := "", language: string := "", destination: string := "",
    encoding: EncodingRecord? := null, timestamp: TimestampRecord? := null, source: HeaderSourceRecord? := null,
    submitter: SubmitterRecord? := null, submission: SubmissionRecord? := null, info: HeaderInfoRecord? := null,
    note: NoteRecord? := null)

  class HeaderRecord {
    var fields: HeaderFields
    constructor()
      ensures fields == HeaderFields()
    {
      fields := HeaderFields();
    }
  }

  datatype HeaderSourceFields = HeaderSourceFields(
    version: string := "", name: string := "", form: string := "",
    corporation: CorpRecord? := null, data: HeaderDataRecord? := null)

  class HeaderSourceRecord {
    const source: string
    var fields: HeaderSourceFields
    constructor(source: string)
      ensures this.source == source && fields == HeaderSourceFields()
    {
      this.source := source;
      fields := HeaderSourceFields();
    }
  }

  datatype IndividualFields = IndividualFields(
    name: seq<NameRecord> := [], sex: string := "", event: seq<EventRecord> := [],
    attribute: seq<EventRecord> := [], parents: seq<FamilyLinkRecord> := [], family: seq<FamilyLinkRecord> := [],
    citation: seq<CitationRecord> := [], photo: ObjectRecord? := null, objects: seq<ObjectRecord> := [],
    note: seq<NoteRecord> := [], changed: ChangedRecord? := null)

  class IndividualRecord {
    const xref: string
    var fields: IndividualFields
    constructor(xref: string)
      ensures this.xref == xref && fields == IndividualFields()
    {
      this.xref := xref;
      fields := IndividualFields();
    }
  }

  datatype NameFields = NameFields(
    suffix: string := "", prefix: string := "", citation: seq<CitationRecord> := [], note: seq<NoteRecord> := [])

  class NameRecord {
    const name: string
    var fields: NameFields
    constructor(name: string)
      ensures this.name == name && fields == NameFields()
    {
      this.name := name;
      fields := NameFields();
    }
  }

  datatype NoteFields = NoteFields(note: string := "", citation: seq<CitationRecord> := [])

  class NoteRecord {
    const xref: string
    var fields: NoteFields
    /** `&NoteRecord{Xref: xref}` (registry) or `&NoteRecord{Note: value}` (inline). */
    constructor(xref: string, note: string)
      ensures this.xref == xref && fields == NoteFields(note := note)
    {
      this.xref := xref;
      fields := NoteFields(note := note);
    }
  }

  datatype ObjectFields = ObjectFields(file: FileRecord? := null, note: seq<NoteRecord> := [])

  class ObjectRecord {
    const xref: string
    var fields: ObjectFields
    constructor(xref: string)
      ensures this.xref == xref && fields == ObjectFields()
    {
      this.xref := xref;
      fields := ObjectFields();
    }
  }

  datatype PlaceFields = PlaceFields(
    name: string := "", citation: seq<CitationRecord> := [], note: seq<NoteRecord> := [],
    latitude: string := "", longitude: string := "")

  class PlaceRecord {
    var fields: PlaceFields
    constructor()
      ensures fields == PlaceFields()
    {
      fields := PlaceFields();
    }
  }

  class RepositoryRecord {
    const xref: string
    constructor(xref: string)
      ensures this.xref == xref
    {
      this.xref := xref;
    }
  }

  datatype SourceDataFields = SourceDataFields(agency: string := "", event: seq<EventRecord> := [], note: seq<NoteRecord> := [])

  class SourceDataRecord {
    var fields: SourceDataFields
    constructor()
      ensures fields == SourceDataFields()
    {
      fields := SourceDataFields();
    }
  }

  datatype SourceFields = SourceFields(
    author: string := "", title: string := "", abbr: string := "", publication: string := "",
    text: string := "", sourceType: string := "", changed: ChangedRecord? := null,
    note: seq<NoteRecord> := [], objects: seq<ObjectRecord> := [], eventData: SourceDataRecord? := null,
    periodical: string := "", volume: string := "", mediaType: string := "",
    page: seq<string> := [], film: seq<string> := [], file: seq<string> := [], fileNumber: seq<string> := [],
    date: seq<string> := [], place: seq<string> := [], dateViewed: seq<string> := [], url: seq<string> := [],
    docLocation: seq<string> := [], repository: seq<string> := [], submitter: seq<string> := [])

  /** The single-valued text fields of a source that a text table may extend. */
  datatype SourceText = Author | Title | Abbr | Publication | Text | SourceType | Periodical | Volume | MediaType

  function GetSourceText(f: SourceFields, which: SourceText): string
  {
    match which
    case Author => f.author
    case Title => f.title
    case Abbr => f.abbr
    case Publication => f.publication
    case Text => f.text
    case SourceType => f.sourceType
    case Periodical => f.periodical
    case Volume => f.volume
    case MediaType => f.mediaType
  }

  /** The fields with one text field replaced and every other field kept. */
  function SetSourceText(f: SourceFields, which: SourceText, v: string): (g: SourceFields)
    ensures GetSourceText(g, which) == v
    ensures forall w: SourceText | w != which :: GetSourceText(g, w) == GetSourceText(f, w)
    ensures g.changed == f.changed && g.note == f.note && g.objects == f.objects && g.eventData == f.eventData
    ensures g.page == f.page && g.film == f.film && g.file == f.file && g.fileNumber == f.fileNumber
    ensures g.date == f.date && g.place == f.place && g.dateViewed == f.dateViewed && g.url == f.url
    ensures g.docLocation == f.docLocation && g.repository == f.repository && g.submitter == f.submitter
  {
    match which
    case Author => f.(author := v)
    case Title => f.(title := v)
    case Abbr => f.(abbr := v)
    case Publication => f.(publication := v)
    case Text => f.(text := v)
    case SourceType => f.(sourceType := v)
    case Periodical => f.(periodical := v)
    case Volume => f.(volume := v)
    case MediaType => f.(mediaType := v)
  }

  /** The multi-valued text fields of a source: each tag appends one value. */
  datatype SourceList =
    | Page | Film | File | FileNumber | Date | Place | DateViewed | Url | DocLocation | Repository | Submitter

  function GetSourceList(f: SourceFields, which: SourceList): seq<string>
  {
    match which
    case Page => f.page
    case Film => f.film
    case File => f.file
    case FileNumber => f.fileNumber
    case Date => f.date
    case Place => f.place
    case DateViewed => f.dateViewed
    case Url => f.url
    case DocLocation => f.docLocation
    case Repository => f.repository
    case Submitter => f.submitter
  }

  /** The fields with one value appended to one list and every other field kept. */
  function AppendSourceList(f: SourceFields, which: SourceList, v: string): (g: SourceFields)
    ensures GetSourceList(g, which) == GetSourceList(f, which) + [v]
    ensures forall w: SourceList | w != which :: GetSourceList(g, w) == GetSourceList(f, w)
    ensures forall w: SourceText :: GetSourceText(g, w) == GetSourceText(f, w)
    ensures g.changed == f.changed && g.note == f.note && g.objects == f.objects && g.eventData == f.eventData
  {
    match which
    case Page => f.(page := f.page + [v])
    case Film => f.(film := f.film + [v])
    case File => f.(file := f.file + [v])
    case FileNumber => f.(fileNumber := f.fileNumber + [v])
    case Date => f.(date := f.date + [v])
    case Place => f.(place := f.place + [v])
    case DateViewed => f.(dateViewed := f.dateViewed + [v])
    case Url => f.(url := f.url + [v])
    case DocLocation => f.(docLocation := f.docLocation + [v])
    case Repository => f.(repository := f.repository + [v])
    case Submitter => f.(submitter := f.submitter + [v])
  }

  class SourceRecord {
    const xref: string
    var fields: SourceFields
    constructor(xref: string)
      ensures this.xref == xref && fields == SourceFields()
    {
      this.xref := xref;
      fields := SourceFields();
    }

    /** `GetReferenceString` (source.go): builds the component list and the
        publication facts step by step, reading the segments of the publication in
        order so that a later label overrides an earlier one. */
    method GetReferenceString() returns (r: string)
      ensures r == Citation.ReferenceString(fields.author, fields.title, fields.publication)
    {
      var refs: seq<string> := [];
      if fields.author != "" {
        refs := refs + [fields.author];
      }
      if fields.title != "" {
        refs := refs + ["\"" + fields.title + "\""];
      }
      assert refs == Citation.Named(fields.author, fields.title);
      var location, name, date := Citation.ScanPublication(fields.publication);
      var facts := Citation.CombineFacts(location, name, date);
      if facts != "" {
        refs := refs + ["(" + facts + ")"];
      }
      assert refs == Citation.Named(fields.author, fields.title) + Citation.Grouped(facts);
      r := Strings.Join(refs, ", ");
    }
  }

  datatype SpouseInfoFields = SpouseInfoFields(age: string := "")

  class SpouseInfoRecord {
    const spouse: string
    var fields: SpouseInfoFields
    constructor(spouse: string)
      ensures this.spouse == spouse && fields == SpouseInfoFields()
    {
      this.spouse := spouse;
      fields := SpouseInfoFields();
    }
  }

  datatype SubmissionFields = SubmissionFields(
    familyFile: string := "", templeCode: string := "", ancestors: string := "", descendants: string := "",
    ordinance: string := "", submitter: SubmitterRecord? := null)

  class SubmissionRecord {
    const xref: string
    var fields: SubmissionFields
    constructor(xref: string)
      ensures this.xref == xref && fields == SubmissionFields()
    {
      this.xref := xref;
      fields := SubmissionFields();
    }
  }

  datatype SubmitterFields = SubmitterFields(
    name: string := "", language: string := "", address: AddressRecord? := null,
    phone: seq<string> := [], changed: ChangedRecord? := null)

  class SubmitterRecord {
    const xref: string
    var fields: SubmitterFields
    constructor(xref: string)
      ensures this.xref == xref && fields == SubmitterFields()
    {
      this.xref := xref;
      fields := SubmitterFields();
    }
  }

  datatype TimestampFields = TimestampFields(time: string := "")

  class TimestampRecord {
    const date: string
    var fields: TimestampFields
    constructor(date: string)
      ensures this.date == date && fields == TimestampFields()
    {
      this.date := date;
      fields := TimestampFields();
    }
  }

  /** A string variable whose address a text table holds: the local copy that the
      multi-valued source fields hand to their text table. */
  class StringCell {
    var value: string
    constructor(value: string)
      ensures this.value == value
    {
      this.value := value;
    }
  }

  datatype GedcomFields = GedcomFields(
    submission: SubmissionRecord? := null, family: seq<FamilyRecord> := [], individual: seq<IndividualRecord> := [],
    objects: seq<ObjectRecord> := [], repository: seq<RepositoryRecord> := [], source: seq<SourceRecord> := [],
    submitter: seq<SubmitterRecord> := [], note: seq<NoteRecord> := [])

  /** The decoded file: the header allocated up front and the top-level record lists. */
  class Gedcom {
    const header: HeaderRecord
    var fields: GedcomFields
    constructor()
      ensures fresh(header) && header.fields == HeaderFields() && fields == GedcomFields()
    {
      header := new HeaderRecord();
      fields := GedcomFields();
    }
  }
}
