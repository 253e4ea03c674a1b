/** The parser stack of the decoder (decoder.go `d.parsers`). In the Go code a
    context is a closure made by one of the `make*Parser` functions; here it is the
    name of the tag table it runs, the record it writes to, and the `minLevel` it was
    opened at. */
module Contexts {
  import opened Records
  import opened Tags

  /** One line of the file as the tokenizer delivers it: `(level, tag, value, xref)`. */
  datatype Line = Line(level: int, tag: Tag, value: string, xref: string)

  /** The string variable a text table extends: a field it was given the address
      of, or a local copy. */
  datatype TextTarget =
    | CitationPage(citation: CitationRecord)
    | DataText(data: DataRecord, index: nat)
    | SourceField(source: SourceRecord, which: SourceText)
    | LocalCopy(cell: StringCell)

  datatype Table =
    | AddressTable(address: AddressRecord)
    | ChangedTable(changed: ChangedRecord)
    | ChildTable(child: ChildRecord)
    | CorpTable(corp: CorpRecord)
    | CitationTable(citation: CitationRecord)
    | DataTable(data: DataRecord)
    | EncodingTable(encoding: EncodingRecord)
    | EventTable(event: EventRecord)
    | FamilyLinkTable(link: FamilyLinkRecord)
    | FamilyTable(family: FamilyRecord)
    | FileTable(file: FileRecord)
    | HeaderDataTable(headerData: HeaderDataRecord)
    | HeaderInfoTable(info: HeaderInfoRecord)
    | HeaderTable(header: HeaderRecord)
    | HeaderSourceTable(headerSource: HeaderSourceRecord)
    | IndividualTable(individual: IndividualRecord)
    | NameTable(name: NameRecord)
    | NoteTable(note: NoteRecord)
    | ObjectTable(obj: ObjectRecord)
    | PlaceTable(place: PlaceRecord)
    | MapTable(place: PlaceRecord)
    | RepositoryTable(repository: RepositoryRecord)
    | SourceDataTable(sourceData: SourceDataRecord)
    | SourceTable(source: SourceRecord)
    | SpouseInfoTable(spouseInfo: SpouseInfoRecord)
    | SubmissionTable(submission: SubmissionRecord)
    | SubmitterTable(submitter: SubmitterRecord)
    | TextTable(target: TextTarget)
    | TimestampTable(timestamp: TimestampRecord)
    | SlurkTable

  /** The root context acts on level-0 lines only and is never closed; every other
      context was opened at `minLevel` and closes on a line at that level or above. */
  datatype Context = RootContext(gedcom: Gedcom) | Open(table: Table, minLevel: int)

  function Top(ps: seq<Context>): Context
    requires ps != []
  {
    ps[|ps| - 1]
  }

  /** The objects a text table writes to. */
  function TextObjects(t: TextTarget): set<object>
  {
    match t
    case CitationPage(c) => {c}
    case DataText(r, _) => {r}
    case SourceField(s, _) => {s}
    case LocalCopy(cell) => {cell}
  }

  /** The objects a tag table writes to, or whose address it hands to a child context. */
  function TableObjects(t: Table): set<object>
  {
    match t
    case AddressTable(a) => {a}
    case ChangedTable(r) => {r}
    case ChildTable(r) => {r}
    case CorpTable(r) => {r}
    case CitationTable(c) => {c, c.data}
    case DataTable(r) => {r}
    case EncodingTable(e) => {e}
    case EventTable(e) => {e, e.place, e.address}
    case FamilyLinkTable(f) => {f}
    case FamilyTable(f) => {f}
    case FileTable(f) => {f}
    case HeaderDataTable(r) => {r}
    case HeaderInfoTable(r) => {r}
    case HeaderTable(h) => {h}
    case HeaderSourceTable(r) => {r}
    case IndividualTable(i) => {i}
    case NameTable(n) => {n}
    case NoteTable(n) => {n}
    case ObjectTable(o) => {o}
    case PlaceTable(p) => {p}
    case MapTable(p) => {p}
    case RepositoryTable(o) => {o}
    case SourceDataTable(r) => {r}
    case SourceTable(s) => {s}
    case SpouseInfoTable(r) => {r}
    case SubmissionTable(r) => {r}
    case SubmitterTable(r) => {r}
    case TextTable(t) => TextObjects(t)
    case TimestampTable(t) => {t}
    case SlurkTable => {}
  }

  function ContextObjects(c: Context): set<object>
  {
    match c
    case RootContext(g) => {g, g.header}
    case Open(t, _) => TableObjects(t)
  }

  /** The objects the top context writes to. */
  function TopObjects(ps: seq<Context>): set<object>
  {
    if ps == [] then {} else ContextObjects(Top(ps))
  }

  /** Every object some context on the stack may write to. */
  function Targets(ps: seq<Context>): (r: set<object>)
    ensures forall k | 0 <= k < |ps| :: ContextObjects(ps[k]) <= r
  {
    if ps == [] then {} else Targets(ps[..|ps| - 1]) + ContextObjects(Top(ps))
  }

  lemma {:induction false} TargetsPrefix(ps: seq<Context>, n: nat)
    requires n <= |ps|
    ensures Targets(ps[..n]) <= Targets(ps)
    decreases |ps|
  {
    if n < |ps| {
      assert ps[..n] == ps[..|ps| - 1][..n];
      TargetsPrefix(ps[..|ps| - 1], n);
    } else {
      assert ps[..n] == ps;
    }
  }

  lemma TargetsPush(ps: seq<Context>, c: Context)
    ensures Targets(ps + [c]) == Targets(ps) + ContextObjects(c)
  {
    assert (ps + [c])[..|ps + [c]| - 1] == ps;
  }

  /** The shape every reachable stack has: the root at the bottom, open contexts
      above it, the first opened at level 0 (the root opens contexts on level-0
      lines only), and `minLevel` strictly increasing towards the top. */
  predicate WellFormed(ps: seq<Context>, g: Gedcom)
  {
    && |ps| >= 1
    && ps[0] == RootContext(g)
    && (forall k | 1 <= k < |ps| :: ps[k].Open?)
    && (|ps| >= 2 ==> ps[1].minLevel == 0)
    && (forall k | 1 <= k < |ps| - 1 :: ps[k].minLevel < ps[k + 1].minLevel)
  }

  /** `minLevel` increases strictly between any two open contexts, not only
      neighbours, and no open context was opened below level 0. */
  lemma {:induction false} LevelsIncrease(ps: seq<Context>, g: Gedcom, i: int, j: int)
    requires WellFormed(ps, g)
    requires 1 <= i < j < |ps|
    ensures 0 <= ps[i].minLevel < ps[j].minLevel
    decreases j
  {
    if i + 1 < j {
      LevelsIncrease(ps, g, i, j - 1);
    } else if i > 1 {
      LevelsIncrease(ps, g, 1, i);
    }
  }

  /** The stack after a line at `level` has closed every context it closes: open
      contexts are popped from the top while the line's level is at most their
      `minLevel`. */
  function Survivors(ps: seq<Context>, level: int): (s: seq<Context>)
    ensures |s| <= |ps| && s == ps[..|s|]
    decreases |ps|
  {
    if ps != [] && Top(ps).Open? && level <= Top(ps).minLevel then Survivors(ps[..|ps| - 1], level) else ps
  }

  /** A line at level L closes exactly the contexts opened at level L or deeper:
      what survives is the root and the contexts opened above L, and the root always
      survives. */
  lemma {:induction false} SurvivorsExact(ps: seq<Context>, g: Gedcom, level: int)
    requires WellFormed(ps, g)
    ensures var s := Survivors(ps, level);
      && 1 <= |s|
      && WellFormed(s, g)
      && (forall k | 1 <= k < |s| :: s[k].minLevel < level)
      && (forall k | |s| <= k < |ps| :: ps[k].minLevel >= level)
    decreases |ps|
  {
    var s := Survivors(ps, level);
    if |ps| > 1 && level <= Top(ps).minLevel {
      var rest := ps[..|ps| - 1];
      assert WellFormed(rest, g);
      SurvivorsExact(rest, g, level);
      forall k | |s| <= k < |ps| ensures ps[k].minLevel >= level {
        if k < |ps| - 1 {
          assert rest[k] == ps[k];
        }
      }
    } else if |ps| > 1 {
      forall k | 1 <= k < |ps| ensures ps[k].minLevel < level {
        if k < |ps| - 1 {
          LevelsIncrease(ps, g, k, |ps| - 1);
        }
      }
    }
  }

  /** A context whose text table extends an element of a data record's text list. */
  predicate OpensDataText(c: Context)
  {
    c.Open? && c.table.TextTable? && c.table.target.DataText?
  }

  /** The data records behind the text tables on the stack that extend an element
      of a data record's text list. */
  function DataTexts(ps: seq<Context>): set<DataRecord>
  {
    set k | 0 <= k < |ps| && ps[k].Open? && ps[k].table.TextTable? && ps[k].table.target.DataText? :: ps[k].table.target.data
  }

  /** Every such text table points at an element that exists. */
  predicate TextTargetsLive(ps: seq<Context>)
    reads DataTexts(ps)`fields
  {
    forall k | 0 <= k < |ps| && ps[k].Open? && ps[k].table.TextTable? && ps[k].table.target.DataText? ::
      ps[k].table.target.index < |ps[k].table.target.data.fields.text|
  }

  /** Opening a context keeps every text target live when the new context's own
      target, if it extends an element of a data record's text list, exists. */
  lemma LiveTop(ps: seq<Context>, c: Context)
    requires TextTargetsLive(ps)
    requires OpensDataText(c) ==> c.table.target.index < |c.table.target.data.fields.text|
    ensures TextTargetsLive(ps + [c])
  {
    var ps' := ps + [c];
    forall k | 0 <= k < |ps'| && OpensDataText(ps'[k])
      ensures ps'[k].table.target.index < |ps'[k].table.target.data.fields.text|
    {
      if k < |ps| {
        assert ps'[k] == ps[k];
      }
    }
  }

  /** The same for a stack known only to extend `ps` by one context. */
  lemma LiveExtend(ps: seq<Context>, ps': seq<Context>)
    requires TextTargetsLive(ps) && |ps'| == |ps| + 1 && ps'[..|ps|] == ps
    requires OpensDataText(Top(ps')) ==> Top(ps').table.target.index < |Top(ps').table.target.data.fields.text|
    ensures TextTargetsLive(ps')
  {
    assert ps' == ps + [Top(ps')];
    LiveTop(ps, Top(ps'));
  }

  /** Closing contexts keeps the targets of those that stay live. */
  lemma LivePrefix(ps: seq<Context>, n: nat)
    requires TextTargetsLive(ps) && n <= |ps|
    ensures TextTargetsLive(ps[..n])
  {
    forall k | 0 <= k < n && OpensDataText(ps[..n][k])
      ensures ps[..n][k].table.target.index < |ps[..n][k].table.target.data.fields.text|
    {
      assert ps[..n][k] == ps[k];
    }
  }

  /** The same for a stack known only to extend `ps` by one context. */
  lemma PushExtendWellFormed(ps: seq<Context>, g: Gedcom, ps': seq<Context>)
    requires WellFormed(ps, g) && |ps'| == |ps| + 1 && ps'[..|ps|] == ps && Top(ps').Open?
    requires forall k | 1 <= k < |ps| :: ps[k].minLevel < Top(ps').minLevel
    requires |ps| == 1 ==> Top(ps').minLevel == 0
    ensures WellFormed(ps', g)
  {
    assert ps' == ps + [Top(ps')];
    PushWellFormed(ps, g, Top(ps'));
  }

  /** A context opened at a level above every open context, or at level 0 on the
      root alone, keeps the stack well formed. */
  lemma PushWellFormed(ps: seq<Context>, g: Gedcom, c: Context)
    requires WellFormed(ps, g) && c.Open?
    requires forall k | 1 <= k < |ps| :: ps[k].minLevel < c.minLevel
    requires |ps| == 1 ==> c.minLevel == 0
    ensures WellFormed(ps + [c], g)
  {
    var ps' := ps + [c];
    forall k | 1 <= k < |ps'| - 1 ensures ps'[k].minLevel < ps'[k + 1].minLevel {
      assert ps'[k] == ps[k];
      if k + 1 < |ps| {
        assert ps'[k + 1] == ps[k + 1];
      }
    }
  }
}
