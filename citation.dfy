/** The citation text of a source (source.go `GetReferenceString`), as a
    specification: the author, the quoted title and the parenthesised publication
    facts, joined by ", ". The publication field is cut at `;` and each piece is
    read with the pattern `^ *([^:]+): (.+)$` (`MatchSegment`). */
module Citation {
  import opened Strings

  /** A publication segment the pattern accepted: its key and its value. */
  datatype Labeled = Labeled(key: string, value: string)

  function Spaces(n: nat): (r: string)
    ensures |r| == n && forall k | 0 <= k < n :: r[k] == ' '
  {
    seq(n, _ => ' ')
  }

  /** `p` is `n` spaces, a non-empty key without `:`, ": ", and a non-empty value
      on one line: one way the pattern can match the whole of `p`. */
  predicate Decomposes(p: string, n: nat, key: string, value: string)
  {
    p == Spaces(n) + key + ": " + value
    && key != [] && ':' !in key
    && value != [] && '\n' !in value
  }

  /** Number of spaces that open `p`. */
  function LeadingSpaces(p: string): (n: nat)
    ensures n <= |p| && forall k | 0 <= k < n :: p[k] == ' '
    ensures n == |p| || p[n] != ' '
  {
    if p != [] && p[0] == ' ' then 1 + LeadingSpaces(p[1..]) else 0
  }

  /** Position of the first `:` at or after `i`, or `|p|`. */
  function ColonFrom(p: string, i: nat): (c: nat)
    requires i <= |p|
    ensures i <= c <= |p|
    ensures c < |p| ==> p[c] == ':'
    ensures forall k | i <= k < c :: p[k] != ':'
    decreases |p| - i
  {
    if i == |p| || p[i] == ':' then i else ColonFrom(p, i + 1)
  }

  /** `FindStringSubmatch` with `^ *([^:]+): (.+)$`. The key always ends at the
      first colon; the greedy ` *` keeps every leading space unless that would leave
      the key empty, in which case it gives one space back. Whatever the pattern
      accepts is a decomposition of the segment: the text before the key is all
      spaces, and the value runs to the end. */
  function MatchSegment(p: string): (m: Option<Labeled>)
    ensures m.Some? ==> |m.value.key| + |m.value.value| + 2 <= |p|
    ensures m.Some? ==> Decomposes(p, |p| - |m.value.key| - |m.value.value| - 2, m.value.key, m.value.value)
  {
    var n := LeadingSpaces(p);
    var c := ColonFrom(p, 0);
    if c + 2 < |p| && p[c + 1] == ' ' && '\n' !in p[c + 2..] && (c > n || n > 0) then
      var start := if c > n then n else n - 1;
      CutDecomposes(p, start, c);
      Some(Labeled(p[start..c], p[c + 2..]))
    else
      None
  }

  /** Cutting a segment after a space-only prefix and around the first colon, when a
      space and a one-line value follow it, decomposes the segment. */
  lemma CutDecomposes(p: string, start: nat, c: nat)
    requires start < c && c + 2 < |p| && p[c] == ':' && p[c + 1] == ' ' && '\n' !in p[c + 2..]
    requires forall k | 0 <= k < start :: p[k] == ' '
    requires forall k | 0 <= k < c :: p[k] != ':'
    ensures Decomposes(p, start, p[start..c], p[c + 2..])
  {
    assert ':' !in p[start..c];
    assert p[..start] == Spaces(start);
    assert p[c..c + 2] == ": ";
    Reassemble(p, start, c);
  }

  lemma Reassemble(p: string, i: nat, j: nat)
    requires i <= j && j + 2 <= |p|
    ensures p == p[..i] + p[i..j] + p[j..j + 2] + p[j + 2..]
  {
    assert p[..j] == p[..i] + p[i..j];
    assert p[..j + 2] == p[..j] + p[j..j + 2];
    assert p == p[..j + 2] + p[j + 2..];
  }

  /** Every decomposition is found: the pattern matches, with the same value, and the
      key it captures is the decomposition's key minus the leading spaces that the
      greedy ` *` took. */
  lemma {:induction false} MatchSegmentComplete(p: string, n: nat, key: string, value: string)
    requires Decomposes(p, n, key, value)
    ensures MatchSegment(p).Some?
    ensures MatchSegment(p).value.value == value
    ensures var l := MatchSegment(p).value.key;
      0 < |l| <= |key| && key == Spaces(|key| - |l|) + l
  {
    var c := n + |key|;
    FirstColon(p, n, key, value);
    var lead := LeadingSpaces(p);
    assert lead <= c;
    assert n <= lead;
    var start := if c > lead then lead else lead - 1;
    assert MatchSegment(p) == Some(Labeled(p[start..c], p[c + 2..]));
    KeyAfterSpaces(p, n, key, value, start);
  }

  /** In a decomposition the first colon is the one after the key. */
  lemma FirstColon(p: string, n: nat, key: string, value: string)
    requires Decomposes(p, n, key, value)
    ensures var c := n + |key|;
      c + 2 < |p| && ColonFrom(p, 0) == c && p[c + 1] == ' ' && p[c + 2..] == value
  {
    var c := n + |key|;
    assert p[c] == ':' && p[c + 1] == ' ' && p[c + 2..] == value;
    assert forall k | 0 <= k < c :: p[k] != ':' by {
      forall k | 0 <= k < c ensures p[k] != ':' {
        if k >= n { assert p[k] == key[k - n]; }
      }
    }
  }

  /** Cutting the segment at a space-only prefix that reaches into the key leaves
      the rest of the key, preceded in the key by spaces only. */
  lemma KeyAfterSpaces(p: string, n: nat, key: string, value: string, start: nat)
    requires Decomposes(p, n, key, value)
    requires n <= start < n + |key|
    requires forall k | 0 <= k < start :: p[k] == ' '
    ensures p[start..n + |key|] == key[start - n..]
    ensures key == Spaces(start - n) + key[start - n..]
  {
    var c := n + |key|;
    assert p[n..c] == key;
    forall k | 0 <= k < start - n ensures key[k] == ' ' {
      assert key[k] == p[n + k];
    }
    assert key[..start - n] == Spaces(start - n);
    assert key == key[..start - n] + key[start - n..];
  }

  /** The pattern accepts segment `p` and captures `key` as its label. */
  predicate Carries(p: string, key: string)
  {
    MatchSegment(p).Some? && MatchSegment(p).value.key == key
  }

  /** `parts[k]` is the last segment carrying `key`. */
  predicate LastCarrier(parts: seq<string>, k: int, key: string)
  {
    0 <= k < |parts| && Carries(parts[k], key) && forall j | k < j < |parts| :: !Carries(parts[j], key)
  }

  /** The value of the last segment carrying `key`, or "" when none does. */
  function LastValue(parts: seq<string>, key: string): (v: string)
    decreases |parts|
  {
    if parts == [] then ""
    else
      var m := MatchSegment(parts[|parts| - 1]);
      if m.Some? && m.value.key == key then m.value.value
      else LastValue(parts[..|parts| - 1], key)
  }

  /** Values the pattern captures are never empty, so the value of a key is "" exactly
      when no segment carries it. */
  lemma {:induction false} LastValueEmpty(parts: seq<string>, key: string)
    ensures LastValue(parts, key) == "" <==> forall k | 0 <= k < |parts| :: !Carries(parts[k], key)
    decreases |parts|
  {
    if parts != [] {
      var init := parts[..|parts| - 1];
      assert forall k | 0 <= k < |init| :: init[k] == parts[k];
      LastValueEmpty(init, key);
    }
  }

  /** The value of a key is the one its last carrier captured: later segments
      override earlier ones. */
  lemma {:induction false} LastValueIsLastCarrier(parts: seq<string>, key: string, k: int)
    requires LastCarrier(parts, k, key)
    ensures LastValue(parts, key) == MatchSegment(parts[k]).value.value
    decreases |parts|
  {
    var init := parts[..|parts| - 1];
    if k < |parts| - 1 {
      assert !Carries(parts[|parts| - 1], key);
      assert forall j | 0 <= j < |init| :: init[j] == parts[j];
      assert LastCarrier(init, k, key);
      LastValueIsLastCarrier(init, key, k);
    }
  }

  /** `Location`, `Name` and `Date`, the non-empty ones in that order, joined by ", ". */
  function Facts(location: string, name: string, date: string): string
  {
    Join(NonEmpty([location, name, date]), ", ")
  }

  function NonEmpty(xs: seq<string>): (r: seq<string>)
    ensures forall k | 0 <= k < |r| :: r[k] != ""
    ensures |r| <= |xs|
  {
    if xs == [] then []
    else (if xs[0] != "" then [xs[0]] else []) + NonEmpty(xs[1..])
  }

  /** The publication facts of a publication field: its segments read in order, the
      last value of each of the three keys kept. */
  function PublicationFacts(publication: string): string
  {
    var parts := Split(publication, ';');
    Facts(LastValue(parts, "Location"), LastValue(parts, "Name"), LastValue(parts, "Date"))
  }

  /** The citation components in order: author, quoted title, parenthesised
      publication facts, each present only when non-empty. */
  function Components(author: string, title: string, facts: string): seq<string>
  {
    Named(author, title) + Grouped(facts)
  }

  /** The author, then the title in double quotes, each only when present. */
  function Named(author: string, title: string): seq<string>
  {
    (if author != "" then [author] else []) + (if title != "" then ["\"" + title + "\""] else [])
  }

  /** The publication facts in parentheses, when there are any. */
  function Grouped(facts: string): seq<string>
  {
    if facts != "" then ["(" + facts + ")"] else []
  }


  /** No segment of the publication carries any of the three labels. */
  predicate NoFacts(publication: string)
  {
    forall k | 0 <= k < |Split(publication, ';')| ::
      !Carries(Split(publication, ';')[k], "Location")
      && !Carries(Split(publication, ';')[k], "Name")
      && !Carries(Split(publication, ';')[k], "Date")
  }

  /** The reference string of a source with these author, title and publication
      fields. It is empty exactly when there is nothing to cite, and a present
      author opens it verbatim. */
  function ReferenceString(author: string, title: string, publication: string): (r: string)
    ensures r == "" <==> author == "" && title == "" && NoFacts(publication)
    ensures author != "" ==> |r| >= |author| && r[..|author|] == author
  {
    var parts := Split(publication, ';');
    var facts := PublicationFacts(publication);
    LastValueEmpty(parts, "Location");
    LastValueEmpty(parts, "Name");
    LastValueEmpty(parts, "Date");
    FactsEmpty(LastValue(parts, "Location"), LastValue(parts, "Name"), LastValue(parts, "Date"));
    NoStraySeparator(author, title, facts);
    var r := Assembled(author, title, facts);
    assert author != "" ==> |r| >= |author| && r[..|author|] == author by {
      if author != "" {
        AuthorFirst(author, title, facts);
      }
    }
    r
  }

  /** The components joined by ", ". */
  function Assembled(author: string, title: string, facts: string): string
  {
    Join(Components(author, title, facts), ", ")
  }

  // ---------------------------------------------------------------------------
  // Properties

  /** Reading one more segment: a later segment with the key overrides whatever came
      before, and a segment the pattern rejects, or with another key, changes nothing. */
  lemma LastValueSnoc(parts: seq<string>, p: string, key: string)
    ensures LastValue(parts + [p], key) == if Carries(p, key) then MatchSegment(p).value.value else LastValue(parts, key)
  {
    assert (parts + [p])[|parts + [p]| - 1] == p;
    assert (parts + [p])[..|parts + [p]| - 1] == parts;
  }

  lemma NonEmptyThree(a: string, b: string, c: string)
    ensures NonEmpty([a, b, c]) == (if a != "" then [a] else []) + (if b != "" then [b] else []) + (if c != "" then [c] else [])
  {
    assert [a, b, c][1..] == [b, c];
    assert [b, c][1..] == [c];
    assert [c][1..] == [];
    assert NonEmpty([c]) == (if c != "" then [c] else []) + NonEmpty([]);
    assert NonEmpty([b, c]) == (if b != "" then [b] else []) + NonEmpty([c]);
    assert NonEmpty([a, b, c]) == (if a != "" then [a] else []) + NonEmpty([b, c]);
  }

  lemma JoinTwo(a: string, b: string, sep: string)
    ensures Join([a, b], sep) == a + sep + b
  {
    assert [a, b][1..] == [b];
  }

  /** The facts keep the order Location, Name, Date and put ", " only between
      non-empty parts. */
  lemma FactsShape(location: string, name: string, date: string)
    ensures location != "" && name != "" && date != "" ==> Facts(location, name, date) == location + ", " + name + ", " + date
    ensures location != "" && name == "" && date != "" ==> Facts(location, name, date) == location + ", " + date
    ensures location == "" && name != "" && date != "" ==> Facts(location, name, date) == name + ", " + date
    ensures location != "" && name != "" && date == "" ==> Facts(location, name, date) == location + ", " + name
    ensures location == "" && name == "" ==> Facts(location, name, date) == date
    ensures location == "" && date == "" ==> Facts(location, name, date) == name
    ensures name == "" && date == "" ==> Facts(location, name, date) == location
  {
    NonEmptyThree(location, name, date);
    JoinTwo(location, date, ", ");
    JoinTwo(name, date, ", ");
    JoinTwo(location, name, ", ");
    if location != "" && name != "" && date != "" {
      assert NonEmpty([location, name, date]) == [location, name, date];
      assert [location, name, date][1..] == [name, date];
    } else if location != "" && name != "" {
      assert NonEmpty([location, name, date]) == [location, name];
    } else if location != "" && date != "" {
      assert NonEmpty([location, name, date]) == [location, date];
    } else if name != "" && date != "" {
      assert NonEmpty([location, name, date]) == [name, date];
    }
  }

  /** Facts are empty exactly when all three labels are. */
  lemma FactsEmpty(location: string, name: string, date: string)
    ensures Facts(location, name, date) == "" <==> location == "" && name == "" && date == ""
  {
    FactsShape(location, name, date);
    var xs := [location, name, date];
    assert xs[1..] == [name, date] && xs[1..][1..] == [date] && xs[1..][1..][1..] == [];
    if location != "" {
      JoinFirst(NonEmpty(xs), ", ");
    } else if name != "" {
      JoinFirst(NonEmpty(xs), ", ");
    } else if date != "" {
      JoinFirst(NonEmpty(xs), ", ");
    }
  }

  /** A join starts with its first part. */
  lemma JoinFirst(parts: seq<string>, sep: string)
    requires parts != []
    ensures |Join(parts, sep)| >= |parts[0]|
    ensures Join(parts, sep)[..|parts[0]|] == parts[0]
  {
    if |parts| > 1 {
      assert Join(parts, sep) == parts[0] + (sep + Join(parts[1..], sep));
    }
  }

  /** Joining one more part adds the separator and that part at the end. */
  lemma {:induction false} JoinSnoc(parts: seq<string>, last: string, sep: string)
    ensures Join(parts + [last], sep) == if parts == [] then last else Join(parts, sep) + sep + last
    decreases |parts|
  {
    if |parts| > 1 {
      assert (parts + [last])[1..] == parts[1..] + [last];
      JoinSnoc(parts[1..], last, sep);
    } else if |parts| == 1 {
      assert (parts + [last])[1..] == [last];
    }
  }

  /** Non-empty publication facts close the result in parentheses, after the author
      and title and their ", " when either is present. */
  lemma FactsLast(author: string, title: string, facts: string)
    requires facts != ""
    ensures var g := "(" + facts + ")";
      Assembled(author, title, facts) ==
        if author == "" && title == "" then g else Join(Named(author, title), ", ") + ", " + g
  {
    JoinSnoc(Named(author, title), "(" + facts + ")", ", ");
  }

  /** A non-empty author opens the result verbatim; anything after it follows ", ". */
  lemma AuthorFirst(author: string, title: string, facts: string)
    requires author != ""
    ensures var r := Assembled(author, title, facts);
      |r| >= |author| && r[..|author|] == author
      && (r == author || (|r| > |author| + 2 && r[|author|..|author| + 2] == ", "))
  {
    var cs := Components(author, title, facts);
    assert cs[0] == author;
    if |cs| > 1 {
      var rest := Join(cs[1..], ", ");
      assert Join(cs, ", ") == author + ", " + rest;
      assert rest != "" by {
        JoinFirst(cs[1..], ", ");
      }
      SeparatedHead(author, ", ", rest);
    }
  }

  lemma SeparatedHead(head: string, sep: string, rest: string)
    requires rest != ""
    ensures var r := head + sep + rest;
      |r| > |head| + |sep| && r[..|head|] == head && r[|head|..|head| + |sep|] == sep
  {
  }

  /** One turn of the scan: a segment carrying one of the three labels replaces that
      label's value, and leaves the other two alone. */
  method ReadSegment(p: string, location: string, name: string, date: string)
    returns (location': string, name': string, date': string)
    ensures location' == if Carries(p, "Location") then MatchSegment(p).value.value else location
    ensures name' == if Carries(p, "Name") then MatchSegment(p).value.value else name
    ensures date' == if Carries(p, "Date") then MatchSegment(p).value.value else date
  {
    location', name', date' := location, name, date;
    var m := MatchSegment(p);
    if m.Some? {
      if m.value.key == "Location" {
        location' := m.value.value;
      } else if m.value.key == "Name" {
        name' := m.value.value;
      } else if m.value.key == "Date" {
        date' := m.value.value;
      }
    }
  }

  /** The first half of `GetReferenceString` (source.go): one pass over the
      `;`-separated segments of the publication, keeping the value of the last
      segment labelled `Location`, `Name` and `Date`. */
  method ScanPublication(publication: string) returns (location: string, name: string, date: string)
    ensures location == LastValue(Split(publication, ';'), "Location")
    ensures name == LastValue(Split(publication, ';'), "Name")
    ensures date == LastValue(Split(publication, ';'), "Date")
  {
    location, name, date := "", "", "";
    var parts := Split(publication, ';');
    var k := 0;
    while k < |parts|
      invariant 0 <= k <= |parts|
      invariant location == LastValue(parts[..k], "Location")
      invariant name == LastValue(parts[..k], "Name")
      invariant date == LastValue(parts[..k], "Date")
    {
      assert parts[..k + 1] == parts[..k] + [parts[k]];
      LastValueSnoc(parts[..k], parts[k], "Location");
      LastValueSnoc(parts[..k], parts[k], "Name");
      LastValueSnoc(parts[..k], parts[k], "Date");
      location, name, date := ReadSegment(parts[k], location, name, date);
      k := k + 1;
    }
    assert parts[..k] == parts;
  }

  /** The second half of `GetReferenceString` (source.go): the location, name and
      date that are present, joined with `", "`. */
  method CombineFacts(location: string, name: string, date: string) returns (facts: string)
    ensures facts == Facts(location, name, date)
  {
    FactsShape(location, name, date);
    facts := location;
    if name != "" {
      if facts != "" {
        facts := facts + ", ";
      }
      facts := facts + name;
    }
    if date != "" {
      if facts != "" {
        facts := facts + ", ";
      }
      facts := facts + date;
    }
  }

  /** The title comes in double quotes, straight after the author when there is one. */
  lemma TitleQuoted(author: string, title: string, facts: string)
    requires title != ""
    ensures var r := Assembled(author, title, facts);
      var q := "\"" + title + "\"";
      var at := if author == "" then 0 else |author| + 2;
      |r| >= at + |q| && r[at..at + |q|] == q
  {
    var cs := Components(author, title, facts);
    var q := "\"" + title + "\"";
    var g := Grouped(facts);
    if author == "" {
      assert cs == [q] + g;
      JoinFirst(cs, ", ");
    } else {
      assert cs == [author, q] + g;
      var rest := Join(cs[1..], ", ");
      assert Join(cs, ", ") == author + ", " + rest;
      JoinFirst(cs[1..], ", ");
      assert rest[..|q|] == q;
      assert (author + ", " + rest)[|author| + 2..] == rest;
    }
  }

  /** No component is empty, so the join has no leading, trailing or doubled
      separator: the result is empty exactly when there are no components. */
  lemma NoStraySeparator(author: string, title: string, facts: string)
    ensures forall k | 0 <= k < |Components(author, title, facts)| :: Components(author, title, facts)[k] != ""
    ensures Assembled(author, title, facts) == "" <==> Components(author, title, facts) == []
  {
    var cs := Components(author, title, facts);
    if cs != [] {
      JoinFirst(cs, ", ");
    }
  }
}
