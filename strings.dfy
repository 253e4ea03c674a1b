/** String helpers shared by the decoder and the citation formatter: the optional
    value, `strings.Trim(value, "@")` as used by `stripXref`, the two continuation
    joins of GEDCOM text fields, and `strings.Split`/`strings.Join`. */
module Strings {

  datatype Option<+T> = None | Some(value: T)

  /** The value with every leading `@` removed. */
  function TrimLeadingAts(s: string): (r: string)
    ensures |r| <= |s| && r == s[|s| - |r|..]
    ensures r == [] || r[0] != '@'
    ensures forall k | 0 <= k < |s| - |r| :: s[k] == '@'
  {
    if s != [] && s[0] == '@' then TrimLeadingAts(s[1..]) else s
  }

  /** The value with every trailing `@` removed. */
  function TrimTrailingAts(s: string): (r: string)
    ensures |r| <= |s| && r == s[..|r|]
    ensures r == [] || r[|r| - 1] != '@'
    ensures forall k | |r| <= k < |s| :: s[k] == '@'
  {
    if s != [] && s[|s| - 1] == '@' then TrimTrailingAts(s[..|s| - 1]) else s
  }

  /** Number of `@` characters that open the value. */
  function LeadingAts(s: string): (n: nat)
    ensures n <= |s|
  {
    |s| - |TrimLeadingAts(s)|
  }

  /** `stripXref` (decoder.go): `strings.Trim(value, "@")`. The result is the middle
      of the value, every character cut off on either side is an `@`, and the result
      neither begins nor ends with one, so the cut is maximal on both sides. */
  function StripXref(value: string): (r: string)
    ensures LeadingAts(value) + |r| <= |value|
    ensures r == value[LeadingAts(value)..LeadingAts(value) + |r|]
    ensures forall k | 0 <= k < LeadingAts(value) :: value[k] == '@'
    ensures forall k | LeadingAts(value) + |r| <= k < |value| :: value[k] == '@'
    ensures r == [] || (r[0] != '@' && r[|r| - 1] != '@')
  {
    var left := TrimLeadingAts(value);
    var r := TrimTrailingAts(left);
    assert r == [] || r[0] == left[0];
    r
  }

  /** Wrapping an identifier in `@` delimiters and stripping them again gives the
      identifier back, whatever number of delimiters surround it. */
  lemma {:induction false} StripXrefOfPointer(id: string, open: nat, close: nat)
    requires id == [] || (id[0] != '@' && id[|id| - 1] != '@')
    ensures StripXref(Ats(open) + id + Ats(close)) == id
  {
    var s := Ats(open) + id + Ats(close);
    if id == [] {
      AtsAdd(open, close);
      assert s == Ats(open + close) + [];
      TrimLeadingOfAts(open + close, []);
    } else {
      assert s == Ats(open) + (id + Ats(close));
      TrimLeadingOfAts(open, id + Ats(close));
      TrimTrailingOfAts(id, close);
    }
  }

  lemma {:induction false} AtsAdd(m: nat, n: nat)
    ensures Ats(m) + Ats(n) == Ats(m + n)
  {
    assert |Ats(m) + Ats(n)| == |Ats(m + n)|;
    forall k | 0 <= k < m + n ensures (Ats(m) + Ats(n))[k] == Ats(m + n)[k] { }
  }

  /** `n` copies of the cross-reference delimiter. */
  function Ats(n: nat): (r: string)
    ensures |r| == n && forall k | 0 <= k < n :: r[k] == '@'
  {
    if n == 0 then [] else ['@'] + Ats(n - 1)
  }

  lemma {:induction false} TrimLeadingOfAts(n: nat, rest: string)
    requires rest == [] || rest[0] != '@'
    ensures TrimLeadingAts(Ats(n) + rest) == rest
  {
    if n > 0 {
      var tail := Ats(n - 1) + rest;
      assert Ats(n) + rest == ['@'] + tail;
      assert (['@'] + tail)[1..] == tail;
      TrimLeadingOfAts(n - 1, rest);
    } else {
      assert Ats(n) + rest == rest;
    }
  }

  lemma {:induction false} TrimTrailingOfAts(body: string, n: nat)
    requires body == [] || body[|body| - 1] != '@'
    ensures TrimTrailingAts(body + Ats(n)) == body
  {
    if n > 0 {
      assert Ats(n) == Ats(n - 1) + ['@'] by { AtsSnoc(n); }
      assert (body + Ats(n))[..|body + Ats(n)| - 1] == body + Ats(n - 1);
      TrimTrailingOfAts(body, n - 1);
    } else {
      assert body + Ats(n) == body;
    }
  }

  lemma {:induction false} AtsSnoc(n: nat)
    requires n > 0
    ensures Ats(n) == Ats(n - 1) + ['@']
  {
    assert |Ats(n)| == |Ats(n - 1) + ['@']|;
    forall k | 0 <= k < n ensures Ats(n)[k] == (Ats(n - 1) + ['@'])[k] { }
  }

  // ---------------------------------------------------------------------------
  // Continuation lines (decoder.go: makeNoteParser, makeTextParser, makeAddressParser)

  /** A child line that extends the text value of its parent: `CONT` starts a new
      line of the text, `CONC` continues the current one. */
  datatype Continuation = Cont(text: string) | Conc(text: string)

  /** One continuation applied to the accumulated text, as the tag tables do it. */
  function Extend(acc: string, c: Continuation): string
  {
    match c
    case Cont(v) => acc + "\n" + v
    case Conc(v) => acc + v
  }

  /** The text a continuation line contributes: a newline and its value, or its value. */
  function Piece(c: Continuation): string
  {
    match c
    case Cont(v) => "\n" + v
    case Conc(v) => v
  }

  /** The pieces of a run of continuation lines, concatenated in order. */
  function Pieces(cs: seq<Continuation>): string
  {
    if cs == [] then "" else Piece(cs[0]) + Pieces(cs[1..])
  }

  /** One continuation line appends its piece. */
  lemma ExtendIsPiece(acc: string, c: Continuation)
    ensures Extend(acc, c) == acc + Piece(c)
  {
    match c
    case Cont(v) => assert acc + "\n" + v == acc + ("\n" + v);
    case Conc(v) =>
  }

  /** The field after a run of continuation lines, applied one at a time: the base
      followed, in order, by "\n"+v for each CONT and v for each CONC. */
  function ExtendAll(acc: string, cs: seq<Continuation>): (r: string)
    ensures r == acc + Pieces(cs)
    decreases |cs|
  {
    if cs == [] then
      assert acc + "" == acc;
      acc
    else
      var next := Extend(acc, cs[0]);
      ExtendIsPiece(acc, cs[0]);
      assert next + Pieces(cs[1..]) == acc + (Piece(cs[0]) + Pieces(cs[1..]));
      ExtendAll(next, cs[1..])
  }

  /** A run of continuation lines may be cut anywhere: accumulating the first part and
      then the second gives the same field as accumulating the whole run. */
  lemma {:induction false} ExtendAllSplits(base: string, cs1: seq<Continuation>, cs2: seq<Continuation>)
    ensures ExtendAll(base, cs1 + cs2) == ExtendAll(ExtendAll(base, cs1), cs2)
    decreases |cs1|
  {
    if cs1 != [] {
      assert (cs1 + cs2)[0] == cs1[0];
      assert (cs1 + cs2)[1..] == cs1[1..] + cs2;
      ExtendAllSplits(Extend(base, cs1[0]), cs1[1..], cs2);
    } else {
      assert cs1 + cs2 == cs2;
    }
  }

  /** A base line, two CONC lines and one CONT line join with no separator other than
      the one newline the CONT rule inserts. */
  lemma ConcConcCont(base: string, c1: string, c2: string, n1: string)
    ensures ExtendAll(base, [Conc(c1), Conc(c2), Cont(n1)]) == base + c1 + c2 + "\n" + n1
  {
    assert Pieces([Cont(n1)]) == "\n" + n1;
    assert [Conc(c1), Conc(c2), Cont(n1)][1..] == [Conc(c2), Cont(n1)];
    assert [Conc(c2), Cont(n1)][1..] == [Cont(n1)];
  }

  // ---------------------------------------------------------------------------
  // strings.Split and strings.Join

  /** `strings.Split(s, sep)` for a one-character separator: the pieces between
      separators, always at least one. */
  function Split(s: string, sep: char): (parts: seq<string>)
    ensures |parts| >= 1
    ensures forall k | 0 <= k < |parts| :: sep !in parts[k]
    decreases |s|
  {
    if s == [] then [""]
    else
      var rest := Split(s[1..], sep);
      if s[0] == sep then [""] + rest
      else [[s[0]] + rest[0]] + rest[1..]
  }

  /** `strings.Join(parts, sep)`. */
  function Join(parts: seq<string>, sep: string): string
  {
    if parts == [] then ""
    else if |parts| == 1 then parts[0]
    else parts[0] + sep + Join(parts[1..], sep)
  }

  /** Joining the pieces of a split with the separator gives the text back. */
  lemma {:induction false} JoinSplit(s: string, sep: char)
    ensures Join(Split(s, sep), [sep]) == s
    decreases |s|
  {
    if s != [] {
      var rest := Split(s[1..], sep);
      JoinSplit(s[1..], sep);
      if s[0] == sep {
        assert ([""] + rest)[1..] == rest;
        assert Join([""] + rest, [sep]) == "" + [sep] + Join(rest, [sep]);
        assert s == [s[0]] + s[1..];
      } else {
        JoinConsHead(s[0], rest, [sep]);
        assert s == [s[0]] + s[1..];
      }
    }
  }

  lemma JoinConsHead(c: char, parts: seq<string>, sep: string)
    requires |parts| >= 1
    ensures Join([[c] + parts[0]] + parts[1..], sep) == [c] + Join(parts, sep)
  {
    var xs := [[c] + parts[0]] + parts[1..];
    if |parts| == 1 {
      assert xs == [[c] + parts[0]];
    } else {
      assert xs[1..] == parts[1..];
      assert [c] + parts[0] + sep + Join(parts[1..], sep) == [c] + (parts[0] + sep + Join(parts[1..], sep));
    }
  }
}
