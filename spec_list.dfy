/** What the three spec-string parsers share: each entry of the list is
    parsed on its own, the records keep the order of the entries, and one
    malformed entry fails the whole call with `BadParameter` naming it. */
module SpecList {
  import opened Common

  datatype Parsed<T> = Parsed(records: seq<T>) | BadParameter(entry: string)

  /** Every entry parses. */
  predicate AllParse<T>(entries: seq<string>, parse: string -> Option<T>) {
    forall i :: 0 <= i < |entries| ==> parse(entries[i]).Some?
  }

  /** `i` is the position of the first entry that does not parse. */
  predicate FirstBadAt<T>(entries: seq<string>, parse: string -> Option<T>, i: int) {
    0 <= i < |entries| && parse(entries[i]).None? && AllParse(entries[..i], parse)
  }

  function ParseEach<T(==)>(entries: seq<string>, parse: string -> Option<T>): (r: Parsed<T>)
    ensures r.Parsed? <==> AllParse(entries, parse)
    ensures r.Parsed? ==>
      |r.records| == |entries| &&
      forall i :: 0 <= i < |entries| ==> parse(entries[i]) == Some(r.records[i])
    ensures r.BadParameter? ==> exists i :: FirstBadAt(entries, parse, i) && entries[i] == r.entry
  {
    if entries == [] then Parsed([])
    else
      match parse(entries[0])
      case None =>
        assert FirstBadAt(entries, parse, 0);
        BadParameter(entries[0])
      case Some(x) =>
        match ParseEach(entries[1..], parse)
        case BadParameter(e) =>
          var i :| FirstBadAt(entries[1..], parse, i) && entries[1..][i] == e;
          assert entries[..i + 1] == [entries[0]] + entries[1..][..i];
          assert FirstBadAt(entries, parse, i + 1);
          BadParameter(e)
        case Parsed(rest) =>
          Parsed([x] + rest)
  }

  /** Parsing a concatenation: the second list is consulted only when the
      first parsed completely, and the records are concatenated. */
  lemma {:induction false} ParseEachAppend<T>(xs: seq<string>, ys: seq<string>, parse: string -> Option<T>)
    ensures ParseEach(xs + ys, parse) ==
      match ParseEach(xs, parse)
      case BadParameter(e) => BadParameter(e)
      case Parsed(a) =>
        match ParseEach(ys, parse)
        case BadParameter(e) => BadParameter(e)
        case Parsed(b) => Parsed(a + b)
  {
    if xs == [] {
      assert xs + ys == ys;
    } else {
      assert (xs + ys)[1..] == xs[1..] + ys;
      ParseEachAppend(xs[1..], ys, parse);
      match ParseEach(xs[1..], parse)
      case BadParameter(e) =>
      case Parsed(a) =>
        match ParseEach(ys, parse)
        case BadParameter(e) =>
        case Parsed(b) =>
          assert [(xs + ys)[0]] == [xs[0]];
          assert parse(xs[0]).Some? ==> [parse(xs[0]).value] + (a + b) == ([parse(xs[0]).value] + a) + b;
    }
  }

  /** A one-entry list parses to that entry's record or names that entry. */
  lemma ParseOne<T>(s: string, parse: string -> Option<T>)
    ensures ParseEach([s], parse) == if parse(s).Some? then Parsed([parse(s).value]) else BadParameter(s)
  {
    assert [s][1..] == [];
  }

  /** A two-entry list: the first bad entry is named, else both records in order. */
  lemma ParseTwo<T>(x: string, y: string, parse: string -> Option<T>)
    ensures ParseEach([x, y], parse) ==
      if parse(x).None? then BadParameter(x)
      else if parse(y).None? then BadParameter(y)
      else Parsed([parse(x).value, parse(y).value])
  {
    ParseOne(x, parse);
    ParseOne(y, parse);
    ParseEachAppend([x], [y], parse);
    assert [x] + [y] == [x, y];
  }
}
