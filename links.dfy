/** `parse_links(links, role_key)`: each entry is `target:alias`, split on
    its only `:`, with both sides non-empty. */
module Links {
  import opened Common
  import opened SpecList

  /** The record `{<roleKey>: target, name: alias}`; the caller chooses the
      key the target is stored under (for instance `to_container`). */
  datatype Link = Link(roleKey: string, target: string, alias: string)

  /** A link name: non-empty and free of the separator. */
  predicate IsName(s: string) { s != "" && ':' !in s }

  predicate WellFormed(l: Link) { IsName(l.target) && IsName(l.alias) }

  /** The record written back in the entry grammar. */
  function LinkText(l: Link): string { l.target + ":" + l.alias }

  /** `parse_links` on one entry: split at the first `:`, so a second `:`
      leaves the alias malformed. An accepted entry is a well-formed link,
      written as the entry, under the caller's key. */
  function ParseLink(s: string, roleKey: string): (r: Option<Link>)
    ensures r.Some? ==> WellFormed(r.value) && r.value.roleKey == roleKey && s == LinkText(r.value)
  {
    match Find(s, ':')
    case None => None
    case Some(i) =>
      assert s == s[..i] + ":" + s[i + 1..];
      if IsName(s[..i]) && IsName(s[i + 1..]) then Some(Link(roleKey, s[..i], s[i + 1..])) else None
  }

  /** The entry parser for one caller-chosen key. */
  function LinkParser(roleKey: string): string -> Option<Link> {
    s => ParseLink(s, roleKey)
  }

  /** `parse_links`: one link per entry, in order, each written as its
      entry and stored under the caller's key, or the first bad entry. */
  function ParseLinks(entries: seq<string>, roleKey: string): (r: Parsed<Link>)
    ensures r.Parsed? ==> |r.records| == |entries|
    ensures r.Parsed? ==> forall i :: 0 <= i < |entries| ==> r.records[i].roleKey == roleKey && WellFormed(r.records[i]) && entries[i] == LinkText(r.records[i])
    ensures r.BadParameter? ==> r.entry in entries && ParseLink(r.entry, roleKey).None?
  {
    var r := ParseEach(entries, LinkParser(roleKey));
    assert r.Parsed? ==> forall i :: 0 <= i < |entries| ==> ParseLink(entries[i], roleKey) == Some(r.records[i]);
    r
  }

  /** An entry is accepted exactly when it is a well-formed record written
      in the grammar, and then it yields that record under the caller's key. */
  lemma ParseLinkExactly(s: string, roleKey: string, l: Link)
    ensures ParseLink(s, roleKey) == Some(l) <==> WellFormed(l) && l.roleKey == roleKey && s == LinkText(l)
  {
    if WellFormed(l) && l.roleKey == roleKey && s == LinkText(l) {
      FindAfter(l.target, ':', l.alias);
      assert s == l.target + [':'] + l.alias;
      assert s[..|l.target|] == l.target && s[|l.target| + 1..] == l.alias;
    }
    if ParseLink(s, roleKey) == Some(l) {
      var i := Find(s, ':').value;
      assert s == s[..i] + ":" + s[i + 1..];
    }
  }

  /** Re-parsing the records of a successful parse, written back in the
      grammar, gives the same records. */
  lemma ParseLinksIdempotent(entries: seq<string>, roleKey: string, ls: seq<Link>)
    requires ParseLinks(entries, roleKey) == Parsed(ls)
    ensures ParseLinks(seq(|ls|, i requires 0 <= i < |ls| => LinkText(ls[i])), roleKey) == Parsed(ls)
  {
    var texts := seq(|ls|, i requires 0 <= i < |ls| => LinkText(ls[i]));
    var parse := LinkParser(roleKey);
    forall i | 0 <= i < |ls|
      ensures parse(texts[i]) == Some(ls[i])
    {
      ParseLinkExactly(entries[i], roleKey, ls[i]);
      ParseLinkExactly(texts[i], roleKey, ls[i]);
    }
    assert AllParse(texts, parse);
  }

  /** A well-formed link as written in the grammar is accepted. The text
      is a parameter so that the verifier does not unfold the parser on a
      literal. */
  lemma Accept(s: string, roleKey: string, target: string, alias: string)
    requires IsName(target) && IsName(alias) && s == target + ":" + alias
    ensures ParseLink(s, roleKey) == Some(Link(roleKey, target, alias))
  {
    ParseLinkExactly(s, roleKey, Link(roleKey, target, alias));
  }

  lemma AcceptMysql()
    ensures ParseLink("mysql:db1", "to_container") == Some(Link("to_container", "mysql", "db1"))
  {
    Accept("mysql:db1", "to_container", "mysql", "db1");
  }

  lemma AcceptMariadb()
    ensures ParseLink("mariadb:db2", "to_container") == Some(Link("to_container", "mariadb", "db2"))
  {
    Accept("mariadb:db2", "to_container", "mariadb", "db2");
  }

  /** The list the link test accepts, in order, under the key `to_container`. */
  lemma ShownLinks()
    ensures ParseLinks(["mysql:db1", "mariadb:db2"], "to_container") ==
            Parsed([Link("to_container", "mysql", "db1"), Link("to_container", "mariadb", "db2")])
  {
    AcceptMysql();
    AcceptMariadb();
    ParseTwo("mysql:db1", "mariadb:db2", LinkParser("to_container"));
  }

  lemma RejectNoSeparator(s: string, roleKey: string)
    requires ':' !in s
    ensures ParseLink(s, roleKey).None?
  {
  }

  /** An entry holding two `:` is rejected, wherever they stand. */
  lemma RejectTwoSeparators(s: string, roleKey: string, i: int, j: int)
    requires 0 <= i < j < |s| && s[i] == ':' && s[j] == ':'
    ensures ParseLink(s, roleKey).None?
  {
    assert ':' in s;
    var k := Find(s, ':').value;
    assert k <= i;
    assert s[k + 1..][j - k - 1] == ':';
  }

  lemma RejectBare()
    ensures ParseLink("mysql", "to_container").None?
    ensures ParseLink("", "to_container").None?
  {
    RejectNoSeparator("mysql", "to_container");
    RejectNoSeparator("", "to_container");
  }

  lemma RejectThreeParts(s: string)
    requires s == "mysql:mysql:mysql"
    ensures ParseLink(s, "to_container").None?
  {
    assert s[5] == ':' && s[11] == ':';
    RejectTwoSeparators(s, "to_container", 5, 11);
  }

  /** The lists the link test rejects (no separator, two separators, the
      empty string), each failing on its first entry. */
  lemma ShownBadLinks()
    ensures ParseLinks(["mysql", "mariadb"], "to_container") == BadParameter("mysql")
    ensures ParseLinks(["mysql:mysql:mysql", "mariadb:maria:maria"], "to_container") == BadParameter("mysql:mysql:mysql")
    ensures ParseLinks([""], "to_container") == BadParameter("")
  {
    var parse := LinkParser("to_container");
    RejectBare();
    RejectThreeParts("mysql:mysql:mysql");
    ParseTwo("mysql", "mariadb", parse);
    ParseTwo("mysql:mysql:mysql", "mariadb:maria:maria", parse);
    ParseOne("", parse);
  }
}
