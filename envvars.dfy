/** `parse_envvars`: each entry is `KEY=VALUE`, split at the first `=`; the
    key is an identifier and the value is non-empty and holds none of `=`,
    `!` and `?`. */
module EnvVars {
  import opened Common
  import opened SpecList

  /** The record `{key, value}`. */
  datatype EnvVar = EnvVar(key: string, value: string)

  predicate IsKeyStart(c: char) { IsLetter(c) || c == '_' }

  predicate IsKeyChar(c: char) { IsLetter(c) || IsDigit(c) || c == '_' }

  /** A letter or underscore, then letters, digits and underscores. */
  predicate IsKey(k: string) {
    |k| > 0 && IsKeyStart(k[0]) && forall i :: 1 <= i < |k| ==> IsKeyChar(k[i])
  }

  predicate IsValueChar(c: char) { c != '=' && c != '!' && c != '?' }

  predicate IsValue(v: string) {
    |v| > 0 && forall i :: 0 <= i < |v| ==> IsValueChar(v[i])
  }

  predicate WellFormed(e: EnvVar) { IsKey(e.key) && IsValue(e.value) }

  /** The record written back in the entry grammar. */
  function EnvVarText(e: EnvVar): string { e.key + "=" + e.value }

  /** `parse_envvars` on one entry. An accepted entry is a well-formed
      record written as the entry. */
  function ParseEnvVar(s: string): (r: Option<EnvVar>)
    ensures r.Some? ==> WellFormed(r.value) && s == EnvVarText(r.value)
  {
    match Find(s, '=')
    case None => None
    case Some(i) =>
      assert s == s[..i] + "=" + s[i + 1..];
      if IsKey(s[..i]) && IsValue(s[i + 1..]) then Some(EnvVar(s[..i], s[i + 1..])) else None
  }

  /** `parse_envvars`: one record per entry, in order, each written as its
      entry, or the first bad entry. */
  function ParseEnvVars(entries: seq<string>): (r: Parsed<EnvVar>)
    ensures r.Parsed? ==> |r.records| == |entries|
    ensures r.Parsed? ==> forall i :: 0 <= i < |entries| ==> WellFormed(r.records[i]) && entries[i] == EnvVarText(r.records[i])
    ensures r.BadParameter? ==> r.entry in entries && ParseEnvVar(r.entry).None?
  {
    ParseEach(entries, ParseEnvVar)
  }

  lemma KeyHasNoEquals(k: string)
    requires IsKey(k)
    ensures '=' !in k
  {
  }

  /** An entry is accepted exactly when it is a well-formed record written
      in the grammar, and then it yields that record. */
  lemma ParseEnvVarExactly(s: string, e: EnvVar)
    ensures ParseEnvVar(s) == Some(e) <==> WellFormed(e) && s == EnvVarText(e)
  {
    if WellFormed(e) && s == EnvVarText(e) {
      KeyHasNoEquals(e.key);
      FindAfter(e.key, '=', e.value);
      assert s == e.key + ['='] + e.value;
      assert s[..|e.key|] == e.key && s[|e.key| + 1..] == e.value;
    }
    if ParseEnvVar(s) == Some(e) {
      var i := Find(s, '=').value;
      assert s == s[..i] + "=" + s[i + 1..];
    }
  }

  /** Re-parsing the records of a successful parse, written back in the
      grammar, gives the same records. */
  lemma ParseEnvVarsIdempotent(entries: seq<string>, es: seq<EnvVar>)
    requires ParseEnvVars(entries) == Parsed(es)
    ensures ParseEnvVars(seq(|es|, i requires 0 <= i < |es| => EnvVarText(es[i]))) == Parsed(es)
  {
    var texts := seq(|es|, i requires 0 <= i < |es| => EnvVarText(es[i]));
    forall i | 0 <= i < |es|
      ensures ParseEnvVar(texts[i]) == Some(es[i])
    {
      ParseEnvVarExactly(entries[i], es[i]);
      ParseEnvVarExactly(texts[i], es[i]);
    }
    assert AllParse(texts, ParseEnvVar);
  }

  lemma Accept(s: string, key: string, value: string)
    requires IsKey(key) && IsValue(value) && s == key + "=" + value
    ensures ParseEnvVar(s) == Some(EnvVar(key, value))
  {
    ParseEnvVarExactly(s, EnvVar(key, value));
  }

  // The examples below take the entry as a parameter fixed by `requires`,
  // so that the verifier does not unfold the parser on a literal.

  lemma AcceptUser(s: string)
    requires s == "MYSQL_USER=admin"
    ensures ParseEnvVar(s) == Some(EnvVar("MYSQL_USER", "admin"))
  {
    Accept(s, "MYSQL_USER", "admin");
  }

  lemma AcceptPass(s: string)
    requires s == "MYSQL_PASS=mypass"
    ensures ParseEnvVar(s) == Some(EnvVar("MYSQL_PASS", "mypass"))
  {
    Accept(s, "MYSQL_PASS", "mypass");
  }

  /** The list of the accepting case (a test that is shadowed by the
      rejecting one of the same name, so only the rejections run). */
  lemma ShownEnvVars(user: string, pass: string)
    requires user == "MYSQL_USER=admin" && pass == "MYSQL_PASS=mypass"
    ensures ParseEnvVars([user, pass]) == Parsed([EnvVar("MYSQL_USER", "admin"), EnvVar("MYSQL_PASS", "mypass")])
  {
    AcceptUser(user);
    AcceptPass(pass);
    ParseTwo(user, pass, ParseEnvVar);
  }

  /** With the first `=` found after `key`, the entry stands or falls with
      its key and its value. */
  lemma SplitAt(s: string, key: string, value: string)
    requires '=' !in key && s == key + "=" + value
    ensures ParseEnvVar(s).Some? <==> IsKey(key) && IsValue(value)
  {
    FindAfter(key, '=', value);
    assert s == key + ['='] + value;
    assert s[..|key|] == key && s[|key| + 1..] == value;
  }

  /** A one-entry list whose entry is rejected names that entry. */
  lemma RejectedList(s: string)
    requires ParseEnvVar(s).None?
    ensures ParseEnvVars([s]) == BadParameter(s)
  {
    ParseOne(s, ParseEnvVar);
  }

  /** An entry whose value holds `=`, `!` or `?` at position `at`. */
  lemma RejectBadValue(s: string, key: string, value: string, at: nat)
    requires '=' !in key && s == key + "=" + value
    requires at < |value| && !IsValueChar(value[at])
    ensures ParseEnvVars([s]) == BadParameter(s)
  {
    SplitAt(s, key, value);
    RejectedList(s);
  }

  // The entries the environment-variable test rejects, one lemma each, each
  // entry a parameter fixed by `requires` as above.

  lemma RejectsMissingEquals(s: string)
    requires s == "MYSQL_ADMIN"
    ensures ParseEnvVars([s]) == BadParameter(s)
  {
    assert '=' !in s;
    RejectedList(s);
  }

  lemma RejectsDigitLeadingKey(s: string)
    requires s == "1MYSQL_ADMIN=mypass"
    ensures ParseEnvVars([s]) == BadParameter(s)
  {
    var key := "1MYSQL_ADMIN";
    assert '=' !in key && !IsKeyStart(key[0]);
    SplitAt(s, key, "mypass");
    RejectedList(s);
  }

  lemma RejectsEqualsInValue(s: string)
    requires s == "MYSQL_ADMIN==mypass"
    ensures ParseEnvVars([s]) == BadParameter(s)
  {
    assert '=' !in "MYSQL_ADMIN";
    RejectBadValue(s, "MYSQL_ADMIN", "=mypass", 0);
  }

  lemma RejectsBangInValue(s: string)
    requires s == "MYSQL_ADMIN=m!ypass"
    ensures ParseEnvVars([s]) == BadParameter(s)
  {
    assert '=' !in "MYSQL_ADMIN";
    RejectBadValue(s, "MYSQL_ADMIN", "m!ypass", 1);
  }

  lemma RejectsQuestionInValue(s: string)
    requires s == "MYSQL_ADMIN=my?pass"
    ensures ParseEnvVars([s]) == BadParameter(s)
  {
    assert '=' !in "MYSQL_ADMIN";
    RejectBadValue(s, "MYSQL_ADMIN", "my?pass", 2);
  }

  lemma RejectsSecondEquals(s: string)
    requires s == "MYSQL_ADMIN=mypass=113"
    ensures ParseEnvVars([s]) == BadParameter(s)
  {
    assert '=' !in "MYSQL_ADMIN";
    RejectBadValue(s, "MYSQL_ADMIN", "mypass=113", 6);
  }

  lemma RejectsEmptyValue(s: string)
    requires s == "MYSQL_ADMIN="
    ensures ParseEnvVars([s]) == BadParameter(s)
  {
    assert '=' !in "MYSQL_ADMIN" && s == "MYSQL_ADMIN" + "=" + "";
    SplitAt(s, "MYSQL_ADMIN", "");
    RejectedList(s);
  }
}
