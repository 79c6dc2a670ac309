# tutum CLI identifier resolution and spec-string parsing, in Dafny

This project models the part of the tutum command-line client that turns
user-supplied strings into something the platform understands. The
behaviour is the one `tests/test_utils.py` asserts for `tutumcli.utils`:

- **`is_uuid4`** (`uuid.dfy`, module `Uuid`) decides whether a token is a
  full identifier. A full identifier is 32 hexadecimal digits, grouped
  8-4-4-4-12 with hyphens, in either case. This is the textual form of
  section 3 of RFC 4122. The model proves that the check accepts exactly
  these groupings and ignores case.
- **The identifier resolver** (`resolver.dfy`, module `Resolver`) stands for
  `fetch_remote_container`, `fetch_remote_service`, `fetch_remote_node`
  and `fetch_remote_nodecluster`. It is one generic routine,
  `Resolve(kind, token, raiseExceptions, remote)`. Its `Kind` says whether
  the resource can also be looked up by name; nodes cannot.
  - A full identifier goes to `fetch`.
  - Any other token goes to the list filtered by identifier. When that list
    comes back empty and the kind has name lookup, the list filtered by name
    decides instead.
  - One match is returned, none is `ObjectNotFound`, and several are
    `NonUniqueIdentifier`.
  - The remote layer is an input (`Remote`). It holds what `fetch` and the
    two `list` calls answer: the object(s), not-found, or a platform error
    (`TutumApiError`). The `side_effect` queues of the tests are the
    successive `list` answers. `Queries` says which calls one resolution
    makes, in order.
  - The second argument follows the tests: `True` raises not-found and
    ambiguity, and `False` returns them as values. A platform error is
    raised under both values.
- **The spec-string parsers** `parse_ports`, `parse_links` and
  `parse_envvars` (`ports.dfy`, `links.dfy`, `envvars.dfy`) share one list
  routine, `SpecList.ParseEach` (`spec_list.dfy`). Each entry is parsed on
  its own and the records keep the order of the entries. The first
  malformed entry fails the whole call with `BadParameter` naming that
  entry.
  - Ports have the form `[outer:]inner[/tcp|/udp]`. Both ports are decimal
    numerals and the protocol defaults to `tcp`.
  - Links have the form `target:alias`, with exactly one `:` and both sides
    non-empty. The record stores the target under the caller's role key.
  - Environment variables have the form `KEY=VALUE`, split at the first
    `=`. The key is an identifier. The value is non-empty and holds none of
    `=`, `!` and `?`.
  - For each grammar the model proves two things. An entry is accepted
    exactly when it is a well-formed record written back in the grammar.
    Re-parsing the written-back records gives the same records.
- **`add_unicode_symbol_to_state`** (`state_symbols.dfy`) prefixes a state
  with the symbol of its group and a space.
- **The text `build_dockerfile` writes** (`dockerfile.dfy`) is the base
  image line, an `EXPOSE` line when ports are given, and the `CMD` line. A
  list command is written as `[a,b]`, and a string command as it is.

`common.dfy` holds the character classes, `Find`, `Join` and `Split` that
the other modules share.

The resolver rule "an empty identifier list falls back to names" is the
reading every test queue agrees with. A single identifier match is returned
with the name list left unused (`[['container'], []]`,
tests/test_utils.py:155-158). An empty identifier list lets the name list
decide (`[[], ['container']]`, tests/test_utils.py:161-164, and
`[[], ['container1', 'container2']]`, tests/test_utils.py:177-180). The
tests never combine an identifier match with a name match.

The environment-variable test class defines `test_parse_envvars` twice
(tests/test_utils.py:350 and :354). The second definition replaces the
first, so only the rejections run. `EnvVars.ShownEnvVars` still states
the accepting case.

## Model

| member | source | states |
|---|---|---|
| Uuid.IsUuid4 | tests/test_utils.py:49-54 | `is_uuid4`: an accepted token is 36 characters with hyphens at the four group separators and nowhere else; FormatIsUuid and UuidIsFormatted characterise it fully |
| Uuid.FormatIsUuid | tests/test_utils.py:49-51 | any 32 hex digits grouped 8-4-4-4-12 with hyphens are accepted as a full identifier, and the digits can be read back from it |
| Uuid.UuidIsFormatted | tests/test_utils.py:49-54 | every accepted token is exactly such a grouping of 32 hex digits, so nothing else (such as `not_uuid` or the empty string) is accepted |
| Uuid.CaseInsensitive | tests/test_utils.py:50-51 | upper-casing or lower-casing a token never changes whether it is accepted |
| Uuid.ShownLowerCase | tests/test_utils.py:50 | the lower-case identifier of the test is accepted |
| Uuid.ShownUpperCase | tests/test_utils.py:51 | the upper-case identifier of the test is accepted |
| Uuid.ShownNonIdentifiers | tests/test_utils.py:53-54 | `not_uuid` and the empty string are rejected |
| Resolver.Resolve | tests/test_utils.py:140-185 | a returned object is what `fetch` returned for a full identifier, and otherwise the single element of the list that decided; a failure is returned as a value only with the flag clear and never for a platform error; not-found or ambiguity is raised only with the flag set; a platform error is always raised and is one the remote layer reported |
| Resolver.Queries | tests/test_utils.py:154-164 | one resolution makes one or two calls; a full identifier makes the single call `fetch`; any other token asks the identifier list once, followed by at most one name-list call; the name list is asked exactly when the token is not a full identifier, the kind has name lookup and the identifier list came back empty |
| Resolver.OnlyQueriedCallsMatter | tests/test_utils.py:154-164 | two remote layers that give the same answers to the calls that are made give the same outcome |
| Resolver.FlagChangesOnlySurface | tests/test_utils.py:166-180 | the flag never changes the decision; with it set nothing is returned as a failure value, and with it clear exactly the failures that would be raised (other than platform errors) are returned |
| Resolver.FullIdentifierFetched | tests/test_utils.py:144-147 | a full identifier is resolved by `fetch` alone, and the fetched object is returned under both flag values |
| Resolver.FullIdentifierNotFound | tests/test_utils.py:149-152 | a full identifier that `fetch` does not know raises `ObjectNotFound` with the flag set and returns it with the flag clear |
| Resolver.IdentifierMatchWins | tests/test_utils.py:154-158 | a single identifier-list match is returned without asking by name, whatever the name list holds |
| Resolver.UniqueMatchReturned | tests/test_utils.py:154-164 | for a kind with name lookup, exactly one match over both lists is returned, whichever list held it |
| Resolver.NoMatchNotFound | tests/test_utils.py:166-170 | no match in the lists asked gives `ObjectNotFound`, raised or returned according to the flag |
| Resolver.SeveralMatchesAmbiguous | tests/test_utils.py:172-180 | two or more matches in the identifier list, or in the name list after an empty identifier list, give `NonUniqueIdentifier`, raised or returned according to the flag |
| Resolver.ApiErrorPropagates | tests/test_utils.py:182-185 | a platform error from any call that is made is raised unchanged under both flag values |
| Resolver.NodeIgnoresNames | tests/test_utils.py:247-268 | a node is never looked up by name, so a token other than a full identifier makes exactly one identifier-list call, and the name list never affects its outcome |
| Resolver.NameCapableScenarios | tests/test_utils.py:143-185 | every case of the container test holds for containers, services and node clusters alike |
| Resolver.NodeScenarios | tests/test_utils.py:235-268 | every case of the node test holds, and the one-answer queue of `[['node']]` is consumed by a single identifier-list call |
| SpecList.ParseEach | tests/test_utils.py:339-346 | a list parses exactly when every entry does, and then gives one record per entry in the same order; otherwise it names the first entry that does not parse |
| SpecList.ParseEachAppend | tests/test_utils.py:322-325 | parsing a concatenation stops at the first list with a bad entry, and otherwise concatenates the records |
| Ports.ParsePort | tests/test_utils.py:329-346 | `parse_ports` on one entry: an accepted entry has numeral ports, is `tcp` when it names no protocol, and has an outer port exactly when it holds a `:`; ParsePortSound and ParsePortComplete characterise it fully |
| Ports.ParsePorts | tests/test_utils.py:328-346 | `parse_ports`: one well-formed record per entry, record i being the parse of entry i, so order and contents are kept; or `BadParameter` naming an entry of the list that does not parse |
| Ports.ParseProtocol | tests/test_utils.py:333-337 | only `tcp` and `udp` are protocols, and each is read as the protocol of that name |
| Ports.ParsePortSound | tests/test_utils.py:329-337 | an accepted entry has numeral ports and is the record written out, with its protocol or, for `tcp`, without it |
| Ports.ParsePortComplete | tests/test_utils.py:329-337 | every record with numeral ports is accepted with its protocol spelled out, and a `tcp` record also without it |
| Ports.ParsePortsIdempotent | tests/test_utils.py:333-337 | re-parsing the records of a successful parse, written out, gives the same records |
| Ports.ShownPorts | tests/test_utils.py:329-337 | the two accepted lists of the test give their records in order, `tcp` by default and `outer_port` only where a `:` was given |
| Ports.RejectAddress | tests/test_utils.py:340-343 | an entry without `/` is rejected when either side of its first `:` is not a numeral |
| Ports.RejectProtocol | tests/test_utils.py:344-345 | an entry is rejected when the text after its first `/` is neither `tcp` nor `udp` |
| Ports.ShownBadPorts | tests/test_utils.py:339-346 | each of the seven entries the test rejects gives `BadParameter` naming it |
| Links.ParseLink | tests/test_utils.py:317-325 | `parse_links` on one entry: an accepted entry is a well-formed link under the caller's key, written as the entry; ParseLinkExactly gives the converse |
| Links.ParseLinks | tests/test_utils.py:317-325 | `parse_links`: one link per entry, each under the caller's key and written as its entry, or `BadParameter` naming an entry that does not parse |
| Links.ParseLinkExactly | tests/test_utils.py:317-325 | an entry is accepted exactly when it is a link with two non-empty, colon-free names written `target:alias`, and then it gives that link under the caller's key |
| Links.ParseLinksIdempotent | tests/test_utils.py:318-320 | re-parsing the links of a successful parse, written out, gives the same links |
| Links.ShownLinks | tests/test_utils.py:318-320 | the accepted list of the test gives its two links in order under `to_container` |
| Links.RejectNoSeparator | tests/test_utils.py:323 | an entry without `:` is rejected |
| Links.RejectTwoSeparators | tests/test_utils.py:324 | every entry holding two `:`, wherever they stand, is rejected |
| Links.ShownBadLinks | tests/test_utils.py:322-325 | each rejected list of the test gives `BadParameter` naming its first entry |
| EnvVars.ParseEnvVar | tests/test_utils.py:349-361 | `parse_envvars` on one entry: an accepted entry is a well-formed record written as the entry; ParseEnvVarExactly gives the converse |
| EnvVars.ParseEnvVars | tests/test_utils.py:349-361 | `parse_envvars`: one well-formed record per entry, each written as its entry, or `BadParameter` naming an entry that does not parse |
| EnvVars.ParseEnvVarExactly | tests/test_utils.py:349-361 | an entry is accepted exactly when it is an identifier key and a non-empty value free of `=`, `!` and `?`, written `KEY=VALUE`, and then it gives that record |
| EnvVars.ParseEnvVarsIdempotent | tests/test_utils.py:350-352 | re-parsing the records of a successful parse, written out, gives the same records |
| EnvVars.ShownEnvVars | tests/test_utils.py:350-352 | the accepting list of the test gives its two records in order |
| EnvVars.SplitAt | tests/test_utils.py:355-361 | with the first `=` after the key, an entry is accepted exactly when its key and its value are valid |
| EnvVars.RejectBadValue | tests/test_utils.py:357-360 | for any key free of `=`, a value holding `=`, `!` or `?` makes the list fail with `BadParameter` naming the entry |
| EnvVars.RejectsMissingEquals | tests/test_utils.py:355 | `MYSQL_ADMIN`, which has no `=`, fails the list with `BadParameter` naming it |
| EnvVars.RejectsDigitLeadingKey | tests/test_utils.py:356 | `1MYSQL_ADMIN=mypass`, whose key starts with a digit, fails the list with `BadParameter` naming it |
| EnvVars.RejectsEqualsInValue | tests/test_utils.py:357 | `MYSQL_ADMIN==mypass` fails the list with `BadParameter` naming it |
| EnvVars.RejectsBangInValue | tests/test_utils.py:358 | `MYSQL_ADMIN=m!ypass` fails the list with `BadParameter` naming it |
| EnvVars.RejectsQuestionInValue | tests/test_utils.py:359 | `MYSQL_ADMIN=my?pass` fails the list with `BadParameter` naming it |
| EnvVars.RejectsSecondEquals | tests/test_utils.py:360 | `MYSQL_ADMIN=mypass=113` fails the list with `BadParameter` naming it |
| EnvVars.RejectsEmptyValue | tests/test_utils.py:361 | `MYSQL_ADMIN=`, whose value is empty, fails the list with `BadParameter` naming it |
| StateSymbols.Symbol | tests/test_utils.py:59-70 | the state table: exactly the eleven states of the test have a symbol, and it is one of the five symbols, never a space |
| StateSymbols.AddUnicodeSymbol | tests/test_utils.py:59-70 | a state of the table is shown as its own symbol from the table (`Symbol`), a space and the state unchanged; any other state is shown as it is |
| StateSymbols.StripAddSymbol | tests/test_utils.py:59-70 | taking the symbol and space off again gives back every state of the table |
| StateSymbols.ShownRunning | tests/test_utils.py:61-62 | `Running` and `Partly running` get the play symbol |
| StateSymbols.ShownStopped | tests/test_utils.py:63-64 | `Init` and `Stopped` get the square |
| StateSymbols.ShownInTransition | tests/test_utils.py:65-66 | `Starting`, `Stopping`, `Scaling` and `Terminating` get the gear |
| StateSymbols.ShownFailed | tests/test_utils.py:67-68 | `Start failed` and `Stopped with errors` get `!` |
| StateSymbols.ShownTerminated | tests/test_utils.py:69-70 | `Terminated` gets the cross |
| Dockerfile.BuildDockerfile | tests/test_utils.py:86-129 | `build_dockerfile` (the text only): the file starts with the base image and ends with the `CMD` line; DockerfileLayout places the `EXPOSE` line |
| Dockerfile.DockerfileLayout | tests/test_utils.py:86-91 | after the base image the file starts with `EXPOSE ` exactly when ports are given, and is otherwise the `CMD` line |
| Dockerfile.ExecArgsReadBack | tests/test_utils.py:91-94 | a list command is written in brackets, and its arguments can be read back by splitting at the commas when none holds a comma |
| Dockerfile.TwoArgCommand | tests/test_utils.py:91-94 | a two-argument command is written as `[a,b]` |
| Dockerfile.ShownWithPorts | tests/test_utils.py:86-95 | the file with ports is the one the test expects |
| Dockerfile.ShownWithoutPorts | tests/test_utils.py:105-112 | the file without ports is the one the test expects |
| Dockerfile.ShownStringCommand | tests/test_utils.py:122-129 | the file with a string command is the one the test expects |

## Left out

- Uuid.IsUuid4: checks the 8-4-4-4-12 shape only. It does not check that the version digit is `4` or that the variant digit is one of `8`, `9`, `a` and `b`. The implementation is not part of this model, and every test case is decided by the shape.
- `is_uuid4` raising on `None` or on a number: the model's parameter is a string, so those calls cannot be written.
- Resolver.Resolve: the filter arguments the `list` calls are made with (identifier prefix, exact name) are not modelled. The model takes each list's answer as given.
- Resolver.Resolve: when the identifier list has one match and the name list also has matches, the identifier match is returned. No test pins this case.
- Resolver.Resolve: a platform error from `fetch` is raised like one from `list`. No test covers it.
- The HTTP calls behind `fetch` and `list`, and the `mock` patching of the tests, are replaced by the `Remote` input.
- Ports.ParsePort: ports stay numeral strings. They are not converted to integers, and no range or digit-count limit is checked.
- Links.Link: the record keeps the caller's key as a field. A role key of `name` would collide with the alias key in the source's dictionary; this is not modelled.
- EnvVars.IsKey: letters are ASCII letters.
- Calling a parser with no list at all (`None`) is not modelled. The model always takes a list.
- StateSymbols.AddUnicodeSymbol: a state outside the table is returned unchanged. The tests only use states of the table.
- build_dockerfile: the temporary file, its writing and its closing are left out. Only the text is modelled. The ports text is inserted as given.
- Dockerfile.PortsGiven: an empty ports string is treated like `None` (no `EXPOSE` line). This is an assumption; the tests only use `None` and a non-empty string.
- Date parsing and humanising (tests/test_utils.py:20-45): these depend on the local time zone and the clock.
- `tabulate_result` (tests/test_utils.py:11-17): a thin call into an external table library.
- `get_docker_client` and `DockerNotFound` (tests/test_utils.py:73-82): environment and socket discovery.
