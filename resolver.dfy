/** Identifier resolution behind `fetch_remote_container`,
    `fetch_remote_service`, `fetch_remote_node` and `fetch_remote_nodecluster`:
    one generic routine, parameterised by whether the resource kind supports
    lookup by name, that turns a user token into one remote object or a typed
    failure. The remote layer (the platform's `fetch` and `list` calls) is an
    input: the outcome each call would have. */
module Resolver {
  import opened Uuid

  datatype Kind = Container | Service | Node | NodeCluster

  /** Nodes are looked up by identifier only; the other kinds also by name. */
  predicate SupportsNameLookup(kind: Kind) { kind != Node }

  /** An error signalled by the remote platform itself (`TutumApiError`). */
  datatype ApiError = ApiError(detail: string)

  /** What `fetch(uuid)` does: return the object, report not-found, or fail. */
  datatype FetchOutcome<T> = Fetched(obj: T) | FetchNotFound | FetchFailed(apiError: ApiError)

  /** What one `list(filter)` call does: return the matches in order, or fail. */
  datatype ListOutcome<T> = Listed(objs: seq<T>) | ListFailed(apiError: ApiError)

  /** The remote layer as seen by one resolution: the fetch by full
      identifier, the list filtered by identifier prefix, and the list
      filtered by exact name. Only the calls the resolver makes matter. */
  datatype Remote<T> = Remote(fetch: FetchOutcome<T>, byId: ListOutcome<T>, byName: ListOutcome<T>)

  /** The collaborator calls a resolution can make. */
  datatype Query = FetchById | ListById | ListByName

  datatype Failure = ObjectNotFound | NonUniqueIdentifier | TutumApiError(apiError: ApiError)

  /** The decision, before the raise flag is applied. */
  datatype Verdict<T> = Found(obj: T) | Failed(failure: Failure)

  /** What the caller observes: the object, a failure handed back as a value
      (only when exceptions are not to be raised), or a raised failure. */
  datatype Outcome<T> = Returned(obj: T) | ReturnedFailure(failure: Failure) | Raised(failure: Failure)

  /** The list a non-identifier token is judged on: the identifier-filtered
      list, unless it came back empty and the kind can also be looked up by
      name, in which case the name-filtered list. */
  function Matches<T>(kind: Kind, remote: Remote<T>): ListOutcome<T> {
    if remote.byId.Listed? && |remote.byId.objs| == 0 && SupportsNameLookup(kind) then remote.byName else remote.byId
  }

  function Decide<T>(kind: Kind, token: string, remote: Remote<T>): Verdict<T> {
    if IsUuid4(token) then
      match remote.fetch
      case Fetched(obj) => Found(obj)
      case FetchNotFound => Failed(ObjectNotFound)
      case FetchFailed(e) => Failed(TutumApiError(e))
    else
      match Matches(kind, remote)
      case ListFailed(e) => Failed(TutumApiError(e))
      case Listed(objs) =>
        if |objs| == 1 then Found(objs[0])
        else if |objs| == 0 then Failed(ObjectNotFound)
        else Failed(NonUniqueIdentifier)
  }

  /** The raise flag decides only how not-found and ambiguity surface; an
      error of the platform is always raised. */
  function Surface<T>(v: Verdict<T>, raiseExceptions: bool): Outcome<T> {
    match v
    case Found(obj) => Returned(obj)
    case Failed(f) =>
      if raiseExceptions || f.TutumApiError? then Raised(f) else ReturnedFailure(f)
  }

  /** A platform error the remote layer reported. */
  predicate ReportedByRemote<T>(e: ApiError, remote: Remote<T>) {
    remote.fetch == FetchFailed(e) || remote.byId == ListFailed(e) || remote.byName == ListFailed(e)
  }

  /** `fetch_remote_<kind>(token, raiseExceptions)`. */
  function Resolve<T(==)>(kind: Kind, token: string, raiseExceptions: bool, remote: Remote<T>): (o: Outcome<T>)
    ensures o.Returned? && IsUuid4(token) ==> remote.fetch == Fetched(o.obj)
    ensures o.Returned? && !IsUuid4(token) ==> Matches(kind, remote) == Listed([o.obj])
    ensures o.ReturnedFailure? ==> !raiseExceptions && !o.failure.TutumApiError?
    ensures o.Raised? && !o.failure.TutumApiError? ==> raiseExceptions
    ensures !o.Returned? && o.failure.TutumApiError? ==> o.Raised? && ReportedByRemote(o.failure.apiError, remote)
  {
    Surface(Decide(kind, token, remote), raiseExceptions)
  }

  /** The calls made, in order. */
  function Queries<T>(kind: Kind, token: string, remote: Remote<T>): (qs: seq<Query>)
    ensures 1 <= |qs| <= 2
    ensures IsUuid4(token) <==> qs == [FetchById]
    ensures !IsUuid4(token) ==> qs[0] == ListById && FetchById !in qs
    ensures !IsUuid4(token) ==> qs == [ListById] || qs == [ListById, ListByName]
    ensures ListByName in qs <==> !IsUuid4(token) && SupportsNameLookup(kind) && remote.byId.Listed? && |remote.byId.objs| == 0
  {
    if IsUuid4(token) then [FetchById]
    else if remote.byId.Listed? && |remote.byId.objs| == 0 && SupportsNameLookup(kind) then [ListById, ListByName]
    else [ListById]
  }

  /** The decision an outcome carries, with raise-versus-return erased. */
  function VerdictOf<T>(o: Outcome<T>): Verdict<T> {
    match o
    case Returned(obj) => Found(obj)
    case ReturnedFailure(f) => Failed(f)
    case Raised(f) => Failed(f)
  }

  /** The raise flag never changes the decision: with it set, not-found and
      ambiguity are raised; with it clear, the same failures are returned. */
  lemma FlagChangesOnlySurface<T>(kind: Kind, token: string, remote: Remote<T>)
    ensures VerdictOf(Resolve(kind, token, true, remote)) == VerdictOf(Resolve(kind, token, false, remote))
    ensures !Resolve(kind, token, true, remote).ReturnedFailure?
    ensures Resolve(kind, token, false, remote).ReturnedFailure? <==>
            Resolve(kind, token, true, remote).Raised? && !Resolve(kind, token, true, remote).failure.TutumApiError?
  {
  }

  /** A full identifier goes to `fetch`, and what `fetch` returns is returned. */
  lemma FullIdentifierFetched<T>(kind: Kind, token: string, raiseExceptions: bool, remote: Remote<T>, obj: T)
    requires IsUuid4(token) && remote.fetch == Fetched(obj)
    ensures Resolve(kind, token, raiseExceptions, remote) == Returned(obj)
    ensures Queries(kind, token, remote) == [FetchById]
  {
  }

  /** A full identifier that `fetch` does not know is `ObjectNotFound`. */
  lemma FullIdentifierNotFound<T>(kind: Kind, token: string, remote: Remote<T>)
    requires IsUuid4(token) && remote.fetch == FetchNotFound
    ensures Resolve(kind, token, true, remote) == Raised(ObjectNotFound)
    ensures Resolve(kind, token, false, remote) == ReturnedFailure(ObjectNotFound)
  {
  }

  /** A single match on the identifier filter is returned without asking by
      name, whatever the name filter would have said. */
  lemma IdentifierMatchWins<T>(kind: Kind, token: string, raiseExceptions: bool, remote: Remote<T>, obj: T)
    requires !IsUuid4(token) && remote.byId == Listed([obj])
    ensures Resolve(kind, token, raiseExceptions, remote) == Returned(obj)
    ensures Queries(kind, token, remote) == [ListById]
  {
  }

  /** For a kind with name lookup, exactly one match over both filters is
      returned, whichever filter found it. */
  lemma UniqueMatchReturned<T>(kind: Kind, token: string, raiseExceptions: bool, ids: seq<T>, names: seq<T>, fetch: FetchOutcome<T>)
    requires !IsUuid4(token) && SupportsNameLookup(kind)
    requires |ids| + |names| == 1
    ensures Resolve(kind, token, raiseExceptions, Remote(fetch, Listed(ids), Listed(names))) == Returned((ids + names)[0])
  {
  }

  /** No match over the filters asked is `ObjectNotFound`. */
  lemma NoMatchNotFound<T>(kind: Kind, token: string, ids: seq<T>, names: seq<T>, fetch: FetchOutcome<T>)
    requires !IsUuid4(token) && ids == []
    requires SupportsNameLookup(kind) ==> names == []
    ensures Resolve(kind, token, true, Remote(fetch, Listed(ids), Listed(names))) == Raised(ObjectNotFound)
    ensures Resolve(kind, token, false, Remote(fetch, Listed(ids), Listed(names))) == ReturnedFailure(ObjectNotFound)
  {
  }

  /** Two or more matches from either filter are `NonUniqueIdentifier`. */
  lemma SeveralMatchesAmbiguous<T>(kind: Kind, token: string, ids: seq<T>, names: seq<T>, fetch: FetchOutcome<T>)
    requires !IsUuid4(token)
    requires |ids| >= 2 || (ids == [] && SupportsNameLookup(kind) && |names| >= 2)
    ensures Resolve(kind, token, true, Remote(fetch, Listed(ids), Listed(names))) == Raised(NonUniqueIdentifier)
    ensures Resolve(kind, token, false, Remote(fetch, Listed(ids), Listed(names))) == ReturnedFailure(NonUniqueIdentifier)
  {
  }

  /** A platform error from a call that was made is raised unchanged under
      both flag values; it is never turned into not-found or ambiguity. */
  lemma ApiErrorPropagates<T>(kind: Kind, token: string, raiseExceptions: bool, remote: Remote<T>, e: ApiError)
    requires
      || (IsUuid4(token) && remote.fetch == FetchFailed(e))
      || (!IsUuid4(token) && remote.byId == ListFailed(e))
      || (!IsUuid4(token) && SupportsNameLookup(kind) && remote.byId.Listed? && |remote.byId.objs| == 0 && remote.byName == ListFailed(e))
    ensures Resolve(kind, token, raiseExceptions, remote) == Raised(TutumApiError(e))
  {
  }

  /** Nodes have no name lookup: the name-filtered list never matters. */
  lemma NodeIgnoresNames<T>(token: string, raiseExceptions: bool, remote: Remote<T>, names: ListOutcome<T>)
    ensures Resolve(Node, token, raiseExceptions, remote) == Resolve(Node, token, raiseExceptions, remote.(byName := names))
    ensures ListByName !in Queries(Node, token, remote)
    ensures !IsUuid4(token) ==> Queries(Node, token, remote) == [ListById]
  {
  }

  /** The outcome depends only on the answers of the calls that were made:
      two remote layers that agree on those give the same outcome. */
  lemma OnlyQueriedCallsMatter<T>(kind: Kind, token: string, raiseExceptions: bool, remote: Remote<T>, other: Remote<T>)
    requires FetchById in Queries(kind, token, remote) ==> other.fetch == remote.fetch
    requires ListById in Queries(kind, token, remote) ==> other.byId == remote.byId
    requires ListByName in Queries(kind, token, remote) ==> other.byName == remote.byName
    ensures Queries(kind, token, other) == Queries(kind, token, remote)
    ensures Resolve(kind, token, raiseExceptions, other) == Resolve(kind, token, raiseExceptions, remote)
  {
  }

  const TestUuid := "7A4CFE51-03BB-42D6-825E-3B533888D8CD"

  /** The scenarios exercised for containers, services and node clusters,
      with `fetch` and the two `list` calls answering as the test's mocks do. */
  lemma NameCapableScenarios(kind: Kind, flag: bool)
    requires SupportsNameLookup(kind)
    ensures Resolve<string>(kind, TestUuid, flag, Remote(Fetched("returned"), Listed([]), Listed([]))) == Returned("returned")
    ensures Resolve<string>(kind, TestUuid, true, Remote(FetchNotFound, Listed([]), Listed([]))) == Raised(ObjectNotFound)
    ensures Resolve<string>(kind, TestUuid, false, Remote(FetchNotFound, Listed([]), Listed([]))) == ReturnedFailure(ObjectNotFound)
    ensures Resolve<string>(kind, "shortuuid", flag, Remote(FetchNotFound, Listed(["container"]), Listed([]))) == Returned("container")
    ensures Resolve<string>(kind, "name", flag, Remote(FetchNotFound, Listed([]), Listed(["container"]))) == Returned("container")
    ensures VerdictOf(Resolve<string>(kind, "uuid_or_name", flag, Remote(FetchNotFound, Listed([]), Listed([])))) == Failed(ObjectNotFound)
    ensures VerdictOf(Resolve<string>(kind, "uuid_or_name", flag, Remote(FetchNotFound, Listed(["c1", "c2"]), Listed([])))) == Failed(NonUniqueIdentifier)
    ensures VerdictOf(Resolve<string>(kind, "uuid_or_name", flag, Remote(FetchNotFound, Listed([]), Listed(["c1", "c2"])))) == Failed(NonUniqueIdentifier)
    ensures Resolve<string>(kind, "uuid_or_name", flag, Remote(FetchNotFound, ListFailed(ApiError("")), ListFailed(ApiError(""))))
         == Raised(TutumApiError(ApiError("")))
  {
    ShownUpperCase();
  }

  /** The scenarios exercised for nodes, with a single `list` answer. */
  lemma NodeScenarios(flag: bool, names: ListOutcome<string>)
    ensures Resolve<string>(Node, TestUuid, flag, Remote(Fetched("returned"), Listed([]), names)) == Returned("returned")
    ensures Resolve<string>(Node, TestUuid, true, Remote(FetchNotFound, Listed([]), names)) == Raised(ObjectNotFound)
    ensures Resolve<string>(Node, TestUuid, false, Remote(FetchNotFound, Listed([]), names)) == ReturnedFailure(ObjectNotFound)
    ensures Resolve<string>(Node, "uuid", flag, Remote(FetchNotFound, Listed(["node"]), names)) == Returned("node")
    ensures Queries<string>(Node, "uuid", Remote(FetchNotFound, Listed(["node"]), names)) == [ListById]
    ensures VerdictOf(Resolve<string>(Node, "uuid", flag, Remote(FetchNotFound, Listed([]), names))) == Failed(ObjectNotFound)
    ensures VerdictOf(Resolve<string>(Node, "uuid", flag, Remote(FetchNotFound, Listed(["node1", "node2"]), names))) == Failed(NonUniqueIdentifier)
    ensures Resolve<string>(Node, "uuid", flag, Remote(FetchNotFound, ListFailed(ApiError("")), names)) == Raised(TutumApiError(ApiError("")))
  {
    ShownUpperCase();
  }
}
