/**
 * The folder collection endpoint (app/api/folders/route.ts). GET lists the
 * folders of one status, newest first; POST checks the name, fills in the
 * defaults and creates an active folder. The database is a sequence of
 * folder records; the id and creation time it would assign are parameters,
 * and whether it is reachable is an input.
 */
module FoldersRoute {
  import opened Wrappers

  datatype FolderRecord = FolderRecord(
    id: string,
    name: string,
    folderType: string,
    securityLevel: string,
    status: string,
    createdAt: int)

  /** A JSON reply: the payload with status 200, or an `{ error }` object with its status code. */
  datatype Response<T> = Json(value: T) | Failure(code: nat, error: string)

  const DefaultStatus: string := "active"
  const FetchFailed: string := "Failed to fetch folders"
  const NameRequired: string := "El nombre de la carpeta es requerido"
  const CreateFailed: string := "Error al crear la carpeta"

  /** The folders with the given status, in store order, each as often as it is stored. */
  function WithStatus(folders: seq<FolderRecord>, status: string): (r: seq<FolderRecord>)
    ensures forall x :: multiset(r)[x] == if x.status == status then multiset(folders)[x] else 0
  {
    if folders == [] then []
    else
      var rest := WithStatus(folders[1..], status);
      assert folders == [folders[0]] + folders[1..];
      if folders[0].status == status then [folders[0]] + rest else rest
  }

  /** `orderBy: { createdAt: 'desc' }`. */
  predicate NewestFirst(s: seq<FolderRecord>) {
    forall i, j :: 0 <= i < j < |s| ==> s[i].createdAt >= s[j].createdAt
  }

  function Insert(x: FolderRecord, s: seq<FolderRecord>): (r: seq<FolderRecord>)
    requires NewestFirst(s)
    ensures NewestFirst(r)
    ensures multiset(r) == multiset(s) + multiset{x}
    ensures forall y :: y in r ==> y == x || y in s
  {
    if s == [] || x.createdAt >= s[0].createdAt then [x] + s
    else
      var rest := Insert(x, s[1..]);
      assert s == [s[0]] + s[1..];
      HeadNewest(s[0], rest, x, s[1..]);
      [s[0]] + rest
  }

  /** A head at least as new as everything in the rest keeps a newest-first list newest first. */
  lemma HeadNewest(h: FolderRecord, rest: seq<FolderRecord>, x: FolderRecord, tail: seq<FolderRecord>)
    requires NewestFirst(rest) && x.createdAt < h.createdAt
    requires forall y :: y in tail ==> y.createdAt <= h.createdAt
    requires forall y :: y in rest ==> y == x || y in tail
    ensures NewestFirst([h] + rest)
  {
    forall i, j | 0 <= i < j < |[h] + rest| ensures ([h] + rest)[i].createdAt >= ([h] + rest)[j].createdAt {
      if i == 0 {
        assert ([h] + rest)[j] == rest[j - 1];
        assert rest[j - 1] in rest;
      }
    }
  }

  /** The same records, newest first. */
  function SortNewestFirst(s: seq<FolderRecord>): (r: seq<FolderRecord>)
    ensures NewestFirst(r)
    ensures multiset(r) == multiset(s)
  {
    if s == [] then []
    else
      assert s == [s[0]] + s[1..];
      Insert(s[0], SortNewestFirst(s[1..]))
  }

  /**
   * `findMany({ where: { status }, orderBy: { createdAt: 'desc' } })`:
   * exactly the stored folders of that status, newest first.
   */
  function Query(folders: seq<FolderRecord>, status: string): (r: seq<FolderRecord>)
    ensures NewestFirst(r)
    ensures forall x :: multiset(r)[x] == if x.status == status then multiset(folders)[x] else 0
    ensures forall x :: x in r <==> x in folders && x.status == status
  {
    SortNewestFirst(WithStatus(folders, status))
  }

  /**
   * GET: the `status` search parameter, 'active' when absent, selects the
   * folders; an unreachable store (`None`) gives a 500.
   */
  function Get(store: Option<seq<FolderRecord>>, statusParam: Option<string>): (r: Response<seq<FolderRecord>>)
    ensures store.None? <==> r.Failure?
    ensures r.Failure? ==> r == Failure(500, FetchFailed)
    ensures r.Json? ==> r.value == Query(store.value, statusParam.GetOr(DefaultStatus))
  {
    match store
    case None => Failure(500, FetchFailed)
    case Some(folders) => Json(Query(folders, statusParam.GetOr(DefaultStatus)))
  }

  /** Without a `status` parameter only active folders are listed. */
  lemma GetDefaultsToActive(folders: seq<FolderRecord>, x: FolderRecord)
    ensures var r := Get(Some(folders), None);
      r.Json? && (x in r.value <==> x in folders && x.status == "active")
  {
  }

  /**
   * The parsed JSON body. A `None` field is a missing or `null` property;
   * a body that is not valid JSON is `None` as a whole.
   */
  datatype PostBody = PostBody(name: Option<string>, folderType: Option<string>, securityLevel: Option<string>)

  /** `!name`: a missing, `null` or empty name. */
  predicate MissingName(body: PostBody) {
    body.name.None? || body.name.value == ""
  }

  /** The record POST asks the store to create: `??` defaults, so only a missing or `null` field is replaced. */
  function NewFolder(body: PostBody, id: string, createdAt: int): (r: FolderRecord)
    requires !MissingName(body)
  {
    FolderRecord(id, body.name.value, body.folderType.GetOr("privado"), body.securityLevel.GetOr("enhanced"), "active", createdAt)
  }

  /** The defaults replace only absent fields; an empty type or level is stored as given. */
  lemma NewFolderDefaults(body: PostBody, id: string, createdAt: int)
    requires !MissingName(body)
    ensures var r := NewFolder(body, id, createdAt);
      && r.name == body.name.value && r.status == "active"
      && (r.folderType == "privado" <==> body.folderType.None? || body.folderType == Some("privado"))
      && (body.folderType == Some("") ==> r.folderType == "")
      && (r.securityLevel == "enhanced" <==> body.securityLevel.None? || body.securityLevel == Some("enhanced"))
      && (body.securityLevel == Some("") ==> r.securityLevel == "")
  {
  }

  /** A name of spaces is not missing: only the empty string is refused, nothing is trimmed. */
  lemma WhitespaceNameAccepted(body: PostBody)
    requires body.name == Some(" ")
    ensures !MissingName(body)
  {
  }

  /** Whatever else is stored, a folder newer than all of them heads the listing of its status. */
  lemma {:induction false} NewestHeadsListing(folders: seq<FolderRecord>, x: FolderRecord)
    requires forall y :: y in folders ==> y.createdAt < x.createdAt
    ensures var r := Query(folders + [x], x.status);
      |r| > 0 && r[0] == x
  {
    var r := Query(folders + [x], x.status);
    assert x in folders + [x];
    assert x in r;
    var k :| 0 <= k < |r| && r[k] == x;
    if k > 0 {
      assert r[0] in folders + [x];
      assert r[0].createdAt >= r[k].createdAt;
    }
  }

  class FolderStore {
    var folders: seq<FolderRecord>

    constructor (initial: seq<FolderRecord>)
      ensures folders == initial
    {
      folders := initial;
    }

    /**
     * POST. Malformed JSON or an unreachable store gives a 500, a missing
     * name a 400, and nothing is stored; otherwise the new record is appended
     * and returned.
     */
    method Post(body: Option<PostBody>, id: string, now: int, reachable: bool) returns (r: Response<FolderRecord>)
      modifies this
      ensures body.None? ==> r == Failure(500, CreateFailed) && folders == old(folders)
      ensures body.Some? && MissingName(body.value) ==> r == Failure(400, NameRequired) && folders == old(folders)
      ensures body.Some? && !MissingName(body.value) && !reachable ==>
        r == Failure(500, CreateFailed) && folders == old(folders)
      ensures body.Some? && !MissingName(body.value) && reachable ==>
        r == Json(NewFolder(body.value, id, now)) && folders == old(folders) + [r.value]
    {
      if body.None? {
        return Failure(500, CreateFailed);
      }
      var b := body.value;
      if b.name.None? || b.name.value == "" {
        return Failure(400, NameRequired);
      }
      if !reachable {
        return Failure(500, CreateFailed);
      }
      var created := NewFolder(b, id, now);
      folders := folders + [created];
      return Json(created);
    }
  }

  /** A successful POST followed by a GET of active folders lists the new folder, first when it is the newest. */
  lemma PostThenGet(folders: seq<FolderRecord>, body: PostBody, id: string, now: int)
    requires !MissingName(body)
    ensures var x := NewFolder(body, id, now);
      var r := Get(Some(folders + [x]), None);
      r.Json? && x in r.value
      && ((forall y :: y in folders ==> y.createdAt < now) ==> r.value[0] == x)
  {
    var x := NewFolder(body, id, now);
    assert x in folders + [x];
    if forall y :: y in folders ==> y.createdAt < now {
      NewestHeadsListing(folders, x);
    }
  }
}
