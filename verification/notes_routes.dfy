/** The notes API of pyserver/routes/notes.py: the JWT dependency, adding a
    note for the token's user, and a page of that user's notes.

    `jwt.decode` is an oracle (its outcome is a parameter); the notes
    collection is a sequence of documents in their natural order, and the new
    document's id is a parameter. */
module NotesRoutes {
  import opened Common
  import opened NoteModel

  /** What `jwt.decode` did: a payload, or one of the two errors it raises. */
  datatype Decoded = Payload(claims: map<string, Val>) | ExpiredSignature | InvalidToken

  /** An HTTPException; a KeyError or ValueError in a handler is a 500. */
  datatype HttpError = HttpError(status: int, detail: string)

  const ServerError := HttpError(500, "Internal Server Error")

  /** A stored note document. */
  datatype Doc = Doc(id: string, title: string, content: string, userId: Val)

  /** `verify_jwt`: an expired token is "Token expired", any other bad token
      "Invalid token", both 401; otherwise the payload. */
  function VerifyJwt(d: Decoded): (r: Result<map<string, Val>, HttpError>)
    ensures d.ExpiredSignature? <==> r == Err(HttpError(401, "Token expired"))
    ensures d.InvalidToken? <==> r == Err(HttpError(401, "Invalid token"))
    ensures d.Payload? ==> r == Ok(d.claims)
  {
    match d
    case Payload(claims) => Ok(claims)
    case ExpiredSignature => Err(HttpError(401, "Token expired"))
    case InvalidToken => Err(HttpError(401, "Invalid token"))
  }

  /** Both routes sit behind the same dependency: each succeeds exactly when
      `verify_jwt` gives a payload carrying `_id` (and, for the list, a
      non-negative skip), and each reports the dependency's own error. */
  lemma JwtGuardsRoutes(db: seq<Doc>, d: Decoded, note: Note, newId: string, skip: int, limit: int)
    ensures AddNote(db, d, note, newId).Ok? <==> VerifyJwt(d).Ok? && "_id" in VerifyJwt(d).value
    ensures GetNotes(db, d, skip, limit).Ok? <==> VerifyJwt(d).Ok? && "_id" in VerifyJwt(d).value && skip >= 0
    ensures VerifyJwt(d).Err? ==>
      AddNote(db, d, note, newId) == Err(VerifyJwt(d).error) && GetNotes(db, d, skip, limit) == Err(VerifyJwt(d).error)
  {
  }

  /** The reply of `add_note`. */
  datatype Added = Added(id: string, message: string)

  /** `add_note`: one new document holding exactly the title, the content and
      the token's `_id`; the reply carries its id. */
  function AddNote(db: seq<Doc>, d: Decoded, note: Note, newId: string): (r: Result<(seq<Doc>, Added), HttpError>)
    ensures d.Payload? && "_id" in d.claims <==> r.Ok?
    ensures r.Ok? ==> r.value.0 == db + [Doc(newId, note.title, note.content, d.claims["_id"])]
    ensures r.Ok? ==> r.value.1 == Added(newId, "Note added")
    ensures d.Payload? && "_id" !in d.claims ==> r == Err(ServerError)
    ensures !d.Payload? ==> r == Err(VerifyJwt(d).error)
  {
    match VerifyJwt(d)
    case Err(e) => Err(e)
    case Ok(payload) =>
      if "_id" !in payload then Err(ServerError)
      else Ok((db + [Doc(newId, note.title, note.content, payload["_id"])], Added(newId, "Note added")))
  }

  function OwnedBy(user: Val): Doc -> bool {
    (n: Doc) => n.userId == user
  }

  function Abs(n: int): nat {
    if n < 0 then -n else n
  }

  /** The query defaults of `get_notes`. */
  const DefaultSkip := 0
  const DefaultLimit := 20

  /** `cursor.skip(skip).limit(limit)`: a limit of 0 means no limit, and a
      negative limit returns at most its absolute value. */
  function Page<T>(xs: seq<T>, skip: nat, limit: int): (r: seq<T>)
    ensures skip >= |xs| ==> r == []
    ensures skip < |xs| && (limit == 0 || Abs(limit) >= |xs| - skip) ==> r == xs[skip..]
    ensures skip < |xs| && limit != 0 && Abs(limit) < |xs| - skip ==> r == xs[skip..skip + Abs(limit)]
  {
    if skip >= |xs| then []
    else if limit == 0 || Abs(limit) >= |xs| - skip then xs[skip..]
    else xs[skip..skip + Abs(limit)]
  }

  function ToNote(n: Doc): Note {
    Note(n.title, n.content, Some(n.id))
  }

  function ToNotes(ns: seq<Doc>): (r: seq<Note>)
    ensures |r| == |ns| && forall i :: 0 <= i < |ns| ==> r[i] == ToNote(ns[i])
  {
    if ns == [] then [] else [ToNote(ns[0])] + ToNotes(ns[1..])
  }

  /** `get_notes`: the token user's documents, `skip` of them passed over and at
      most `limit` returned, each as title, content and id. A negative `skip`
      makes the driver raise. */
  function GetNotes(db: seq<Doc>, d: Decoded, skip: int, limit: int): (r: Result<seq<Note>, HttpError>)
    ensures r.Ok? <==> d.Payload? && "_id" in d.claims && skip >= 0
    ensures r.Ok? ==> r.value == ToNotes(Page(Filter(db, OwnedBy(d.claims["_id"])), skip, limit))
    ensures !d.Payload? ==> r == Err(VerifyJwt(d).error)
  {
    match VerifyJwt(d)
    case Err(e) => Err(e)
    case Ok(payload) =>
      if "_id" !in payload || skip < 0 then Err(ServerError)
      else Ok(ToNotes(Page(Filter(db, OwnedBy(payload["_id"])), skip, limit)))
  }

  // ---------------------------------------------------------------------------
  // Properties

  /** Every returned note is one of the caller's own documents, and a positive
      limit bounds the page. */
  lemma GetNotesOwnOnly(db: seq<Doc>, d: Decoded, skip: int, limit: int, i: int)
    requires GetNotes(db, d, skip, limit).Ok? && 0 <= i < |GetNotes(db, d, skip, limit).value|
    ensures exists n :: n in db && n.userId == d.claims["_id"] && GetNotes(db, d, skip, limit).value[i] == ToNote(n)
    ensures limit != 0 ==> |GetNotes(db, d, skip, limit).value| <= Abs(limit)
  {
    var owned := Filter(db, OwnedBy(d.claims["_id"]));
    var page := Page(owned, skip, limit);
    assert page[i] in owned;
  }

  /** With the defaults a caller gets their first twenty notes, or all of them
      when they have fewer. */
  lemma DefaultPage(db: seq<Doc>, d: Decoded)
    requires d.Payload? && "_id" in d.claims
    ensures var owned := Filter(db, OwnedBy(d.claims["_id"]));
      GetNotes(db, d, DefaultSkip, DefaultLimit)
        == Ok(ToNotes(if |owned| <= DefaultLimit then owned else owned[..DefaultLimit]))
  {
    var owned := Filter(db, OwnedBy(d.claims["_id"]));
    assert owned[0..] == owned;
  }

  /** Two consecutive pages are the page twice as long. */
  lemma PagesConcatenate<T>(xs: seq<T>, skip: nat, limit: nat)
    requires limit > 0
    ensures Page(xs, skip, limit) + Page(xs, skip + limit, limit) == Page(xs, skip, 2 * limit)
  {
  }

  /** Paging with the default size from 0 in steps of the page size visits every
      owned note once, in order. */
  lemma {:induction false} PagesCover<T>(xs: seq<T>, skip: nat, limit: nat)
    requires limit > 0
    ensures AllPages(xs, skip, limit) == (if skip < |xs| then xs[skip..] else [])
    decreases |xs| - skip
  {
    if skip < |xs| {
      PagesCover(xs, skip + limit, limit);
      PageThenRest(xs, skip, limit);
    }
  }

  /** A page followed by everything after it is everything from its start. */
  lemma PageThenRest<T>(xs: seq<T>, skip: nat, limit: nat)
    requires limit > 0 && skip < |xs|
    ensures Page(xs, skip, limit) + (if skip + limit < |xs| then xs[skip + limit..] else []) == xs[skip..]
  {
    assert Abs(limit) == limit;
    if skip + limit < |xs| {
      assert xs[skip..skip + limit] + xs[skip + limit..] == xs[skip..];
    }
  }

  /** The pages from `skip` onwards, concatenated. */
  function AllPages<T>(xs: seq<T>, skip: nat, limit: nat): seq<T>
    requires limit > 0
    decreases |xs| - skip
  {
    if skip >= |xs| then [] else Page(xs, skip, limit) + AllPages(xs, skip + limit, limit)
  }

  /** A note added by a user is on that user's pages, after the ones they had. */
  lemma AddThenGet(db: seq<Doc>, d: Decoded, note: Note, newId: string)
    requires AddNote(db, d, note, newId).Ok?
    ensures var db2 := AddNote(db, d, note, newId).value.0;
      GetNotes(db2, d, 0, 0) == Ok(GetNotes(db, d, 0, 0).value + [Note(note.title, note.content, Some(newId))])
  {
    var user := d.claims["_id"];
    var doc := Doc(newId, note.title, note.content, user);
    FilterAppend(db, doc, OwnedBy(user));
    ToNotesAppend(Filter(db, OwnedBy(user)), doc);
  }

  lemma ToNotesAppend(ns: seq<Doc>, n: Doc)
    ensures ToNotes(ns + [n]) == ToNotes(ns) + [ToNote(n)]
  {
  }
}
