/** Paging through the notes list end to end: the dashboard's `loadNotes`
    (client/src/components/Dashboard.jsx) calls `fetchNotes`
    (client/src/api/notes.js), which asks the notes API
    (pyserver/routes/notes.py) for a page.

    `fetchNotes` as written takes no arguments and sends no query, so the
    server always applies its defaults; the dashboard's `skip` and `limit`
    never reach it. Both the client as written and a `fetchNotes` that sends
    the query are modelled here, together with the effect that re-runs the
    reset load whenever `skip` changes. */
module NotesPaging {
  import opened Common
  import opened NoteModel
  import opened NotesRoutes
  import Dashboard

  /** Why `fetchNotes` threw: no token in storage, or a reply that was not ok. */
  datatype FetchError = NoToken | Failed(status: int)

  /** The reply of the notes API as the client sees it. */
  function Reply(r: Result<seq<Note>, HttpError>): (f: Result<seq<Note>, FetchError>)
    ensures r.Ok? <==> f.Ok?
    ensures r.Ok? ==> f.value == r.value
    ensures r.Err? ==> f == Err(Failed(r.error.status))
  {
    match r
    case Ok(notes) => Ok(notes)
    case Err(e) => Err(Failed(e.status))
  }

  /** `fetchNotes(skip, limit)` as written: the arguments are ignored and
      `/notes/` is requested without a query, so the page is the server's
      default one. */
  function FetchNotesAsWritten(hasToken: bool, db: seq<Doc>, d: Decoded, skip: nat, limit: nat)
    : (r: Result<seq<Note>, FetchError>)
    ensures !hasToken ==> r == Err(NoToken)
    ensures hasToken ==> r == Reply(GetNotes(db, d, DefaultSkip, DefaultLimit))
  {
    if !hasToken then Err(NoToken) else Reply(GetNotes(db, d, DefaultSkip, DefaultLimit))
  }

  /** `fetchNotes(skip, limit)` sending `?skip=&limit=`. */
  function FetchNotes(hasToken: bool, db: seq<Doc>, d: Decoded, skip: nat, limit: nat)
    : (r: Result<seq<Note>, FetchError>)
    ensures !hasToken ==> r == Err(NoToken)
    ensures hasToken ==> r == Reply(GetNotes(db, d, skip, limit))
  {
    if !hasToken then Err(NoToken) else Reply(GetNotes(db, d, skip, limit))
  }

  /** One run of `loadNotes(reset)` once the fetch has settled. */
  function Load(s: Dashboard.Dash, reset: bool, fetched: Result<seq<Note>, FetchError>): (r: Dashboard.Dash)
    ensures fetched.Ok? ==> r == Dashboard.LoadSucceeded(Dashboard.LoadStarted(s), reset, fetched.value)
    ensures fetched.Err? ==> r == Dashboard.LoadFailed(Dashboard.LoadStarted(s))
  {
    match fetched
    case Ok(page) => Dashboard.LoadSucceeded(Dashboard.LoadStarted(s), reset, page)
    case Err(_) => Dashboard.LoadFailed(Dashboard.LoadStarted(s))
  }

  /** What the dashboard talks to: whether a token is stored, the notes
      collection, what `jwt.decode` makes of the token, and whether
      `fetchNotes` sends `?skip=&limit=` (as written it does not). */
  datatype Client = Client(hasToken: bool, db: seq<Doc>, d: Decoded, sendsQuery: bool)

  function Fetch(c: Client, skip: nat): Result<seq<Note>, FetchError> {
    if c.sendsQuery then FetchNotes(c.hasToken, c.db, c.d, skip, Dashboard.Limit)
    else FetchNotesAsWritten(c.hasToken, c.db, c.d, skip, Dashboard.Limit)
  }

  /** One `loadNotes(reset)` against the client. */
  function LoadNotes(c: Client, s: Dashboard.Dash, reset: bool): Dashboard.Dash {
    Load(s, reset, Fetch(c, Dashboard.RequestSkip(s, reset)))
  }

  /** The effect keyed on `loadNotes`: `loadNotes` is rebuilt whenever `skip`
      changes, and the effect then runs `loadNotes(true)` again, for as long
      as that keeps changing `skip`. A reset load always asks for skip 0, so
      the second reset load leaves `skip` where the first put it
      (`ResetLoadSettles`) and the effect stops. The net result is one reset
      load on top of `s`: the first page, or the error with the list kept. */
  function Settle(c: Client, before: nat, s: Dashboard.Dash): (r: Dashboard.Dash)
    ensures s.skip == before ==> r == s
    ensures s.skip != before && Fetch(c, 0).Ok? ==>
      var page := Fetch(c, 0).value;
      r == s.(notes := page, skip := |page|, isLoading := false, hasMore := |page| == Dashboard.Limit)
    ensures s.skip != before && Fetch(c, 0).Err? ==>
      r == s.(isLoading := false, error := Some(Dashboard.LoadError))
  {
    if s.skip == before then s
    else
      var a := LoadNotes(c, s, true);
      if a.skip == s.skip then a
      else LoadNotes(c, a, true)
  }

  /** The dashboard once mounted: the effect runs `loadNotes(true)` on
      mount, and once more if that changed `skip`. */
  function Mount(c: Client): (r: Dashboard.Dash)
    ensures Fetch(c, 0).Ok? ==>
      var page := Fetch(c, 0).value;
      r == Dashboard.Init().(notes := page, skip := |page|, hasMore := |page| == Dashboard.Limit)
    ensures Fetch(c, 0).Err? ==> r == Dashboard.Init().(error := Some(Dashboard.LoadError))
  {
    Settle(c, 0, LoadNotes(c, Dashboard.Init(), true))
  }

  /** Whether the "Load More Notes" button is there and enabled: it is
      rendered only with no search term and `hasMore`, and disabled while
      loading. */
  predicate CanLoadMore(s: Dashboard.Dash) {
    s.searchTerm == "" && s.hasMore && !s.isLoading
  }

  /** A click on "Load More Notes": `loadNotes(false)`, then whatever the
      effect does once `skip` has moved. */
  function LoadMore(c: Client, s: Dashboard.Dash): (r: Dashboard.Dash)
    ensures !CanLoadMore(s) ==> r == s
    ensures (&& CanLoadMore(s) && s.skip == |s.notes| && Fetch(c, 0).Ok?
             && Fetch(c, s.skip).Ok? && Fetch(c, s.skip).value != [])
            ==> r.notes == Fetch(c, 0).value
    ensures CanLoadMore(s) && Fetch(c, s.skip).Err? ==> r.notes == s.notes && r.error == Some(Dashboard.LoadError)
    ensures CanLoadMore(s) && s.skip == |s.notes| && Fetch(c, s.skip) == Ok([]) ==> r.notes == s.notes && !r.hasMore
  {
    if !CanLoadMore(s) then s
    else Settle(c, s.skip, LoadNotes(c, s, false))
  }

  /** `k` clicks on "Load More Notes". */
  function LoadMoreTimes(c: Client, s: Dashboard.Dash, k: nat): Dashboard.Dash
    decreases k
  {
    if k == 0 then s else LoadMoreTimes(c, LoadMore(c, s), k - 1)
  }

  /** The intended dashboard: the initial load runs once, on mount, and is
      not re-run when `skip` changes. */
  function MountOnce(c: Client): (r: Dashboard.Dash)
    ensures Fetch(c, 0).Ok? ==>
      var page := Fetch(c, 0).value;
      r == Dashboard.Init().(notes := page, skip := |page|, hasMore := |page| == Dashboard.Limit)
    ensures Fetch(c, 0).Err? ==> r == Dashboard.Init().(error := Some(Dashboard.LoadError))
  {
    LoadNotes(c, Dashboard.Init(), true)
  }

  /** "Load More Notes" with the effect no longer keyed on `skip`. */
  function LoadMoreOnce(c: Client, s: Dashboard.Dash): (r: Dashboard.Dash)
    ensures !CanLoadMore(s) ==> r == s
    ensures CanLoadMore(s) && Fetch(c, s.skip).Ok? ==> r.notes == s.notes + Fetch(c, s.skip).value
    ensures CanLoadMore(s) && Fetch(c, s.skip).Err? ==> r.notes == s.notes && r.error == Some(Dashboard.LoadError)
  {
    if !CanLoadMore(s) then s else LoadNotes(c, s, false)
  }

  // ---------------------------------------------------------------------------
  // Properties

  /** The effect stops: a reset load right after a reset load leaves `skip`
      where it was, so `loadNotes` is not rebuilt again. */
  lemma ResetLoadSettles(c: Client, t: Dashboard.Dash)
    ensures var a := LoadNotes(c, t, true);
      LoadNotes(c, a, true).skip == a.skip
  {
  }

  /** Both clients show the first twenty of the user's notes on mount (the
      server's default page is the one asked for at skip 0). */
  lemma MountShowsFirstPage(c: Client)
    requires c.hasToken && c.d.Payload? && "_id" in c.d.claims
    ensures Mount(c).notes == ToNotes(Page(Filter(c.db, OwnedBy(c.d.claims["_id"])), 0, Dashboard.Limit))
    ensures MountOnce(c).notes == Mount(c).notes
  {
  }

  /** As written, for a user with at least twenty notes, "load more" first
      shows the first page twice, and then the effect's reset load puts the
      list back exactly as it was on mount. */
  lemma LoadMoreRepeatsFirstPage(c: Client)
    requires !c.sendsQuery && c.hasToken && c.d.Payload? && "_id" in c.d.claims
    requires |Filter(c.db, OwnedBy(c.d.claims["_id"]))| >= Dashboard.Limit
    ensures var first := ToNotes(Page(Filter(c.db, OwnedBy(c.d.claims["_id"])), 0, Dashboard.Limit));
      && Mount(c).notes == first
      && CanLoadMore(Mount(c))
      && LoadNotes(c, Mount(c), false).notes == first + first
      && LoadMore(c, Mount(c)) == Mount(c)
  {
    var owned := Filter(c.db, OwnedBy(c.d.claims["_id"]));
    assert |Page(owned, 0, Dashboard.Limit)| == Dashboard.Limit;
  }

  /** As written, "load more" never gets past the first page: from the
      mounted dashboard, any number of clicks leaves it as it was. */
  lemma {:induction false} LoadMoreNeverAdvances(c: Client, k: nat)
    requires !c.sendsQuery
    ensures LoadMoreTimes(c, Mount(c), k) == Mount(c)
    decreases k
  {
    if k > 0 {
      StuckAtMount(c);
      LoadMoreNeverAdvances(c, k - 1);
    }
  }

  /** One click, for every client as written: the mounted state is a fixed
      point of "load more". */
  lemma StuckAtMount(c: Client)
    requires !c.sendsQuery
    ensures LoadMore(c, Mount(c)) == Mount(c)
  {
  }

  /** Sending the query alone does not help: the effect's reset load still
      brings the list back to the first page. */
  lemma QueryAloneStillResets(c: Client)
    requires c.sendsQuery
    ensures LoadMore(c, Mount(c)).notes == Mount(c).notes
  {
  }

  /** The two pages concatenated are the first forty owned notes. */
  lemma {:induction false} SecondPageFollows<T>(xs: seq<T>)
    ensures var first := Page(xs, 0, Dashboard.Limit);
      first + Page(xs, |first|, Dashboard.Limit) == Page(xs, 0, 2 * Dashboard.Limit)
  {
    var first := Page(xs, 0, Dashboard.Limit);
    if |xs| <= Dashboard.Limit {
      assert xs[0..] == xs;
      assert |first| == |xs|;
    } else {
      assert |first| == Dashboard.Limit;
      PagesConcatenate(xs, 0, Dashboard.Limit);
    }
  }

  lemma ToNotesConcat(a: seq<Doc>, b: seq<Doc>)
    ensures ToNotes(a + b) == ToNotes(a) + ToNotes(b)
  {
    assert forall i :: 0 <= i < |a + b| ==> ToNotes(a + b)[i] == (ToNotes(a) + ToNotes(b))[i];
  }

  /** With the query sent and the initial load run only on mount, "load
      more" continues where the first page ended: the list is the user's
      first forty notes, in order, and "load more" stays offered only while
      the second page was full. */
  lemma LoadMoreContinues(c: Client)
    requires c.sendsQuery && c.hasToken && c.d.Payload? && "_id" in c.d.claims
    requires |Filter(c.db, OwnedBy(c.d.claims["_id"]))| >= Dashboard.Limit
    ensures var owned := Filter(c.db, OwnedBy(c.d.claims["_id"]));
      && CanLoadMore(MountOnce(c))
      && LoadMoreOnce(c, MountOnce(c)).notes == ToNotes(Page(owned, 0, 2 * Dashboard.Limit))
      && (LoadMoreOnce(c, MountOnce(c)).hasMore <==> |owned| >= 2 * Dashboard.Limit)
  {
    var owned := Filter(c.db, OwnedBy(c.d.claims["_id"]));
    var first := Page(owned, 0, Dashboard.Limit);
    assert |first| == Dashboard.Limit;
    SecondPageFollows(owned);
    ToNotesConcat(first, Page(owned, |first|, Dashboard.Limit));
  }
}
