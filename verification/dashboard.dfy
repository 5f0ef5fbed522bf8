/** The note dashboard of client/src/components/Dashboard.jsx: paging through
    the user's notes, deleting, adding, searching, truncating previews and
    selecting a note, each as a transform of the component's state record.

    The results of the network calls (`fetchNotes`, `deleteNote`, the POST of
    `addNote`) and of `window.confirm` are parameters. `toLowerCase` is an
    abstract string function. Notes have the shape the notes service returns
    (`NoteModel.Note`). */
module Dashboard {
  import opened Common
  import opened NoteModel

  /** The page size `loadNotes` asks for. */
  const Limit: nat := 20

  /** The default preview length of `truncateContent`. */
  const PreviewLength: nat := 150

  const LoadError := "Failed to load notes. Please try again."

  datatype Dash = Dash(
    notes: seq<Note>,
    title: string,
    content: string,
    skip: nat,
    isLoading: bool,
    searchTerm: string,
    selected: Option<Note>,
    viewMode: string,
    hasMore: bool,
    error: Option<string>)

  function Init(): Dash {
    Dash([], "", "", 0, false, "", None, "grid", true, None)
  }

  // ---------------------------------------------------------------------------
  // loadNotes

  /** The first update of `loadNotes`: the spinner goes on. */
  function LoadStarted(s: Dash): (r: Dash)
    ensures r.isLoading && r == s.(isLoading := true)
  {
    s.(isLoading := true)
  }

  /** The `skip` `loadNotes` passes to `fetchNotes`. */
  function RequestSkip(s: Dash, reset: bool): (r: nat)
    ensures reset ==> r == 0
    ensures !reset ==> r == s.skip
  {
    if reset then 0 else s.skip
  }

  /** A page came back: it replaces the list (reset) or is appended to it. */
  function LoadSucceeded(s: Dash, reset: bool, page: seq<Note>): (r: Dash)
    ensures r.skip == |r.notes|
    ensures reset ==> r.notes == page
    ensures !reset ==> r.notes == s.notes + page && r.notes[..|s.notes|] == s.notes
    ensures r.hasMore <==> |page| == Limit
    ensures !r.isLoading
    ensures r.(notes := s.notes, skip := s.skip, isLoading := s.isLoading, hasMore := s.hasMore) == s
  {
    s.(notes := if reset then page else s.notes + page,
       skip := if reset then |page| else |s.notes| + |page|,
       isLoading := false,
       hasMore := |page| == Limit)
  }

  /** The fetch raised: the list stays, the spinner goes off, the message is shown. */
  function LoadFailed(s: Dash): (r: Dash)
    ensures r.notes == s.notes && r.skip == s.skip && !r.isLoading && r.error == Some(LoadError)
    ensures r.(isLoading := s.isLoading, error := s.error) == s
  {
    s.(isLoading := false, error := Some(LoadError))
  }

  /** A fresh load followed by "load more" holds both pages, in order, and
      asks the server to skip exactly what is already shown. */
  lemma LoadMoreAppends(s: Dash, first: seq<Note>, second: seq<Note>)
    ensures var a := LoadSucceeded(LoadStarted(s), true, first);
      && RequestSkip(a, false) == |first|
      && LoadSucceeded(LoadStarted(a), false, second).notes == first + second
      && LoadSucceeded(LoadStarted(a), false, second).skip == |first| + |second|
  {
  }

  /** Pages are counted from where the list ends, however many loads ran. */
  lemma {:induction false} SkipTracksList(s: Dash, pages: seq<seq<Note>>)
    requires s.skip == |s.notes|
    ensures LoadAll(s, pages).skip == |LoadAll(s, pages).notes|
    ensures LoadAll(s, pages).notes == s.notes + Concat(pages)
    decreases |pages|
  {
    if pages != [] {
      var next := LoadSucceeded(LoadStarted(s), false, pages[0]);
      SkipTracksList(next, pages[1..]);
      assert s.notes + Concat(pages) == (s.notes + pages[0]) + Concat(pages[1..]);
    }
  }

  /** Successive "load more" rounds, each returning the next page. */
  function LoadAll(s: Dash, pages: seq<seq<Note>>): Dash
    decreases |pages|
  {
    if pages == [] then s
    else LoadAll(LoadSucceeded(LoadStarted(s), false, pages[0]), pages[1..])
  }

  function Concat(pages: seq<seq<Note>>): seq<Note>
    decreases |pages|
  {
    if pages == [] then [] else pages[0] + Concat(pages[1..])
  }

  // ---------------------------------------------------------------------------
  // handleDeleteNote

  /** `selectedNote?.id`: undefined when nothing is selected. */
  function SelectedId(s: Dash): Option<string> {
    if s.selected.Some? then s.selected.value.id else None
  }

  function OtherId(id: Option<string>): Note -> bool {
    (n: Note) => n.id != id
  }

  /** `handleDeleteNote`: nothing unless the user confirms and the server call
      succeeds; then every note with that id goes, and so does the selection if
      it had that id. */
  function HandleDelete(s: Dash, noteId: Option<string>, confirmed: bool, deleted: bool): (r: Dash)
    ensures !confirmed || !deleted ==> r == s
    ensures confirmed && deleted ==>
      && (forall n :: n in r.notes <==> n in s.notes && n.id != noteId)
      && IsSubsequence(r.notes, s.notes)
      && (r.selected == None <==> s.selected == None || s.selected.value.id == noteId)
      && (r.selected != None ==> r.selected == s.selected)
      && r.(notes := s.notes, selected := s.selected) == s
  {
    if !confirmed || !deleted then s
    else
      FilterIsSubsequence(s.notes, OtherId(noteId));
      s.(notes := Filter(s.notes, OtherId(noteId)),
         selected := if SelectedId(s) == noteId then None else s.selected)
  }

  /** Deleting the same id again changes nothing. */
  lemma DeleteTwice(s: Dash, noteId: Option<string>)
    ensures var once := HandleDelete(s, noteId, true, true);
      HandleDelete(once, noteId, true, true) == once
  {
    FilterIdempotent(s.notes, OtherId(noteId));
  }

  // ---------------------------------------------------------------------------
  // handleAddNote and the addNote client call

  /** The request fields `addNote({ title, content, userId })` has checked, or
      the error it throws before sending. `arg` is its one argument; the
      destructuring in the parameter list runs first, so a null or undefined
      argument throws a TypeError whether or not a token is stored. */
  function AddNoteCall(arg: Val, token: Option<string>): (r: Result<(Val, Val), string>)
    ensures Nullish(arg) ==> r == Err("TypeError")
    ensures !Nullish(arg) && !Present(token) ==> r == Err("No authentication token found. Please log in.")
    ensures r.Ok? <==> !Nullish(arg) && Present(token) && Truthy(Get(arg, "title").value)
                                      && Truthy(Get(arg, "content").value)
    ensures r.Ok? ==> r.value == (Get(arg, "title").value, Get(arg, "content").value)
  {
    match (Get(arg, "title"), Get(arg, "content"))
    case (Ok(t), Ok(c)) =>
      if !Present(token) then Err("No authentication token found. Please log in.")
      else if !Truthy(t) || !Truthy(c) then Err("Title and content are required")
      else Ok((t, c))
    case _ => Err("TypeError")
  }

  /** The `!title.trim() || !content.trim()` guard of `handleAddNote`, which also
      disables the button together with `isLoading`. */
  predicate AddBlocked(s: Dash) {
    Trim(s.title) == "" || Trim(s.content) == ""
  }

  predicate AddDisabled(s: Dash) {
    s.isLoading || AddBlocked(s)
  }

  /** What `handleAddNote` did: the state afterwards, whether the POST went out,
      and whether it started a reload from the first page. */
  datatype AddOutcome = AddOutcome(state: Dash, posted: bool, reload: bool)

  /** `handleAddNote` given the argument it hands to `addNote`; `stored` is the
      server's answer to the POST. */
  function AddNoteWith(s: Dash, arg: Val, token: Option<string>, stored: bool): (r: AddOutcome)
    ensures AddBlocked(s) ==> r == AddOutcome(s, false, false)
    ensures r.posted <==> !AddBlocked(s) && AddNoteCall(arg, token).Ok?
    ensures r.reload <==> r.posted && stored
    ensures r.reload ==> r.state == s.(title := "", content := "", skip := 0, isLoading := false)
    ensures !AddBlocked(s) && !r.reload ==> r.state == s.(isLoading := false)
  {
    if AddBlocked(s) then AddOutcome(s, false, false)
    else match AddNoteCall(arg, token)
      case Ok(_) =>
        if stored then AddOutcome(s.(title := "", content := "", skip := 0, isLoading := false), true, true)
        else AddOutcome(s.(isLoading := false), true, false)
      case Err(_) => AddOutcome(s.(isLoading := false), false, false)
  }

  /** `handleAddNote` as written: `addNote(title, content)` passes the title
      string where an object is destructured. */
  function HandleAddNoteAsWritten(s: Dash, token: Option<string>, stored: bool): (r: AddOutcome)
    ensures AddBlocked(s) ==> r == AddOutcome(s, false, false)
  {
    AddNoteWith(s, Str(s.title), token, stored)
  }

  /** Destructuring a string finds no `title` property, so the call always throws
      before sending: the dashboard can never add a note. */
  lemma AddNoteAsWrittenNeverPosts(s: Dash, token: Option<string>, stored: bool)
    ensures !HandleAddNoteAsWritten(s, token, stored).posted
    ensures !HandleAddNoteAsWritten(s, token, stored).reload
    ensures HandleAddNoteAsWritten(s, token, stored).state == (if AddBlocked(s) then s else s.(isLoading := false))
  {
    assert Get(Str(s.title), "title") == Ok(Undefined);
  }

  /** `handleAddNote` calling `addNote({ title, content })`, as the client expects. */
  function HandleAddNote(s: Dash, token: Option<string>, stored: bool): (r: AddOutcome)
    ensures AddBlocked(s) ==> r == AddOutcome(s, false, false)
    ensures !AddBlocked(s) && Present(token) ==> r.posted
    ensures !AddBlocked(s) && Present(token) && stored ==>
      r.reload && r.state.title == "" && r.state.content == "" && r.state.skip == 0 && !r.state.isLoading
    ensures !r.posted || !stored ==> !r.reload && r.state.notes == s.notes && r.state.title == s.title
  {
    var arg := Obj(map["title" := Str(s.title), "content" := Str(s.content)]);
    assert Get(arg, "title") == Ok(Str(s.title)) && Get(arg, "content") == Ok(Str(s.content));
    FilledNonEmpty(s);
    AddNoteWith(s, arg, token, stored)
  }

  /** Fields that pass the guard are not empty. */
  lemma FilledNonEmpty(s: Dash)
    ensures !AddBlocked(s) ==> s.title != "" && s.content != ""
  {
    TrimEmptyIffBlank(s.title);
    TrimEmptyIffBlank(s.content);
  }

  /** The add guard rejects exactly the entries made only of white space. */
  lemma AddBlockedIffBlank(s: Dash)
    ensures AddBlocked(s) <==> Blank(s.title) || Blank(s.content)
  {
    TrimEmptyIffBlank(s.title);
    TrimEmptyIffBlank(s.content);
  }

  // ---------------------------------------------------------------------------
  // filteredNotes

  /** A note matches when its lower-cased title or content contains the
      lower-cased search term. */
  function Matches(term: string, lower: string -> string): Note -> bool {
    (n: Note) => Includes(lower(n.title), lower(term)) || Includes(lower(n.content), lower(term))
  }

  function FilteredNotes(notes: seq<Note>, term: string, lower: string -> string): (r: seq<Note>)
    ensures IsSubsequence(r, notes)
    ensures forall n :: n in r <==> n in notes && Matches(term, lower)(n)
  {
    FilterIsSubsequence(notes, Matches(term, lower));
    Filter(notes, Matches(term, lower))
  }

  /** With an empty search box every note is shown. */
  lemma EmptySearchShowsAll(notes: seq<Note>, lower: string -> string)
    requires lower("") == ""
    ensures FilteredNotes(notes, "", lower) == notes
  {
    forall i | 0 <= i < |notes| ensures Matches("", lower)(notes[i]) {
      IncludesEmpty(lower(notes[i].title));
    }
    FilterAll(notes, Matches("", lower));
  }

  /** A note is shown exactly when the term occurs in its title or content. */
  lemma ShownIffOccurs(notes: seq<Note>, term: string, lower: string -> string, n: Note)
    requires n in notes
    ensures n in FilteredNotes(notes, term, lower) <==>
      OccursIn(lower(term), lower(n.title)) || OccursIn(lower(term), lower(n.content))
  {
    IncludesIffOccurs(lower(n.title), lower(term));
    IncludesIffOccurs(lower(n.content), lower(term));
  }

  // ---------------------------------------------------------------------------
  // truncateContent and toggleNoteSelection

  /** `truncateContent(text, max)`: short texts unchanged, long ones cut to `max`
      characters followed by an ellipsis. */
  function Truncate(text: string, max: nat): (r: string)
    ensures |r| <= max + 3
    ensures |text| <= max ==> r == text
    ensures |text| > max ==> |r| == max + 3 && r[..max] == text[..max] && r[max..] == "..."
  {
    if text == "" then ""
    else if |text| <= max then text
    else text[..max] + "..."
  }

  /** Truncating a preview again gives the same preview. */
  lemma TruncateIdempotent(text: string, max: nat)
    ensures Truncate(Truncate(text, max), max) == Truncate(text, max)
  {
    var once := Truncate(text, max);
    if |text| > max {
      assert once[..max] + "..." == once;
    }
  }

  /** `toggleNoteSelection`: a click on the selected note clears the selection,
      a click on any other note selects it. */
  function Toggle(s: Dash, note: Note): (r: Dash)
    ensures r.selected.Some? ==> r.selected.value == note
    ensures r.selected.None? <==> SelectedId(s) == note.id
    ensures r.(selected := s.selected) == s
  {
    s.(selected := if SelectedId(s) == note.id then None else Some(note))
  }

  /** Two clicks on a note that was not selected leave nothing selected. */
  lemma ToggleTwiceClears(s: Dash, note: Note)
    requires SelectedId(s) != note.id
    ensures Toggle(s, note).selected == Some(note)
    ensures Toggle(Toggle(s, note), note).selected == None
  {
  }
}
