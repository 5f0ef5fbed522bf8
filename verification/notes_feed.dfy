/** The live note list of client/src/components/NotesFeed.jsx: the
    `handleMessage` reducer that applies server events to the list, and the
    frame `createNote` sends.

    Notes and messages are JavaScript values (`Common.Val`). A property read on
    null or undefined raises a TypeError, and the reducer then produces `Err`.
    In the component that error is thrown by a state updater during render;
    the app has no error boundary, so React unmounts the tree. The model stops
    at the `Err` and says nothing about the list afterwards. */
module NotesFeed {
  import opened Common

  /** `{ ...note, ...data }`: the note's own properties, overridden by the update's. */
  function Merge(note: Val, data: Val): (r: Val)
    ensures r.Obj? && r.fields.Keys == OwnProps(note).Keys + OwnProps(data).Keys
    ensures forall k :: k in OwnProps(data) ==> r.fields[k] == OwnProps(data)[k]
    ensures forall k :: k in OwnProps(note) && k !in OwnProps(data) ==> r.fields[k] == OwnProps(note)[k]
  {
    Obj(OwnProps(note) + OwnProps(data))
  }

  /** `note.id === id` for two property reads that both succeeded. Every note in
      the list and every message come from separate JSON.parse calls, so an
      object or array id never matches. */
  predicate SameId(a: Result<Val, TypeError>, b: Result<Val, TypeError>) {
    a.Ok? && b.Ok? && StrictEquals(a.value, b.value)
  }

  /** The list `note_updated` produces: `notes.map(note => note.id === data.id ? merged : note)`.
      It raises when a note is null or undefined, or when there is a note to
      compare and `data` is null or undefined. */
  function UpdateNotes(notes: seq<Val>, data: Val): (r: Result<seq<Val>, TypeError>)
    ensures r.Err? <==> (exists i :: 0 <= i < |notes| && Nullish(notes[i])) || (notes != [] && Nullish(data))
    ensures r.Ok? ==> |r.value| == |notes|
    ensures r.Ok? ==> forall i :: 0 <= i < |notes| ==>
      r.value[i] == (if SameId(Get(notes[i], "id"), Get(data, "id")) then Merge(notes[i], data) else notes[i])
  {
    if notes == [] then Ok([])
    else
      match Get(notes[0], "id")
      case Err(e) => Err(e)
      case Ok(id) =>
        match Get(data, "id")
        case Err(e) => Err(e)
        case Ok(target) =>
          match UpdateNotes(notes[1..], data)
          case Err(e) =>
            assert exists i :: 0 <= i < |notes[1..]| && Nullish(notes[1..][i]);
            Err(e)
          case Ok(rest) =>
            Ok([if StrictEquals(id, target) then Merge(notes[0], data) else notes[0]] + rest)
  }

  /** The notes `note_deleted` keeps: those whose id is not `=== id`. */
  function KeepsId(id: Val): Val -> bool {
    note => !SameId(Get(note, "id"), Ok(id))
  }

  /** The list `note_deleted` produces: `notes.filter(note => note.id !== id)`,
      raising when a note is null or undefined. */
  function DeleteNotes(notes: seq<Val>, id: Val): (r: Result<seq<Val>, TypeError>)
    ensures r.Err? <==> exists i :: 0 <= i < |notes| && Nullish(notes[i])
    ensures r.Ok? ==> r.value == Filter(notes, KeepsId(id))
  {
    if notes == [] then Ok([])
    else
      match Get(notes[0], "id")
      case Err(e) => Err(e)
      case Ok(nid) =>
        match DeleteNotes(notes[1..], id)
        case Err(e) =>
          assert exists i :: 0 <= i < |notes[1..]| && Nullish(notes[1..][i]);
          Err(e)
        case Ok(rest) =>
          Ok((if !StrictEquals(nid, id) then [notes[0]] else []) + rest)
  }

  /** `handleMessage`: dispatch on `message.event`. Reading `event` of a null or
      undefined message raises; an event other than the three leaves the list. */
  function HandleMessage(notes: seq<Val>, message: Val): (r: Result<seq<Val>, TypeError>)
    ensures Nullish(message) ==> r.Err?
    ensures !Nullish(message) ==>
      var data := Get(message, "data").value;
      && (Get(message, "event") == Ok(Str("note_created")) ==> r == Ok([data] + notes))
      && (Get(message, "event") == Ok(Str("note_updated")) ==> r == UpdateNotes(notes, data))
      && (Get(message, "event") == Ok(Str("note_deleted")) ==> r == DeleteNotes(notes, Get(message, "id").value))
      && (Get(message, "event") !in {Ok(Str("note_created")), Ok(Str("note_updated")), Ok(Str("note_deleted"))} ==>
            r == Ok(notes))
  {
    match Get(message, "event")
    case Err(e) => Err(e)
    case Ok(event) =>
      match (Get(message, "data"), Get(message, "id"))
      case (Ok(data), Ok(id)) =>
        if event == Str("note_created") then Ok([data] + notes)
        else if event == Str("note_updated") then UpdateNotes(notes, data)
        else if event == Str("note_deleted") then DeleteNotes(notes, id)
        else Ok(notes)
      case _ => Err(TypeError)
  }

  /** The frame `createNote` hands to `sendMessage`. */
  function CreateNote(content: string, timestamp: string): (r: Val)
    ensures r.Obj? && r.fields.Keys == {"type", "content", "timestamp"}
    ensures Get(r, "type") == Ok(Str("create_note"))
    ensures Get(r, "content") == Ok(Str(content)) && Get(r, "timestamp") == Ok(Str(timestamp))
  {
    Obj(map["type" := Str("create_note"), "content" := Str(content), "timestamp" := Str(timestamp)])
  }

  // ---------------------------------------------------------------------------
  // Properties of the reducer

  /** A merged note matches the update's id, so merging again changes nothing. */
  lemma MergeAgain(note: Val, data: Val)
    requires !Nullish(note) && Get(note, "id") == Get(data, "id")
    ensures Get(Merge(note, data), "id") == Get(data, "id")
    ensures Merge(Merge(note, data), data) == Merge(note, data)
  {
    var m := Merge(note, data);
    assert OwnProps(m) + OwnProps(data) == OwnProps(m);
  }

  /** Applying the same update twice gives the list applying it once gives. */
  lemma UpdateIdempotent(notes: seq<Val>, data: Val)
    requires UpdateNotes(notes, data).Ok?
    ensures UpdateNotes(UpdateNotes(notes, data).value, data) == UpdateNotes(notes, data)
  {
    var once := UpdateNotes(notes, data).value;
    forall i | 0 <= i < |once| ensures !Nullish(once[i]) {
      assert !Nullish(notes[i]);
    }
    forall i | 0 <= i < |notes| && SameId(Get(notes[i], "id"), Get(data, "id"))
      ensures SameId(Get(once[i], "id"), Get(data, "id")) && Merge(once[i], data) == once[i]
    {
      MergeAgain(notes[i], data);
    }
    var twice := UpdateNotes(once, data);
    assert twice.Ok?;
    assert twice.value == once;
  }

  /** An update never changes a note whose id differs, and never changes the length. */
  lemma UpdateLeavesOthers(notes: seq<Val>, data: Val, i: int)
    requires UpdateNotes(notes, data).Ok? && 0 <= i < |notes|
    requires !SameId(Get(notes[i], "id"), Get(data, "id"))
    ensures |UpdateNotes(notes, data).value| == |notes|
    ensures UpdateNotes(notes, data).value[i] == notes[i]
  {
  }

  /** Deleting twice removes nothing more. */
  lemma DeleteIdempotent(notes: seq<Val>, id: Val)
    requires DeleteNotes(notes, id).Ok?
    ensures DeleteNotes(DeleteNotes(notes, id).value, id) == DeleteNotes(notes, id)
  {
    var once := DeleteNotes(notes, id).value;
    FilterIdempotent(notes, KeepsId(id));
    forall i | 0 <= i < |once| ensures !Nullish(once[i]) {
      assert once[i] in notes;
    }
  }

  /** After a delete, exactly the notes with another id remain, in their order. */
  lemma DeleteRemovesExactly(notes: seq<Val>, id: Val, x: Val)
    requires DeleteNotes(notes, id).Ok?
    ensures x in DeleteNotes(notes, id).value <==> x in notes && !SameId(Get(x, "id"), Ok(id))
    ensures IsSubsequence(DeleteNotes(notes, id).value, notes)
  {
    FilterIsSubsequence(notes, KeepsId(id));
    if x in notes && !SameId(Get(x, "id"), Ok(id)) {
      var i :| 0 <= i < |notes| && notes[i] == x;
      assert KeepsId(id)(notes[i]);
    }
  }

  /** A note created and then deleted by its id leaves the list as it was,
      provided the id is a primitive and no older note carries it. */
  lemma CreateThenDelete(notes: seq<Val>, data: Val, id: Val, created: Val, deleted: Val)
    requires !Nullish(data) && Get(data, "id") == Ok(id) && !id.Arr? && !id.Obj?
    requires forall i :: 0 <= i < |notes| ==> !Nullish(notes[i]) && !SameId(Get(notes[i], "id"), Ok(id))
    requires created == Obj(map["event" := Str("note_created"), "data" := data])
    requires deleted == Obj(map["event" := Str("note_deleted"), "id" := id])
    ensures HandleMessage(notes, created) == Ok([data] + notes)
    ensures HandleMessage([data] + notes, deleted) == Ok(notes)
  {
    assert Get(created, "event") == Ok(Str("note_created")) && Get(created, "data") == Ok(data);
    assert Get(deleted, "event") == Ok(Str("note_deleted")) && Get(deleted, "id") == Ok(id);
    DeleteCreated(notes, data, id);
  }

  lemma DeleteCreated(notes: seq<Val>, data: Val, id: Val)
    requires !Nullish(data) && Get(data, "id") == Ok(id) && !id.Arr? && !id.Obj?
    requires forall i :: 0 <= i < |notes| ==> !Nullish(notes[i]) && !SameId(Get(notes[i], "id"), Ok(id))
    ensures DeleteNotes([data] + notes, id) == Ok(notes)
  {
    var s := [data] + notes;
    assert s[1..] == notes;
    FilterAll(notes, KeepsId(id));
    assert !KeepsId(id)(s[0]);
    assert Filter(s, KeepsId(id)) == Filter(notes, KeepsId(id));
    assert !Nullish(s[0]);
    assert forall i :: 0 <= i < |s| ==> !Nullish(s[i]) by {
      forall i | 0 <= i < |s| ensures !Nullish(s[i]) {
        if i > 0 { assert s[i] == notes[i - 1]; }
      }
    }
  }

  /** An object or array id matches nothing, because `===` compares it by
      reference: an update with such an id changes no note and a delete with
      such an id removes none, even a note whose id looks the same. */
  lemma ObjectIdsNeverMatch(notes: seq<Val>, data: Val, id: Val)
    requires id.Arr? || id.Obj?
    requires Get(data, "id") == Ok(id)
    ensures UpdateNotes(notes, data).Ok? ==> UpdateNotes(notes, data).value == notes
    ensures DeleteNotes(notes, id).Ok? ==> DeleteNotes(notes, id).value == notes
  {
    FilterAll(notes, KeepsId(id));
  }

  /** The frame `createNote` sends carries no `event`: were it echoed back to
      the feed, the reducer would leave the list as it was. */
  lemma CreateFrameKeepsList(notes: seq<Val>, content: string, timestamp: string)
    ensures HandleMessage(notes, CreateNote(content, timestamp)) == Ok(notes)
  {
    assert Get(CreateNote(content, timestamp), "event") == Ok(Undefined);
  }

  /** An event the reducer does not know leaves the list, whatever it carries. */
  lemma UnknownEventKeepsList(notes: seq<Val>, fields: map<string, Val>)
    requires "event" in fields && fields["event"] !in {Str("note_created"), Str("note_updated"), Str("note_deleted")}
    ensures HandleMessage(notes, Obj(fields)) == Ok(notes)
  {
  }
}
