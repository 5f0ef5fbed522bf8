/** The note record the Python notes service returns (pyserver/models/note.py). */
module NoteModel {
  import opened Common

  /** A note: title and content, and the stringified database id once stored. */
  datatype Note = Note(title: string, content: string, id: Option<string>)
}
