/**
 * The browser application's state: the saved notes (upsert on auto-save,
 * delete by id, rename), the title derived from an uploaded file's name,
 * the processing steps and the progress bar, and the sidebar order.
 * Notes are values here: the page keeps them as objects that may be shared
 * between `state.currentNote` and `state.notes`.
 */
module ClientApp {
  import opened Wrappers
  import opened Strings
  import opened Json
  import opened NodePath

  /** A saved note; `None` stands for `null` or a missing property, `""` for an empty string. */
  datatype Note = Note(
    id: Option<string>,
    title: string,
    content: string,
    transcription: string,
    date: Option<string>,
    lastUpdated: Option<string>)

  /** The note the page starts with. */
  const InitialNote: Note := Note(None, "Generated Notes", "", "", None, None)

  // ------------------------------------------------------------ auto-save

  /** `notes.findIndex(note => note.id === id)`, with `None` for `-1`. */
  function FindIndex(notes: seq<Note>, id: Option<string>): (r: Option<nat>)
    ensures r.None? ==> forall i :: 0 <= i < |notes| ==> notes[i].id != id
    ensures r.Some? ==> r.value < |notes| && notes[r.value].id == id
    ensures r.Some? ==> forall i :: 0 <= i < r.value ==> notes[i].id != id
  {
    if |notes| == 0 then None
    else if notes[0].id == id then Some(0)
    else
      match FindIndex(notes[1..], id)
      case None => None
      case Some(k) => Some(k + 1)
  }

  /** `{ ...n, content, transcription, lastUpdated }`. */
  function Refreshed(n: Note, from: Note, stamp: string): Note
  {
    n.(content := from.content, transcription := from.transcription, lastUpdated := Some(stamp))
  }

  /** Auto-save runs only when the current note has both content and a title. */
  predicate Saveable(current: Note) {
    current.content != "" && current.title != ""
  }

  /** The current note after an auto-save: a note without an id gets the clock's id and date. */
  function SavedCurrent(current: Note, newId: string, stamp: string): Note
  {
    if Saveable(current) && !Truthy(current.id) then current.(id := Some(newId), date := Some(stamp))
    else current
  }

  /** The saved notes after an auto-save: append a new note, or refresh the first note with the current id. */
  function SavedNotes(notes: seq<Note>, current: Note, newId: string, stamp: string): seq<Note>
  {
    if !Saveable(current) then notes
    else if !Truthy(current.id) then notes + [SavedCurrent(current, newId, stamp)]
    else
      match FindIndex(notes, current.id)
      case None => notes
      case Some(k) => notes[k := Refreshed(notes[k], current, stamp)]
  }

  /** An empty content or title leaves everything as it was. */
  lemma AutoSaveNeedsContentAndTitle(notes: seq<Note>, current: Note, newId: string, stamp: string)
    requires current.content == "" || current.title == ""
    ensures SavedNotes(notes, current, newId, stamp) == notes
    ensures SavedCurrent(current, newId, stamp) == current
  {
  }

  /** A note without an id is appended, with the new id and date, after the untouched earlier notes. */
  lemma AutoSaveAppends(notes: seq<Note>, current: Note, newId: string, stamp: string)
    requires Saveable(current) && !Truthy(current.id)
    ensures var r := SavedNotes(notes, current, newId, stamp);
            |r| == |notes| + 1 && r[..|notes|] == notes
            && r[|notes|] == current.(id := Some(newId), date := Some(stamp))
  {
    assert (notes + [SavedCurrent(current, newId, stamp)])[..|notes|] == notes;
  }

  /**
   * A note with an id changes only the first saved note with that id, and
   * only in its content, transcription and time of update; without a match
   * nothing changes.
   */
  lemma AutoSaveUpdatesInPlace(notes: seq<Note>, current: Note, newId: string, stamp: string)
    requires Saveable(current) && Truthy(current.id)
    ensures var r := SavedNotes(notes, current, newId, stamp);
            |r| == |notes|
            && SavedCurrent(current, newId, stamp) == current
            && (forall i :: 0 <= i < |notes| && notes[i].id != current.id ==> r[i] == notes[i])
            && (forall i :: 0 <= i < |notes| && r[i] != notes[i] ==>
                  r[i].id == notes[i].id && r[i].title == notes[i].title && r[i].date == notes[i].date
                  && r[i].content == current.content && r[i].transcription == current.transcription
                  && r[i].lastUpdated == Some(stamp))
            && ((forall i :: 0 <= i < |notes| ==> notes[i].id != current.id) ==> r == notes)
  {
  }

  /**
   * Two auto-saves in a row: the first appends the note under a fresh id,
   * the second refreshes that same appended note and adds nothing.
   */
  lemma SecondSaveUpdatesFirst(notes: seq<Note>, current: Note, id1: string, stamp1: string,
                               edited: string, id2: string, stamp2: string)
    requires Saveable(current) && !Truthy(current.id) && id1 != "" && edited != ""
    requires forall i :: 0 <= i < |notes| ==> notes[i].id != Some(id1)
    ensures var notes1 := SavedNotes(notes, current, id1, stamp1);
            var current1 := SavedCurrent(current, id1, stamp1).(content := edited);
            var notes2 := SavedNotes(notes1, current1, id2, stamp2);
            |notes2| == |notes| + 1 && notes2[..|notes|] == notes
            && notes2[|notes|].id == Some(id1) && notes2[|notes|].content == edited
            && notes2[|notes|].lastUpdated == Some(stamp2)
  {
    var notes1 := SavedNotes(notes, current, id1, stamp1);
    var current1 := SavedCurrent(current, id1, stamp1).(content := edited);
    AutoSaveAppends(notes, current, id1, stamp1);
    assert FindIndex(notes1, Some(id1)) == Some(|notes|) by {
      assert notes1[|notes|].id == Some(id1);
      assert forall i :: 0 <= i < |notes| ==> notes1[i].id != Some(id1) by {
        assert forall i :: 0 <= i < |notes| ==> notes1[i] == notes[i];
      }
    }
    var notes2 := SavedNotes(notes1, current1, id2, stamp2);
    assert notes2 == notes1[|notes| := Refreshed(notes1[|notes|], current1, stamp2)];
    assert notes2[..|notes|] == notes1[..|notes|];
  }

  // ------------------------------------------------------------- delete

  /** `notes.filter(note => note.id !== id)`. */
  function Without(notes: seq<Note>, id: Option<string>): (r: seq<Note>)
    ensures |r| <= |notes|
    ensures forall i :: 0 <= i < |r| ==> r[i].id != id
    ensures forall n :: n in r ==> n in notes
  {
    if |notes| == 0 then []
    else if notes[0].id == id then Without(notes[1..], id)
    else [notes[0]] + Without(notes[1..], id)
  }

  /** Deleting keeps every other note, as many times as it was there, and deletes with that id only. */
  lemma {:induction false} WithoutKeepsOthers(notes: seq<Note>, id: Option<string>)
    ensures forall n: Note :: n.id != id ==> multiset(Without(notes, id))[n] == multiset(notes)[n]
    ensures forall n: Note :: n.id == id ==> multiset(Without(notes, id))[n] == 0
    decreases |notes|
  {
    if |notes| > 0 {
      WithoutKeepsOthers(notes[1..], id);
      assert notes == [notes[0]] + notes[1..];
    }
  }

  /** Deleting keeps the order of the remaining notes: they are the notes with other ids, in sequence. */
  lemma {:induction false} WithoutKeepsOrder(notes: seq<Note>, id: Option<string>, i: nat, j: nat)
    requires i < j < |notes| && notes[i].id != id && notes[j].id != id
    ensures exists a, b :: 0 <= a < b < |Without(notes, id)| && Without(notes, id)[a] == notes[i] && Without(notes, id)[b] == notes[j]
    decreases |notes|
  {
    var rest := Without(notes[1..], id);
    var w := Without(notes, id);
    if i == 0 {
      assert notes[j] == notes[1..][j - 1];
      WithoutHas(notes[1..], id, j - 1);
      var b :| 0 <= b < |rest| && rest[b] == notes[j];
      assert w == [notes[0]] + rest;
      assert w[0] == notes[i] && w[b + 1] == notes[j];
    } else {
      WithoutKeepsOrder(notes[1..], id, i - 1, j - 1);
      var a, b :| 0 <= a < b < |rest| && rest[a] == notes[1..][i - 1] && rest[b] == notes[1..][j - 1];
      assert notes[1..][i - 1] == notes[i] && notes[1..][j - 1] == notes[j];
      if notes[0].id == id {
        assert w == rest;
        assert w[a] == notes[i] && w[b] == notes[j];
      } else {
        assert w == [notes[0]] + rest;
        assert w[a + 1] == notes[i] && w[b + 1] == notes[j];
      }
    }
  }

  /** A note whose id differs from the deleted one survives the deletion. */
  lemma {:induction false} WithoutHas(notes: seq<Note>, id: Option<string>, k: nat)
    requires k < |notes| && notes[k].id != id
    ensures notes[k] in Without(notes, id)
    decreases |notes|
  {
    if k > 0 {
      WithoutHas(notes[1..], id, k - 1);
      assert notes[1..][k - 1] == notes[k];
    } else {
      assert Without(notes, id) == [notes[0]] + Without(notes[1..], id);
    }
  }

  /** Deleting twice is deleting once. */
  lemma {:induction false} WithoutIdempotent(notes: seq<Note>, id: Option<string>)
    ensures Without(Without(notes, id), id) == Without(notes, id)
    decreases |notes|
  {
    if |notes| > 0 {
      WithoutIdempotent(notes[1..], id);
      if notes[0].id != id {
        var r := Without(notes[1..], id);
        assert ([notes[0]] + r)[1..] == r;
      }
    }
  }

  // ------------------------------------------------------------- rename

  /** The title a rename stores: the trimmed input, when it is non-empty and differs from the current title. */
  function Renamed(title: string, input: string): (r: string)
    ensures r == title || (r == TrimJs(input) && r != "")
    ensures r != title <==> TrimJs(input) != "" && TrimJs(input) != title
  {
    var t := TrimJs(input);
    if t != "" && t != title then t else title
  }

  /** A rename never stores a blank title unless the title already was one, and renaming to the same text again changes nothing. */
  lemma RenameProperties(title: string, input: string)
    ensures Renamed(title, input) == title || Renamed(title, input) == TrimJs(input)
    ensures Renamed(title, input) == "" ==> title == ""
    ensures Renamed(Renamed(title, input), input) == Renamed(title, input)
  {
  }

  // ---------------------------------------------------- title from file name

  /** The name ends in a dot followed by at least one character that is neither a dot nor a slash. */
  predicate HasExtension(s: string) {
    exists k :: 0 <= k < |s| - 1 && s[k] == '.' && '.' !in s[k + 1..] && '/' !in s[k + 1..]
  }

  /** `filename.replace(/\.[^/.]+$/, "")`: drop a last dot and what follows it, when that is non-empty and has no slash. */
  function StripExtension(s: string): (r: string)
    ensures |r| <= |s| && r == s[..|r|]
    ensures r != s ==> s[|r|] == '.' && |s| - |r| >= 2 && '.' !in s[|r| + 1..] && '/' !in s[|r| + 1..]
  {
    match LastIndexOf(s, '.')
    case None => s
    case Some(k) => if k < |s| - 1 && '/' !in s[k + 1..] then s[..k] else s
  }

  /** After a dot with no dot behind it there is no dot. */
  lemma NoDotAfter(s: string, j: nat)
    requires j < |s| && '.' !in s[j + 1..]
    ensures forall i :: j < i < |s| ==> s[i] != '.'
  {
    forall i | j < i < |s|
      ensures s[i] != '.'
    {
      assert s[i] == s[j + 1..][i - j - 1];
    }
  }

  /** Only the last dot can start the matched extension. */
  lemma LastDot(s: string, k: nat, j: nat)
    requires k < |s| && s[k] == '.' && '.' !in s[k + 1..]
    requires j < |s| && s[j] == '.' && '.' !in s[j + 1..]
    ensures j == k
  {
    NoDotAfter(s, j);
    NoDotAfter(s, k);
  }

  /** The extension is removed exactly when the name has one. */
  lemma StripExtensionIff(s: string)
    ensures StripExtension(s) != s <==> HasExtension(s)
  {
    match LastIndexOf(s, '.')
    case None =>
      assert forall j :: 0 <= j < |s| ==> s[j] != '.';
    case Some(k) =>
      if HasExtension(s) {
        var j :| 0 <= j < |s| - 1 && s[j] == '.' && '.' !in s[j + 1..] && '/' !in s[j + 1..];
        LastDot(s, k, j);
      }
      if StripExtension(s) != s {
        assert 0 <= k < |s| - 1 && s[k] == '.' && '.' !in s[k + 1..] && '/' !in s[k + 1..];
      }
  }

  /** `title.replace(/[_-]/g, " ")`. */
  function Spaced(s: string): (r: string)
    ensures |r| == |s|
    ensures forall i :: 0 <= i < |s| ==> r[i] == (if s[i] == '_' || s[i] == '-' then ' ' else s[i])
    ensures '_' !in r && '-' !in r
  {
    seq(|s|, i requires 0 <= i < |s| => if s[i] == '_' || s[i] == '-' then ' ' else s[i])
  }

  /** A character matched by the regular expression `\w` (no Unicode flag). */
  predicate IsWordChar(c: char) {
    IsUpper(c) || IsLower(c) || IsDigit(c) || c == '_'
  }

  /** A word starts at `i`: a word character at the start or after a non-word character (`\b\w`). */
  predicate WordStart(s: string, i: nat)
    requires i < |s|
  {
    IsWordChar(s[i]) && (i == 0 || !IsWordChar(s[i - 1]))
  }

  /** `title.replace(/\b\w/g, l => l.toUpperCase())`. */
  function Capitalized(s: string): (r: string)
    ensures |r| == |s|
    ensures forall i :: 0 <= i < |s| ==> r[i] == (if WordStart(s, i) then UpperChar(s[i]) else s[i])
  {
    seq(|s|, i requires 0 <= i < |s| => if WordStart(s, i) then UpperChar(s[i]) else s[i])
  }

  /** `getNoteTitleFromFilename`. */
  function TitleFromFilename(filename: string): string
  {
    Capitalized(Spaced(StripExtension(filename)))
  }

  /** Uppercasing keeps a character a word character or a non-word character. */
  lemma UpperKeepsWordChar(c: char)
    ensures IsWordChar(UpperChar(c)) == IsWordChar(c)
    ensures UpperChar(UpperChar(c)) == UpperChar(c)
  {
  }

  /** Capitalizing a capitalized title changes nothing. */
  lemma CapitalizedIdempotent(s: string)
    ensures Capitalized(Capitalized(s)) == Capitalized(s)
  {
    var c := Capitalized(s);
    forall i | 0 <= i < |s|
      ensures IsWordChar(c[i]) == IsWordChar(s[i])
    {
      UpperKeepsWordChar(s[i]);
    }
    forall i | 0 <= i < |s|
      ensures Capitalized(c)[i] == c[i]
    {
      UpperKeepsWordChar(s[i]);
      assert WordStart(c, i) == WordStart(s, i);
    }
  }

  /**
   * The derived title keeps the name up to its extension, with underscores
   * and hyphens turned into spaces and no word starting with a lower-case letter.
   */
  lemma TitleShape(filename: string)
    ensures var t := TitleFromFilename(filename);
            var stem := StripExtension(filename);
            |t| == |stem| && '_' !in t && '-' !in t
            && (forall i :: 0 <= i < |t| && WordStart(t, i) ==> !IsLower(t[i]))
            && (forall i :: 0 <= i < |t| && IsUpper(stem[i]) ==> t[i] == stem[i])
  {
    var sp := Spaced(StripExtension(filename));
    var t := Capitalized(sp);
    forall i | 0 <= i < |t|
      ensures IsWordChar(t[i]) == IsWordChar(sp[i])
    {
      UpperKeepsWordChar(sp[i]);
    }
    forall i | 0 <= i < |t| && WordStart(t, i)
      ensures !IsLower(t[i])
    {
      assert WordStart(sp, i);
    }
    assert '_' !in t && '-' !in t by {
      forall i | 0 <= i < |t|
        ensures t[i] != '_' && t[i] != '-'
      {
        assert sp[i] != '_' && sp[i] != '-';
      }
    }
  }

  /**
   * For a plain file name whose last dot is neither its first nor its last
   * character, the client's title stem is the server's `path.basename(p, path.extname(p))`.
   */
  lemma StripExtensionIsStem(s: string, k: nat)
    requires '/' !in s
    requires 0 < k < |s| - 1 && s[k] == '.' && '.' !in s[k + 1..]
    ensures StripExtension(s) == s[..k] == Stem(s)
  {
    LastIndexOfAt(s, '.', k);
    assert TrimRight(s, IsSlash) == s by {
      assert !IsSlash(s[|s| - 1]);
    }
    LastComponentNoSlash(s);
    assert Basename(s) == s;
    assert s != ".." by {
      assert s[|s| - 1] != '.';
    }
    assert Ext(s) == s[k..];
  }

  /**
   * A hidden file's name (a leading dot, no other dot, no slash) is a title
   * stem of its own on the server and an empty one in the client.
   */
  lemma HiddenFileStems(s: string)
    requires |s| > 1 && s[0] == '.' && '.' !in s[1..] && '/' !in s
    ensures Stem(s) == s
    ensures StripExtension(s) == ""
  {
    LastIndexOfAt(s, '.', 0);
    assert TrimRight(s, IsSlash) == s by {
      assert !IsSlash(s[|s| - 1]);
    }
    LastComponentNoSlash(s);
  }

  // --------------------------------------------------------- sidebar order

  /** Newest first: `date` as read by `new Date(...)`, given by `at`. */
  predicate NewestFirst(s: seq<Note>, at: Option<string> -> int) {
    forall i, j :: 0 <= i < j < |s| ==> at(s[i].date) >= at(s[j].date)
  }

  /** Place `n` before the first note that is not newer. */
  function InsertByDate(n: Note, s: seq<Note>, at: Option<string> -> int): (r: seq<Note>)
    ensures |r| == |s| + 1
  {
    if |s| == 0 then [n]
    else if at(s[0].date) <= at(n.date) then [n] + s
    else [s[0]] + InsertByDate(n, s[1..], at)
  }

  /** Inserting adds exactly the one note. */
  lemma {:induction false} InsertAdds(n: Note, s: seq<Note>, at: Option<string> -> int)
    ensures multiset(InsertByDate(n, s, at)) == multiset(s) + multiset{n}
    decreases |s|
  {
    if |s| > 0 && at(s[0].date) > at(n.date) {
      InsertAdds(n, s[1..], at);
      assert s == [s[0]] + s[1..];
    }
  }

  /** A note no older than the head of a newest-first list can go in front of it. */
  lemma ConsNewestFirst(x: Note, s: seq<Note>, at: Option<string> -> int)
    requires NewestFirst(s, at)
    requires |s| > 0 ==> at(x.date) >= at(s[0].date)
    ensures NewestFirst([x] + s, at)
  {
    var r := [x] + s;
    forall i, j | 0 <= i < j < |r|
      ensures at(r[i].date) >= at(r[j].date)
    {
      if i == 0 {
        assert r[j] == s[j - 1];
        assert at(s[0].date) >= at(s[j - 1].date) || j == 1;
      } else {
        assert r[i] == s[i - 1] && r[j] == s[j - 1];
      }
    }
  }

  /** Inserting into a newest-first list keeps it newest first. */
  lemma {:induction false} InsertKeepsOrder(n: Note, s: seq<Note>, at: Option<string> -> int)
    requires NewestFirst(s, at)
    ensures NewestFirst(InsertByDate(n, s, at), at)
    ensures |s| > 0 ==> InsertByDate(n, s, at)[0] == (if at(s[0].date) <= at(n.date) then n else s[0])
    decreases |s|
  {
    if |s| == 0 {
    } else if at(s[0].date) <= at(n.date) {
      ConsNewestFirst(n, s, at);
    } else {
      assert NewestFirst(s[1..], at) by {
        assert forall i, j :: 0 <= i < j < |s| - 1 ==> s[1..][i] == s[i + 1] && s[1..][j] == s[j + 1];
      }
      InsertKeepsOrder(n, s[1..], at);
      var rest := InsertByDate(n, s[1..], at);
      assert |s| > 1 ==> at(s[0].date) >= at(s[1].date);
      ConsNewestFirst(s[0], rest, at);
    }
  }

  /** The sidebar's order: the saved notes sorted by date, newest first. */
  function SortedByDate(s: seq<Note>, at: Option<string> -> int): (r: seq<Note>)
    ensures |r| == |s|
  {
    if |s| == 0 then [] else InsertByDate(s[0], SortedByDate(s[1..], at), at)
  }

  /** The sidebar lists every saved note, as often as it is saved, newest first. */
  lemma {:induction false} SortedByDateSorts(s: seq<Note>, at: Option<string> -> int)
    ensures multiset(SortedByDate(s, at)) == multiset(s)
    ensures NewestFirst(SortedByDate(s, at), at)
  {
    SortedByDateKeepsNotes(s, at);
    SortedByDateOrders(s, at);
  }

  lemma {:induction false} SortedByDateKeepsNotes(s: seq<Note>, at: Option<string> -> int)
    ensures multiset(SortedByDate(s, at)) == multiset(s)
    decreases |s|
  {
    if |s| > 0 {
      var tail := SortedByDate(s[1..], at);
      SortedByDateKeepsNotes(s[1..], at);
      InsertAdds(s[0], tail, at);
      assert SortedByDate(s, at) == InsertByDate(s[0], tail, at);
      assert s == [s[0]] + s[1..];
      assert multiset(s) == multiset{s[0]} + multiset(s[1..]);
    }
  }

  lemma {:induction false} SortedByDateOrders(s: seq<Note>, at: Option<string> -> int)
    ensures NewestFirst(SortedByDate(s, at), at)
    decreases |s|
  {
    if |s| > 0 {
      SortedByDateOrders(s[1..], at);
      InsertKeepsOrder(s[0], SortedByDate(s[1..], at), at);
    }
  }

  // ---------------------------------------------------------- saved notes

  class NotesState {
    var notes: seq<Note>
    var currentNote: Note

    constructor()
      ensures notes == [] && currentNote == InitialNote
    {
      notes := [];
      currentNote := InitialNote;
    }

    /** `autoSaveCurrentNote`; `nowMillis` is `Date.now()` and `stamp` the ISO text of the same moment. */
    method AutoSaveCurrentNote(nowMillis: nat, stamp: string)
      modifies this
      ensures notes == SavedNotes(old(notes), old(currentNote), NatToString(nowMillis), stamp)
      ensures currentNote == SavedCurrent(old(currentNote), NatToString(nowMillis), stamp)
    {
      if currentNote.content == "" || currentNote.title == "" {
        return;
      }
      if !Truthy(currentNote.id) {
        currentNote := currentNote.(id := Some(NatToString(nowMillis)), date := Some(stamp));
        notes := notes + [currentNote];
      } else {
        var noteIndex := FindIndex(notes, currentNote.id);
        if noteIndex.Some? {
          notes := notes[noteIndex.value := Refreshed(notes[noteIndex.value], currentNote, stamp)];
        }
      }
    }

    /** `deleteNote(noteId)`; `confirmed` is the user's answer to the confirmation dialog. */
    method DeleteNote(noteId: Option<string>, confirmed: bool)
      modifies this`notes
      ensures notes == if confirmed then Without(old(notes), noteId) else old(notes)
    {
      if !confirmed {
        return;
      }
      notes := Without(notes, noteId);
    }

    /** `saveNoteTitle` for the `k`-th saved note, the one the sidebar item was built from. */
    method SaveNoteTitle(k: nat, input: string)
      requires k < |notes|
      modifies this
      ensures var t := Renamed(old(notes[k].title), input);
              notes == old(notes)[k := old(notes[k]).(title := t)]
              && currentNote == (if t != old(notes[k].title) && old(currentNote.id) == old(notes[k].id)
                                 then old(currentNote).(title := t) else old(currentNote))
    {
      var newTitle := TrimJs(input);
      if newTitle != "" && newTitle != notes[k].title {
        notes := notes[k := notes[k].(title := newTitle)];
        if currentNote.id == notes[k].id {
          currentNote := currentNote.(title := newTitle);
        }
      }
    }

    /** The order in which `updateNotesList` lists the saved notes. */
    function SidebarOrder(at: Option<string> -> int): (r: seq<Note>)
      reads this
      ensures multiset(r) == multiset(notes) && NewestFirst(r, at)
    {
      SortedByDateSorts(notes, at);
      SortedByDate(notes, at)
    }
  }

  // ------------------------------------------------------ processing steps

  /** What a processing step shows. */
  datatype Mark = Idle | Active | Completed

  const Stages: seq<string> := ["uploading", "transcribing", "generating", "completed"]

  /** The position of a stage among the four steps. */
  function StageIndex(stage: string): (r: Option<nat>)
    ensures r.Some? <==> stage in Stages
    ensures r.Some? ==> r.value < 4 && Stages[r.value] == stage
  {
    if stage == "uploading" then Some(0)
    else if stage == "transcribing" then Some(1)
    else if stage == "generating" then Some(2)
    else if stage == "completed" then Some(3)
    else None
  }

  /** The width the progress bar is set to when a stage starts. */
  function StageProgress(stage: string): Option<nat>
  {
    if stage == "uploading" then Some(0)
    else if stage == "transcribing" then Some(20)
    else if stage == "generating" then Some(60)
    else if stage == "completed" then Some(100)
    else None
  }

  /** The four steps for a stage: earlier ones completed, its own active, later ones idle; all idle for an unknown stage. */
  function StepMarks(stage: string): (r: seq<Mark>)
    ensures |r| == 4
    ensures StageIndex(stage).None? ==> forall i :: 0 <= i < 4 ==> r[i] == Idle
    ensures StageIndex(stage).Some? ==>
      (forall i :: 0 <= i < 4 ==> (r[i] == Completed <==> i < StageIndex(stage).value))
      && (forall i :: 0 <= i < 4 ==> (r[i] == Active <==> i == StageIndex(stage).value))
  {
    match StageIndex(stage)
    case None => [Idle, Idle, Idle, Idle]
    case Some(k) => seq(4, i requires 0 <= i < 4 => if i < k then Completed else if i == k then Active else Idle)
  }

  /** One timer tick: one more percent while below the cap. */
  function Tick(progress: nat, cap: nat): (r: nat)
    ensures progress < cap ==> r == progress + 1
    ensures progress >= cap ==> r == progress
  {
    if progress < cap then progress + 1 else progress
  }

  /** `n` ticks. */
  function Ticks(progress: nat, cap: nat, n: nat): nat
  {
    if n == 0 then progress else Tick(Ticks(progress, cap, n - 1), cap)
  }

  /** Below the cap, ticking climbs one percent at a time and stops at the cap. */
  lemma {:induction false} TicksReachCap(progress: nat, cap: nat, n: nat)
    requires progress <= cap
    ensures Ticks(progress, cap, n) == Min(progress + n, cap)
  {
    if n > 0 {
      TicksReachCap(progress, cap, n - 1);
    }
  }

  /** From the start of a stage the bar never passes 60 while transcribing nor 95 while generating. */
  lemma ProgressCaps(n: nat)
    ensures Ticks(StageProgress("transcribing").value, 60, n) <= 60
    ensures Ticks(StageProgress("generating").value, 95, n) <= 95
  {
    TicksReachCap(20, 60, n);
    TicksReachCap(60, 95, n);
  }

  /** The processing screen: the stage, the progress bar's width in percent and the four steps. */
  class ProcessingView {
    var stage: string
    var progress: nat
    var marks: seq<Mark>

    constructor()
      ensures stage == "idle" && progress == 0 && marks == [Idle, Idle, Idle, Idle]
    {
      stage := "idle";
      progress := 0;
      marks := [Idle, Idle, Idle, Idle];
    }

    /** `updateProcessingState(stage)`. */
    method UpdateProcessingState(s: string)
      modifies this
      ensures stage == s
      ensures progress == StageProgress(s).GetOr(old(progress))
      ensures marks == StepMarks(s)
    {
      stage := s;
      var width := StageProgress(s);
      if width.Some? {
        progress := width.value;
      }
      marks := [Idle, Idle, Idle, Idle];
      var current := StageIndex(s);
      if current.None? {
        return;
      }
      marks := marks[current.value := Active];
      var i := 0;
      while i < current.value
        invariant 0 <= i <= current.value
        invariant stage == s && progress == StageProgress(s).GetOr(old(progress))
        invariant |marks| == 4
        invariant forall j :: 0 <= j < i ==> marks[j] == Completed
        invariant forall j :: i <= j < 4 ==> marks[j] == (if j == current.value then Active else Idle)
      {
        marks := marks[i := Completed];
        i := i + 1;
      }
    }

    /**
     * One firing of a progress timer for `active` (`transcribing` with cap
     * 60, or `generating` with cap 95); it reschedules itself iff the stage
     * is still `active`.
     */
    method ProgressTick(active: string, cap: nat) returns (again: bool)
      modifies this`progress
      ensures again <==> stage == active
      ensures progress == (if again then Tick(old(progress), cap) else old(progress))
    {
      again := stage == active;
      if again && progress < cap {
        progress := progress + 1;
      }
    }
  }
}
