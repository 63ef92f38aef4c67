/**
 * The file store: one directory per audio id under the data directory,
 * holding `metadata.json`, `transcription.txt` and `notes.md`. The directory
 * tree is a map from audio id to the files present; the clock and md5 are
 * parameters.
 */
module FileStorageService {
  import opened Wrappers
  import opened Strings
  import opened NodePath

  // ------------------------------------------------------------ the id slug

  predicate IsSlugChar(c: char) { IsLower(c) || IsDigit(c) || c == '-' }

  /** No two dashes in a row. */
  predicate NoDoubleDash(s: string) {
    forall i :: 0 <= i < |s| - 1 ==> !(s[i] == '-' && s[i + 1] == '-')
  }

  /** `.replace(/[^a-z0-9]/g, '-')`. */
  function ReplaceNonAlnum(s: string): (r: string)
    ensures |r| == |s|
    ensures forall i :: 0 <= i < |r| ==> IsSlugChar(r[i])
    ensures forall i :: 0 <= i < |s| ==> (r[i] == s[i] <==> IsLower(s[i]) || IsDigit(s[i]) || s[i] == '-')
    ensures forall i :: 0 <= i < |s| && !(IsLower(s[i]) || IsDigit(s[i])) ==> r[i] == '-'
  {
    seq(|s|, i requires 0 <= i < |s| => if IsLower(s[i]) || IsDigit(s[i]) then s[i] else '-')
  }

  /** `.replace(/-+/g, '-')`: every run of dashes becomes one dash. */
  function CollapseDashes(s: string): (r: string)
    ensures |r| <= |s|
    ensures |s| > 0 ==> |r| > 0 && r[0] == s[0]
    ensures NoDoubleDash(r)
    ensures (forall i :: 0 <= i < |s| ==> IsSlugChar(s[i])) ==> (forall i :: 0 <= i < |r| ==> IsSlugChar(r[i]))
    decreases |s|
  {
    if |s| <= 1 then s
    else if s[0] == '-' && s[1] == '-' then CollapseDashes(s[1..])
    else [s[0]] + CollapseDashes(s[1..])
  }

  /** The characters of `s` other than dashes, in order. */
  function NonDashes(s: string): string
    decreases |s|
  {
    if |s| == 0 then "" else (if s[0] == '-' then "" else [s[0]]) + NonDashes(s[1..])
  }

  /** Collapsing keeps every other character, in order. */
  lemma {:induction false} CollapseKeepsNonDashes(s: string)
    ensures NonDashes(CollapseDashes(s)) == NonDashes(s)
    decreases |s|
  {
    if |s| > 1 {
      CollapseKeepsNonDashes(s[1..]);
      if !(s[0] == '-' && s[1] == '-') {
        var r := [s[0]] + CollapseDashes(s[1..]);
        assert r[1..] == CollapseDashes(s[1..]);
      }
    }
  }

  /** A text without double dashes is left as it is; hence collapsing twice is collapsing once. */
  lemma {:induction false} CollapseFixpoint(s: string)
    requires NoDoubleDash(s)
    ensures CollapseDashes(s) == s
    decreases |s|
  {
    if |s| > 1 {
      assert NoDoubleDash(s[1..]) by {
        forall i | 0 <= i < |s[1..]| - 1 ensures !(s[1..][i] == '-' && s[1..][i + 1] == '-') {
          assert s[1..][i] == s[i + 1] && s[1..][i + 1] == s[i + 2];
        }
      }
      CollapseFixpoint(s[1..]);
      assert s == [s[0]] + s[1..];
    }
  }

  lemma CollapseIdempotent(s: string)
    ensures CollapseDashes(CollapseDashes(s)) == CollapseDashes(s)
  {
    CollapseFixpoint(CollapseDashes(s));
  }


  /** `title.toLowerCase().replace(/[^a-z0-9]/g, '-').replace(/-+/g, '-').substring(0, 30)`. */
  function Slug(title: string): string
  {
    var c := CollapseDashes(ReplaceNonAlnum(Lower(title)));
    c[..Min(30, |c|)]
  }

  /** The slug has at most 30 characters, all from `[a-z0-9-]`, with no two dashes in a row. */
  lemma SlugShape(title: string)
    ensures |Slug(title)| <= 30
    ensures forall i :: 0 <= i < |Slug(title)| ==> IsSlugChar(Slug(title)[i])
    ensures NoDoubleDash(Slug(title))
    ensures title != "" ==> |Slug(title)| > 0
  {
    var c := CollapseDashes(ReplaceNonAlnum(Lower(title)));
    var s := Slug(title);
    assert forall i :: 0 <= i < |s| ==> s[i] == c[i];
  }

  /** The first eight characters of the hex digest (all of it if shorter). */
  function Hash8(digest: string): (h: string)
    ensures |h| == Min(8, |digest|) && StartsWith(digest, h)
  {
    digest[..Min(8, |digest|)]
  }

  /**
   * `generateAudioId(audioFilePath, title)` with the clock reading `now`
   * and the md5 hex digest as parameters.
   */
  function GenerateAudioId(audioPath: string, title: string, now: nat, md5: string -> string): string
  {
    var hash := Hash8(md5(Basename(audioPath) + "-" + NatToString(now)));
    if title == "" then hash else hash + "-" + Slug(title)
  }

  /** The id is the short hash alone for an empty title, and the hash, a dash and the slug otherwise. */
  lemma AudioIdShape(audioPath: string, title: string, now: nat, md5: string -> string)
    ensures var hash := Hash8(md5(Basename(audioPath) + "-" + NatToString(now)));
      var id := GenerateAudioId(audioPath, title, now, md5);
      (title == "" ==> id == hash) &&
      (title != "" ==> StartsWith(id, hash + "-") && id[|hash| + 1..] == Slug(title) && |id| <= |hash| + 31)
  {
    var hash := Hash8(md5(Basename(audioPath) + "-" + NatToString(now)));
    if title != "" {
      SlugShape(title);
      var id := hash + "-" + Slug(title);
      assert id[..|hash| + 1] == hash + "-";
      assert id[|hash| + 1..] == Slug(title);
    }
  }

  /** Titles that lower to the same text give the same id for the same file and time. */
  lemma AudioIdCaseInsensitive(audioPath: string, t1: string, t2: string, now: nat, md5: string -> string)
    requires Lower(t1) == Lower(t2)
    ensures GenerateAudioId(audioPath, t1, now, md5) == GenerateAudioId(audioPath, t2, now, md5)
  {
    assert t1 == "" <==> t2 == "" by {
      assert Lower("") == "";
    }
  }

  // ---------------------------------------------------------- the store

  /** The fields of `metadata.json` as `saveTranscription` writes them and `saveNotes` extends them. */
  datatype Metadata = Metadata(
    originalFilePath: string,
    originalFileName: string,
    title: string,
    dateProcessed: string,
    audioId: string,
    lastNotesGenerated: Option<string>)

  /** The content of a `metadata.json` file: it parses, or `JSON.parse` fails with a message. */
  datatype MetaFile = Valid(meta: Metadata) | Corrupt(parseError: string)

  /** The files of one audio directory; `None` is a file that does not exist. */
  datatype Entry = Entry(metadata: Option<MetaFile>, transcription: Option<string>, notes: Option<string>)

  const EmptyEntry: Entry := Entry(None, None, None)

  function EntryAt(dirs: map<string, Entry>, id: string): Entry
  {
    if id in dirs then dirs[id] else EmptyEntry
  }

  /** The metadata written for a new transcription. */
  function NewMetadata(audioPath: string, title: string, iso: string, id: string): (m: Metadata)
    ensures m.title == if title != "" then title else Stem(audioPath)
    ensures m.originalFileName == Basename(audioPath) && m.originalFilePath == audioPath
    ensures m.audioId == id && m.lastNotesGenerated == None
  {
    Metadata(audioPath, Basename(audioPath), if title != "" then title else Stem(audioPath), iso, id, None)
  }

  /** The directory tree after `saveTranscription`: metadata and transcription written, notes already there kept. */
  function WithTranscription(dirs: map<string, Entry>, id: string, meta: Metadata, text: string): map<string, Entry>
  {
    dirs[id := EntryAt(dirs, id).(metadata := Some(Valid(meta)), transcription := Some(text))]
  }

  /** The directory tree after `saveNotes`: notes overwritten, `lastNotesGenerated` set if the metadata parses. */
  function WithNotes(dirs: map<string, Entry>, id: string, notes: string, iso: string): map<string, Entry>
  {
    var e := EntryAt(dirs, id);
    var meta := match e.metadata
      case Some(Valid(m)) => Some(Valid(m.(lastNotesGenerated := Some(iso))))
      case other => other;
    dirs[id := e.(notes := Some(notes), metadata := meta)]
  }

  function NoFile(path: string): string
  {
    "ENOENT: no such file or directory, open '" + path + "'"
  }

  /** `getAudioDataDir(audioId)`. */
  function AudioDataDir(dataDir: string, id: string): string
  {
    dataDir + "/" + id
  }

  function FilePath(dataDir: string, id: string, name: string): string
  {
    AudioDataDir(dataDir, id) + "/" + name
  }

  /** `getTranscription(audioId)`. */
  function TranscriptionOf(dirs: map<string, Entry>, dataDir: string, id: string): (r: Result<string, string>)
    ensures r.Success? <==> EntryAt(dirs, id).transcription.Some?
  {
    match EntryAt(dirs, id).transcription
    case Some(t) => Success(t)
    case None => Failure(NoFile(FilePath(dataDir, id, "transcription.txt")))
  }

  /** `getNotes(audioId)`. */
  function NotesOf(dirs: map<string, Entry>, dataDir: string, id: string): (r: Result<string, string>)
    ensures r.Success? <==> EntryAt(dirs, id).notes.Some?
  {
    match EntryAt(dirs, id).notes
    case Some(n) => Success(n)
    case None => Failure(NoFile(FilePath(dataDir, id, "notes.md")))
  }

  /** `getMetadata(audioId)`: absent and unparsable files both fail. */
  function MetadataOf(dirs: map<string, Entry>, dataDir: string, id: string): (r: Result<Metadata, string>)
    ensures r.Success? <==> (EntryAt(dirs, id).metadata.Some? && EntryAt(dirs, id).metadata.value.Valid?)
  {
    match EntryAt(dirs, id).metadata
    case Some(Valid(m)) => Success(m)
    case Some(Corrupt(e)) => Failure(e)
    case None => Failure(NoFile(FilePath(dataDir, id, "metadata.json")))
  }

  /** After saving, the transcription reads back as written, the metadata as built, and other ids are untouched. */
  lemma SaveThenGetTranscription(dirs: map<string, Entry>, dataDir: string, id: string, meta: Metadata, text: string,
                                 other: string)
    ensures TranscriptionOf(WithTranscription(dirs, id, meta, text), dataDir, id) == Success(text)
    ensures MetadataOf(WithTranscription(dirs, id, meta, text), dataDir, id) == Success(meta)
    ensures NotesOf(WithTranscription(dirs, id, meta, text), dataDir, id) == NotesOf(dirs, dataDir, id)
    ensures other != id ==> EntryAt(WithTranscription(dirs, id, meta, text), other) == EntryAt(dirs, other)
  {
  }

  /**
   * Saving notes overwrites them (the last write wins), leaves the
   * transcription alone, and changes only `lastNotesGenerated` of metadata
   * that parses; missing or unparsable metadata stays as it was.
   */
  lemma SaveNotesEffect(dirs: map<string, Entry>, dataDir: string, id: string, notes: string, iso: string, other: string)
    ensures NotesOf(WithNotes(dirs, id, notes, iso), dataDir, id) == Success(notes)
    ensures TranscriptionOf(WithNotes(dirs, id, notes, iso), dataDir, id) == TranscriptionOf(dirs, dataDir, id)
    ensures MetadataOf(dirs, dataDir, id).Success? ==>
      MetadataOf(WithNotes(dirs, id, notes, iso), dataDir, id) ==
        Success(MetadataOf(dirs, dataDir, id).value.(lastNotesGenerated := Some(iso)))
    ensures MetadataOf(dirs, dataDir, id).Failure? ==>
      EntryAt(WithNotes(dirs, id, notes, iso), id).metadata == EntryAt(dirs, id).metadata
    ensures other != id ==> EntryAt(WithNotes(dirs, id, notes, iso), other) == EntryAt(dirs, other)
  {
  }

  lemma LastNotesWin(dirs: map<string, Entry>, dataDir: string, id: string, n1: string, t1: string, n2: string, t2: string)
    ensures NotesOf(WithNotes(WithNotes(dirs, id, n1, t1), id, n2, t2), dataDir, id) == Success(n2)
    ensures MetadataOf(dirs, dataDir, id).Success? ==>
      MetadataOf(WithNotes(WithNotes(dirs, id, n1, t1), id, n2, t2), dataDir, id).value.lastNotesGenerated == Some(t2)
  {
  }

  /**
   * How each filesystem call of `saveTranscription` settled: `None` when it
   * resolved, the rejection's message otherwise. A rejected write leaves its
   * file as it was.
   */
  datatype TranscriptionWrites = TranscriptionWrites(
    init: Option<string>,                // `mkdir` of the data directory, in `init()`
    mkdir: Option<string>,               // `mkdir` of the audio directory
    metadataWrite: Option<string>,       // `writeFile` of `metadata.json`
    transcriptionWrite: Option<string>)  // `writeFile` of `transcription.txt`
  {
    /** The first rejection in call order, which the catch block rethrows. */
    function First(): Option<string> {
      if init.Some? then init
      else if mkdir.Some? then mkdir
      else if metadataWrite.Some? then metadataWrite
      else transcriptionWrite
    }
  }

  /** How each filesystem call of `saveNotes` settled. */
  datatype NotesWrites = NotesWrites(
    mkdir: Option<string>,          // `mkdir` of the audio directory
    notesWrite: Option<string>,     // `writeFile` of `notes.md`
    metadataWrite: Option<string>)  // the rewrite of `metadata.json`, inside its own try block

  /** What `saveTranscription` resolves with. */
  datatype SavedAt = SavedAt(audioId: string, directory: string)

  /** The directory tree after `saveTranscription`: the writes up to the first rejection took effect. */
  function SavedTranscriptionDirs(dirs: map<string, Entry>, id: string, meta: Metadata, text: string,
                                  w: TranscriptionWrites): map<string, Entry>
  {
    if w.init.Some? || w.mkdir.Some? then dirs
    else if w.metadataWrite.Some? then dirs[id := EntryAt(dirs, id)]
    else if w.transcriptionWrite.Some? then dirs[id := EntryAt(dirs, id).(metadata := Some(Valid(meta)))]
    else WithTranscription(dirs, id, meta, text)
  }

  /** The directory tree after `saveNotes`: a failed metadata rewrite is swallowed and leaves the metadata as it was. */
  function SavedNotesDirs(dirs: map<string, Entry>, id: string, notes: string, iso: string, w: NotesWrites): map<string, Entry>
  {
    if w.mkdir.Some? then dirs
    else if w.notesWrite.Some? then dirs[id := EntryAt(dirs, id)]
    else if w.metadataWrite.Some? then dirs[id := EntryAt(dirs, id).(notes := Some(notes))]
    else WithNotes(dirs, id, notes, iso)
  }

  /**
   * A save whose calls all resolve is `WithTranscription`. A rejected `init` or
   * `mkdir`, or a rejected metadata write, leaves every file as it was; a rejected
   * transcription write leaves the new metadata without the new transcription.
   * Other directories are never touched.
   */
  lemma SaveTranscriptionFaults(dirs: map<string, Entry>, dataDir: string, id: string, meta: Metadata, text: string,
                                w: TranscriptionWrites, other: string)
    ensures w.First().None? ==> SavedTranscriptionDirs(dirs, id, meta, text, w) == WithTranscription(dirs, id, meta, text)
    ensures (w.init.Some? || w.mkdir.Some? || w.metadataWrite.Some?) ==>
      EntryAt(SavedTranscriptionDirs(dirs, id, meta, text, w), other) == EntryAt(dirs, other)
    ensures w.init.None? && w.mkdir.None? && w.metadataWrite.None? && w.transcriptionWrite.Some? ==>
      MetadataOf(SavedTranscriptionDirs(dirs, id, meta, text, w), dataDir, id) == Success(meta) &&
      TranscriptionOf(SavedTranscriptionDirs(dirs, id, meta, text, w), dataDir, id) == TranscriptionOf(dirs, dataDir, id)
    ensures other != id ==> EntryAt(SavedTranscriptionDirs(dirs, id, meta, text, w), other) == EntryAt(dirs, other)
  {
  }

  /**
   * Notes are saved unless `mkdir` or the notes write rejects, in which case no
   * file changes. A rejected metadata rewrite keeps the notes and the old
   * metadata, without `lastNotesGenerated`. Other directories are never touched.
   */
  lemma SaveNotesFaults(dirs: map<string, Entry>, dataDir: string, id: string, notes: string, iso: string,
                        w: NotesWrites, other: string)
    ensures w.mkdir.None? && w.notesWrite.None? && w.metadataWrite.None? ==>
      SavedNotesDirs(dirs, id, notes, iso, w) == WithNotes(dirs, id, notes, iso)
    ensures (w.mkdir.Some? || w.notesWrite.Some?) ==> EntryAt(SavedNotesDirs(dirs, id, notes, iso, w), other) == EntryAt(dirs, other)
    ensures w.mkdir.None? && w.notesWrite.None? ==>
      NotesOf(SavedNotesDirs(dirs, id, notes, iso, w), dataDir, id) == Success(notes) &&
      TranscriptionOf(SavedNotesDirs(dirs, id, notes, iso, w), dataDir, id) == TranscriptionOf(dirs, dataDir, id)
    ensures w.mkdir.None? && w.notesWrite.None? && w.metadataWrite.Some? ==>
      EntryAt(SavedNotesDirs(dirs, id, notes, iso, w), id).metadata == EntryAt(dirs, id).metadata
    ensures other != id ==> EntryAt(SavedNotesDirs(dirs, id, notes, iso, w), other) == EntryAt(dirs, other)
  {
  }

  /** The metadata of the listed directories whose metadata parses, in listing order. */
  function Listed(dirs: map<string, Entry>, names: seq<string>): seq<Metadata>
    decreases |names|
  {
    if |names| == 0 then []
    else
      var here := if names[0] in dirs && dirs[names[0]].metadata.Some? && dirs[names[0]].metadata.value.Valid?
                  then [dirs[names[0]].metadata.value.meta] else [];
      here + Listed(dirs, names[1..])
  }

  predicate ValidMetaAt(dirs: map<string, Entry>, name: string, m: Metadata) {
    name in dirs && dirs[name].metadata == Some(Valid(m))
  }

  /** A metadata record is listed exactly when some listed directory holds it and it parses. */
  lemma {:induction false} ListedMembership(dirs: map<string, Entry>, names: seq<string>, m: Metadata)
    ensures m in Listed(dirs, names) <==> exists k :: 0 <= k < |names| && ValidMetaAt(dirs, names[k], m)
    ensures |Listed(dirs, names)| <= |names|
    decreases |names|
  {
    if |names| > 0 {
      ListedMembership(dirs, names[1..], m);
      if exists k :: 0 <= k < |names| && ValidMetaAt(dirs, names[k], m) {
        var k :| 0 <= k < |names| && ValidMetaAt(dirs, names[k], m);
        if k > 0 {
          assert names[1..][k - 1] == names[k];
        }
      }
      if exists k :: 0 <= k < |names[1..]| && ValidMetaAt(dirs, names[1..][k], m) {
        var k :| 0 <= k < |names[1..]| && ValidMetaAt(dirs, names[1..][k], m);
        assert names[k + 1] == names[1..][k];
      }
    }
  }

  lemma {:induction false} ListedAppend(dirs: map<string, Entry>, names: seq<string>, name: string)
    ensures Listed(dirs, names + [name]) == Listed(dirs, names) + Listed(dirs, [name])
    decreases |names|
  {
    if |names| > 0 {
      assert (names + [name])[1..] == names[1..] + [name];
      ListedAppend(dirs, names[1..], name);
    } else {
      assert names + [name] == [name];
    }
  }

  /** The store, rooted at `dataDir`. `listable` is whether creating and reading the data directory succeed. */
  class FileStorage {
    const dataDir: string
    var dirs: map<string, Entry>
    var listable: bool

    constructor(dataDir: string, dirs: map<string, Entry>, listable: bool)
      ensures this.dataDir == dataDir && this.dirs == dirs && this.listable == listable
    {
      this.dataDir := dataDir;
      this.dirs := dirs;
      this.listable := listable;
    }

    /**
     * `saveTranscription(audioFilePath, transcription, title)`, with the clock
     * readings, md5 and the settling of each filesystem call as parameters.
     */
    method SaveTranscription(audioPath: string, transcription: string, title: string, now: nat, iso: string,
                             md5: string -> string, w: TranscriptionWrites)
      returns (r: Result<SavedAt, string>)
      modifies this`dirs
      ensures r.Failure? <==> w.First().Some?
      ensures r.Failure? ==> r.error == w.First().value
      ensures r.Success? ==> r.value.audioId == GenerateAudioId(audioPath, title, now, md5)
      ensures r.Success? ==> r.value.directory == AudioDataDir(dataDir, r.value.audioId)
      ensures var id := GenerateAudioId(audioPath, title, now, md5);
        dirs == SavedTranscriptionDirs(old(dirs), id, NewMetadata(audioPath, title, iso, id), transcription, w)
    {
      var audioId := GenerateAudioId(audioPath, title, now, md5);
      r := WriteAudioDir(audioId, NewMetadata(audioPath, title, iso, audioId), transcription, w);
    }

    /** The filesystem calls of `saveTranscription` once the id is known, each rejection rethrown. */
    method WriteAudioDir(audioId: string, metadata: Metadata, transcription: string, w: TranscriptionWrites)
      returns (r: Result<SavedAt, string>)
      modifies this`dirs
      ensures r.Failure? <==> w.First().Some?
      ensures r.Failure? ==> r.error == w.First().value
      ensures r.Success? ==> r.value == SavedAt(audioId, AudioDataDir(dataDir, audioId))
      ensures dirs == SavedTranscriptionDirs(old(dirs), audioId, metadata, transcription, w)
    {
      var before, entry := dirs, EntryAt(dirs, audioId);
      if w.init.Some? {
        r := Failure(w.init.value);
      } else if w.mkdir.Some? {
        r := Failure(w.mkdir.value);
      } else {
        dirs := before[audioId := entry];
        if w.metadataWrite.Some? {
          r := Failure(w.metadataWrite.value);
        } else {
          entry := entry.(metadata := Some(Valid(metadata)));
          dirs := before[audioId := entry];
          if w.transcriptionWrite.Some? {
            r := Failure(w.transcriptionWrite.value);
          } else {
            entry := entry.(transcription := Some(transcription));
            dirs := before[audioId := entry];
            r := Success(SavedAt(audioId, AudioDataDir(dataDir, audioId)));
          }
        }
      }
    }

    /**
     * `saveNotes(audioId, notes)`: write the notes, then update the metadata if
     * it can be read, parsed and written back; only the first two steps'
     * rejections are rethrown.
     */
    method SaveNotes(audioId: string, notes: string, iso: string, w: NotesWrites) returns (r: Result<string, string>)
      modifies this`dirs
      ensures r == (if w.mkdir.Some? then Failure(w.mkdir.value)
                    else if w.notesWrite.Some? then Failure(w.notesWrite.value)
                    else Success(FilePath(dataDir, audioId, "notes.md")))
      ensures dirs == SavedNotesDirs(old(dirs), audioId, notes, iso, w)
    {
      if w.mkdir.Some? {
        return Failure(w.mkdir.value);
      }
      dirs := dirs[audioId := EntryAt(dirs, audioId)];
      var notesPath := FilePath(dataDir, audioId, "notes.md");
      if w.notesWrite.Some? {
        return Failure(w.notesWrite.value);
      }
      dirs := dirs[audioId := dirs[audioId].(notes := Some(notes))];
      match dirs[audioId].metadata {
        case Some(Valid(m)) =>
          if w.metadataWrite.None? {
            dirs := dirs[audioId := dirs[audioId].(metadata := Some(Valid(m.(lastNotesGenerated := Some(iso)))))];
          }
        case _ =>
      }
      r := Success(notesPath);
    }

    method GetTranscription(audioId: string) returns (r: Result<string, string>)
      ensures r.Success? <==> EntryAt(dirs, audioId).transcription.Some?
      ensures r.Success? ==> r.value == EntryAt(dirs, audioId).transcription.value
      ensures r.Failure? ==> r.error == NoFile(FilePath(dataDir, audioId, "transcription.txt"))
    {
      r := TranscriptionOf(dirs, dataDir, audioId);
    }

    method GetNotes(audioId: string) returns (r: Result<string, string>)
      ensures r.Success? <==> EntryAt(dirs, audioId).notes.Some?
      ensures r.Success? ==> r.value == EntryAt(dirs, audioId).notes.value
      ensures r.Failure? ==> r.error == NoFile(FilePath(dataDir, audioId, "notes.md"))
    {
      r := NotesOf(dirs, dataDir, audioId);
    }

    method GetMetadata(audioId: string) returns (r: Result<Metadata, string>)
      ensures r.Success? <==> (EntryAt(dirs, audioId).metadata.Some? && EntryAt(dirs, audioId).metadata.value.Valid?)
      ensures r.Success? ==> EntryAt(dirs, audioId).metadata == Some(Valid(r.value))
    {
      r := MetadataOf(dirs, dataDir, audioId);
    }

    /**
     * `listProcessedAudios()`, given the names the directory read returns:
     * each directory whose metadata reads and parses contributes its
     * metadata, the rest are skipped; nothing is listed when the data
     * directory itself cannot be read.
     */
    method ListProcessedAudios(names: seq<string>) returns (list: seq<Metadata>)
      requires forall id :: id in dirs ==> multiset(names)[id] == 1
      ensures listable ==> list == Listed(dirs, names)
      ensures listable ==> forall m :: m in list <==> exists id :: ValidMetaAt(dirs, id, m)
      ensures !listable ==> list == []
    {
      if !listable {
        return [];
      }
      list := [];
      var i := 0;
      while i < |names|
        invariant 0 <= i <= |names|
        invariant list == Listed(dirs, names[..i])
      {
        var name := names[i];
        assert names[..i + 1] == names[..i] + [name];
        ListedAppend(dirs, names[..i], name);
        if name in dirs && dirs[name].metadata.Some? && dirs[name].metadata.value.Valid? {
          list := list + [dirs[name].metadata.value.meta];
        }
        i := i + 1;
      }
      assert names[..i] == names;
      forall m
        ensures m in list <==> exists id :: ValidMetaAt(dirs, id, m)
      {
        ListedMembership(dirs, names, m);
        if exists id :: ValidMetaAt(dirs, id, m) {
          var id :| ValidMetaAt(dirs, id, m);
          assert id in multiset(names);
          var k :| 0 <= k < |names| && names[k] == id;
        }
      }
    }
  }
}
