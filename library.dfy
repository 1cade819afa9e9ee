/**
 * The set library: the scan of the sets root that run_engine performs before
 * anything else (main.py, lines 58-96).  The file system is replaced by a
 * listing given as input: each folder carries its entries, and each entry
 * says whether the audio decoder would accept the file.
 */
module SetLibrary {
  import opened Wrappers

  /** One entry of a candidate folder: its file name and whether the decoder
      loads it without raising. */
  datatype Entry = Entry(name: string, loads: bool)

  /** One entry of the sets root: its name, whether it is a directory, and
      the entries it lists (ignored when it is not a directory). */
  datatype Folder = Folder(name: string, isDir: bool, entries: seq<Entry>)

  /** A decoded track, identified by the folder and the file it came from. */
  datatype Sound = Sound(folder: string, file: string)

  /** What the scan concludes about one folder. */
  datatype FolderOutcome =
    | NotADirectory
    | NoAudioFiles
    | Rejected(valid: nat)          // fewer than three tracks loaded
    | Admitted(sounds: seq<Sound>)  // exactly three tracks, in file order

  /** The library: set names in insertion order (the order of the dict's
      keys) and the tracks of each set. */
  datatype Library = Library(names: seq<string>, sets: map<string, seq<Sound>>)

  datatype LoadError = RootNotFound | NoSetsFound

  /** Number of tracks of a set, one per engine state. */
  const TracksPerSet: nat := 3

  predicate Distinct(s: seq<string>)
  {
    forall i, j :: 0 <= i < j < |s| ==> s[i] != s[j]
  }

  /** The library invariant: every name listed once, the names are exactly
      the keys, and every set holds exactly three tracks. */
  ghost predicate WellFormed(lib: Library)
  {
    && Distinct(lib.names)
    && (forall n :: n in lib.sets <==> n in lib.names)
    && (forall n :: n in lib.sets ==> |lib.sets[n]| == TracksPerSet)
  }

  // ---------------------------------------------------------------------
  // Recognising audio files
  // ---------------------------------------------------------------------

  function LowerChar(c: char): char
  {
    if 'A' <= c <= 'Z' then (c as int + 32) as char else c
  }

  function Lower(s: string): string
  {
    seq(|s|, i requires 0 <= i < |s| => LowerChar(s[i]))
  }

  predicate EndsWith(s: string, suffix: string)
  {
    |suffix| <= |s| && s[|s| - |suffix|..] == suffix
  }

  /** A file name counts as audio when, case-insensitively, it ends in
      ".wav" or ".ogg". */
  predicate IsAudio(name: string)
  {
    EndsWith(Lower(name), ".wav") || EndsWith(Lower(name), ".ogg")
  }

  /** The audio entries of a folder, in listing order. */
  function AudioEntries(es: seq<Entry>): (r: seq<Entry>)
    ensures |r| <= |es|
    ensures forall e :: e in r <==> e in es && IsAudio(e.name)
  {
    if es == [] then []
    else (if IsAudio(es[0].name) then [es[0]] else []) + AudioEntries(es[1..])
  }

  /** The filter keeps every audio entry exactly as often as the folder
      lists it, and nothing else: it fixes the number of audio files. */
  lemma {:induction false} AudioEntriesExact(es: seq<Entry>)
    ensures forall e :: multiset(AudioEntries(es))[e] == if IsAudio(e.name) then multiset(es)[e] else 0
  {
    if es != [] {
      AudioEntriesExact(es[1..]);
      assert es == [es[0]] + es[1..];
    }
  }

  // ---------------------------------------------------------------------
  // Sorting by file name (Python's str ordering: code points, a proper
  // prefix first)
  // ---------------------------------------------------------------------

  predicate NameLe(a: string, b: string)
  {
    if |a| == 0 then true
    else if |b| == 0 then false
    else if a[0] != b[0] then a[0] < b[0]
    else NameLe(a[1..], b[1..])
  }

  lemma {:induction false} NameLeTotal(a: string, b: string)
    ensures NameLe(a, b) || NameLe(b, a)
  {
    if |a| > 0 && |b| > 0 && a[0] == b[0] {
      NameLeTotal(a[1..], b[1..]);
    }
  }

  lemma {:induction false} NameLeTransitive(a: string, b: string, c: string)
    requires NameLe(a, b) && NameLe(b, c)
    ensures NameLe(a, c)
  {
    if |a| > 0 && |b| > 0 && |c| > 0 && a[0] == b[0] == c[0] {
      NameLeTransitive(a[1..], b[1..], c[1..]);
    }
  }

  /** Each entry's name is at most the next one's. */
  predicate SortedByName(s: seq<Entry>)
  {
    forall i :: 0 <= i < |s| - 1 ==> NameLe(s[i].name, s[i + 1].name)
  }

  function Insert(x: Entry, s: seq<Entry>): (r: seq<Entry>)
    requires SortedByName(s)
    ensures SortedByName(r)
    ensures multiset(r) == multiset(s) + multiset{x}
    ensures |r| == |s| + 1 && (r[0] == x || (|s| > 0 && r[0] == s[0]))
  {
    if s == [] then [x]
    else if NameLe(x.name, s[0].name) then [x] + s
    else
      NameLeTotal(x.name, s[0].name);
      assert s == [s[0]] + s[1..];
      [s[0]] + Insert(x, s[1..])
  }

  /** `files.sort()`: the entries ordered by file name. */
  function SortByName(s: seq<Entry>): (r: seq<Entry>)
    ensures SortedByName(r)
    ensures multiset(r) == multiset(s)
  {
    if s == [] then []
    else
      assert s == [s[0]] + s[1..];
      Insert(s[0], SortByName(s[1..]))
  }

  /** Adjacent order extends to every pair. */
  lemma {:induction false} SortedPairwise(s: seq<Entry>, i: nat, j: nat)
    requires SortedByName(s)
    requires i <= j < |s|
    ensures NameLe(s[i].name, s[j].name)
    decreases j - i
  {
    if i == j {
      NameLeTotal(s[i].name, s[j].name);
    } else {
      SortedPairwise(s, i + 1, j);
      NameLeTransitive(s[i].name, s[i + 1].name, s[j].name);
    }
  }

  // ---------------------------------------------------------------------
  // One folder
  // ---------------------------------------------------------------------

  /** The audio files of a folder in sorted order: the candidates for its
      three tracks. */
  function Tracks(f: Folder): seq<Entry>
  {
    SortByName(AudioEntries(f.entries))
  }

  /** `files[:3]`. */
  function FirstThree(s: seq<Entry>): seq<Entry>
  {
    s[..if |s| < TracksPerSet then |s| else TracksPerSet]
  }

  /** The sounds that load from `files`, in order, skipping the failures. */
  function LoadedSounds(folder: string, files: seq<Entry>): seq<Sound>
  {
    if files == [] then []
    else
      var last := files[|files| - 1];
      LoadedSounds(folder, files[..|files| - 1]) +
        (if last.loads then [Sound(folder, last.name)] else [])
  }

  /** The reference outcome of scanning one folder. */
  function FolderOutcomeOf(f: Folder): FolderOutcome
  {
    if !f.isDir then NotADirectory
    else if AudioEntries(f.entries) == [] then NoAudioFiles
    else
      var sounds := LoadedSounds(f.name, FirstThree(Tracks(f)));
      if |sounds| == TracksPerSet then Admitted(sounds) else Rejected(|sounds|)
  }

  lemma {:induction false} LoadedSoundsCount(folder: string, files: seq<Entry>)
    ensures |LoadedSounds(folder, files)| <= |files|
    ensures |LoadedSounds(folder, files)| == |files| <==> forall i :: 0 <= i < |files| ==> files[i].loads
    ensures (forall i :: 0 <= i < |files| ==> files[i].loads) ==>
              forall i :: 0 <= i < |files| ==> LoadedSounds(folder, files)[i] == Sound(folder, files[i].name)
  {
    if files != [] {
      var init := files[..|files| - 1];
      LoadedSoundsCount(folder, init);
      assert forall i :: 0 <= i < |init| ==> init[i] == files[i];
    }
  }

  /** A folder becomes a set exactly when it is a directory with at least
      three audio files and the first three of them, in sorted order, all
      load; later files are never tried. */
  lemma AdmittedIff(f: Folder)
    ensures FolderOutcomeOf(f).Admitted? <==>
              f.isDir && |Tracks(f)| >= TracksPerSet &&
              forall i :: 0 <= i < TracksPerSet ==> Tracks(f)[i].loads
  {
    var t := Tracks(f);
    var first := FirstThree(t);
    TracksLength(f);
    LoadedSoundsCount(f.name, first);
    assert forall i :: 0 <= i < |first| ==> first[i] == t[i];
  }

  /** Sorting keeps the number of audio files. */
  lemma TracksLength(f: Folder)
    ensures |Tracks(f)| == |AudioEntries(f.entries)|
  {
    assert |multiset(Tracks(f))| == |multiset(AudioEntries(f.entries))|;
  }

  /** An admitted set's track i is the i-th audio file in sorted order. */
  lemma AdmittedTrackOrder(f: Folder)
    requires FolderOutcomeOf(f).Admitted?
    ensures |Tracks(f)| >= TracksPerSet
    ensures FolderOutcomeOf(f).sounds ==
              [Sound(f.name, Tracks(f)[0].name), Sound(f.name, Tracks(f)[1].name), Sound(f.name, Tracks(f)[2].name)]
  {
    AdmittedIff(f);
    LoadedSoundsCount(f.name, FirstThree(Tracks(f)));
  }

  /** A rejected folder reports how many of its first three files loaded. */
  lemma RejectedCount(f: Folder)
    requires FolderOutcomeOf(f).Rejected?
    ensures FolderOutcomeOf(f).valid < TracksPerSet
    ensures f.isDir && |Tracks(f)| > 0
  {
    LoadedSoundsCount(f.name, FirstThree(Tracks(f)));
    TracksLength(f);
  }

  /** The per-folder part of the scan loop (main.py, lines 66-92). */
  method LoadFolder(f: Folder) returns (outcome: FolderOutcome)
    ensures outcome == FolderOutcomeOf(f)
  {
    if !f.isDir {
      return NotADirectory;
    }
    var files := AudioEntries(f.entries);
    if files == [] {
      return NoAudioFiles;
    }
    files := SortByName(files);
    var first := FirstThree(files);
    var sounds: seq<Sound> := [];
    for i := 0 to |first|
      invariant sounds == LoadedSounds(f.name, first[..i])
    {
      assert first[..i + 1][..i] == first[..i];
      if first[i].loads {
        sounds := sounds + [Sound(f.name, first[i].name)];
      }
    }
    assert first[..|first|] == first;
    if |sounds| == TracksPerSet {
      outcome := Admitted(sounds);
    } else {
      outcome := Rejected(|sounds|);
    }
  }

  // ---------------------------------------------------------------------
  // The whole library
  // ---------------------------------------------------------------------

  /** `music_sets[folder] = sounds`: a new key goes to the end of the key
      order, an existing key keeps its place and gets the new tracks. */
  function Admit(lib: Library, name: string, sounds: seq<Sound>): Library
  {
    Library(if name in lib.sets then lib.names else lib.names + [name],
            lib.sets[name := sounds])
  }

  /** The reference library built from a listing of the sets root. */
  function LibraryOf(folders: seq<Folder>): Library
  {
    if folders == [] then Library([], map[])
    else
      var lib := LibraryOf(folders[..|folders| - 1]);
      var last := folders[|folders| - 1];
      var o := FolderOutcomeOf(last);
      if o.Admitted? then Admit(lib, last.name, o.sounds) else lib
  }

  /** Admitted(...) always carries three tracks. */
  lemma AdmittedHasThree(f: Folder)
    requires FolderOutcomeOf(f).Admitted?
    ensures |FolderOutcomeOf(f).sounds| == TracksPerSet
  {
  }

  lemma {:induction false} LibraryOfWellFormed(folders: seq<Folder>)
    ensures WellFormed(LibraryOf(folders))
  {
    if folders != [] {
      var init := folders[..|folders| - 1];
      LibraryOfWellFormed(init);
      var lib := LibraryOf(init);
      var last := folders[|folders| - 1];
      if FolderOutcomeOf(last).Admitted? {
        AdmittedHasThree(last);
        var lib' := Admit(lib, last.name, FolderOutcomeOf(last).sounds);
        if last.name !in lib.sets {
          forall i, j | 0 <= i < j < |lib'.names| ensures lib'.names[i] != lib'.names[j] {
            if j == |lib.names| {
              assert lib.names[i] in lib.names;
            }
          }
        }
      }
    }
  }

  /** A name is a set of the library iff some folder of that name was
      admitted. */
  lemma {:induction false} LibraryMembership(folders: seq<Folder>, n: string)
    ensures n in LibraryOf(folders).sets <==>
              exists i :: 0 <= i < |folders| && folders[i].name == n && FolderOutcomeOf(folders[i]).Admitted?
  {
    if folders != [] {
      var init := folders[..|folders| - 1];
      var last := folders[|folders| - 1];
      LibraryMembership(init, n);
      var admitted := FolderOutcomeOf(last).Admitted?;
      assert n in LibraryOf(folders).sets <==> n in LibraryOf(init).sets || (admitted && last.name == n);
      if n in LibraryOf(init).sets {
        var i :| 0 <= i < |init| && init[i].name == n && FolderOutcomeOf(init[i]).Admitted?;
        assert folders[i] == init[i];
      } else if !(admitted && last.name == n) {
        forall i | 0 <= i < |folders| && folders[i].name == n
          ensures !FolderOutcomeOf(folders[i]).Admitted?
        {
          if i < |init| {
            assert folders[i] == init[i];
          }
        }
      }
    }
  }

  /** The tracks of a set are those of the last admitted folder of that
      name (a later folder with the same name overrides an earlier one);
      `i` is that folder's position in the listing. */
  lemma {:induction false} LibraryTracks(folders: seq<Folder>, n: string) returns (i: nat)
    requires n in LibraryOf(folders).sets
    ensures i < |folders| && folders[i].name == n && FolderOutcomeOf(folders[i]).Admitted?
    ensures LibraryOf(folders).sets[n] == FolderOutcomeOf(folders[i]).sounds
    ensures forall j :: i < j < |folders| && folders[j].name == n ==> !FolderOutcomeOf(folders[j]).Admitted?
  {
    var init := folders[..|folders| - 1];
    var last := folders[|folders| - 1];
    var o := FolderOutcomeOf(last);
    if last.name == n && o.Admitted? {
      i := |folders| - 1;
    } else {
      assert LibraryOf(folders) == if o.Admitted? then Admit(LibraryOf(init), last.name, o.sounds) else LibraryOf(init);
      assert n in LibraryOf(init).sets && LibraryOf(folders).sets[n] == LibraryOf(init).sets[n];
      i := LibraryTracks(init, n);
      assert folders[i] == init[i];
      forall j | i < j < |folders| && folders[j].name == n
        ensures !FolderOutcomeOf(folders[j]).Admitted?
      {
        if j < |init| {
          assert folders[j] == init[j];
        } else {
          assert folders[j] == last && !o.Admitted?;
        }
      }
    }
  }

  /** Reading the sets root (main.py, lines 58-96): Failure when the root is
      missing or no folder qualifies, otherwise a non-empty library. */
  function Load(root: Option<seq<Folder>>): (r: Result<Library, LoadError>)
    ensures r.Success? ==> WellFormed(r.value) && |r.value.names| > 0
    ensures r == Failure(RootNotFound) <==> root.None?
    ensures r == Failure(NoSetsFound) <==>
              root.Some? && forall i :: 0 <= i < |root.value| ==> !FolderOutcomeOf(root.value[i]).Admitted?
    ensures r.Success? ==> root.Some? && r.value == LibraryOf(root.value)
  {
    if root.None? then Failure(RootNotFound)
    else
      var lib := LibraryOf(root.value);
      LibraryOfWellFormed(root.value);
      if lib.names == [] then
        assert forall i :: 0 <= i < |root.value| ==> !FolderOutcomeOf(root.value[i]).Admitted? by {
          forall i | 0 <= i < |root.value| ensures !FolderOutcomeOf(root.value[i]).Admitted? {
            LibraryMembership(root.value, root.value[i].name);
          }
        }
        Failure(NoSetsFound)
      else
        assert lib.names[0] in lib.sets;
        LibraryMembership(root.value, lib.names[0]);
        Success(lib)
  }

  /** The scan loop itself, filling the library folder by folder. */
  method LoadLibrary(root: Option<seq<Folder>>) returns (r: Result<Library, LoadError>)
    ensures r == Load(root)
  {
    if root.None? {
      return Failure(RootNotFound);
    }
    var folders := root.value;
    var lib := Library([], map[]);
    for i := 0 to |folders|
      invariant lib == LibraryOf(folders[..i])
    {
      assert folders[..i + 1][..i] == folders[..i];
      var outcome := LoadFolder(folders[i]);
      if outcome.Admitted? {
        lib := Admit(lib, folders[i].name, outcome.sounds);
      }
    }
    assert folders[..|folders|] == folders;
    if lib.names == [] {
      r := Failure(NoSetsFound);
    } else {
      r := Success(lib);
    }
  }
}
