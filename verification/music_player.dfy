/**
 * `MoodMusicPlayer`: which music files belong to which mood, and which mood
 * is playing. The directory listing is a parameter (a map from a directory
 * path to the names it lists; a path missing from the map does not exist),
 * and the mixer is represented only by what `play_mood` asks it to do.
 */
module MusicPlayer {
  import opened Options
  import opened PyText

  /** The extensions `_load_mood_files` accepts. */
  const AudioExtensions: seq<string> := [".mp3", ".wav", ".ogg"]

  /** `f.endswith(('.mp3', '.wav', '.ogg'))`. */
  predicate IsAudioFile(name: string) {
    exists k :: 0 <= k < |AudioExtensions| && EndsWith(name, AudioExtensions[k])
  }

  /** The list comprehension keeping the audio files of a listing, in listing order. */
  function AudioFiles(names: seq<string>): (r: seq<string>)
    ensures |r| <= |names|
    ensures forall f :: f in r <==> f in names && IsAudioFile(f)
    decreases |names|
  {
    if names == [] then []
    else
      var n := |names| - 1;
      var front := AudioFiles(names[..n]);
      assert names == names[..n] + [names[n]];
      if IsAudioFile(names[n]) then front + [names[n]] else front
  }

  /** POSIX `os.path.join(dir, name)`. */
  function PathJoin(dir: string, name: string): string {
    if IsPrefix("/", name) then name
    else if dir == [] || dir[|dir| - 1] == '/' then dir + name
    else dir + "/" + name
  }

  /** `os.path.join(audio_folder, mood)`. */
  function MoodDir(audioFolder: string, mood: string): string {
    PathJoin(audioFolder, mood)
  }

  /** `[os.path.join(mood_dir, f) for f in files]`. */
  function JoinAll(dir: string, names: seq<string>): (r: seq<string>)
  {
    seq(|names|, k requires 0 <= k < |names| => PathJoin(dir, names[k]))
  }

  /** Joining a directory in front of a file name keeps the name's extension. */
  lemma JoinKeepsAudioExtension(dir: string, name: string)
    requires IsAudioFile(name)
    ensures IsAudioFile(PathJoin(dir, name))
  {
    var k :| 0 <= k < |AudioExtensions| && EndsWith(name, AudioExtensions[k]);
    if IsPrefix("/", name) {
    } else if dir == [] || dir[|dir| - 1] == '/' {
      EndsWithAppend(dir, name, AudioExtensions[k]);
    } else {
      assert dir + "/" + name == (dir + "/") + name;
      EndsWithAppend(dir + "/", name, AudioExtensions[k]);
    }
  }

  /** The paths `_load_mood_files` stores for one mood directory are all audio files. */
  lemma MoodPathsAreAudio(dir: string, names: seq<string>)
    ensures forall p :: p in JoinAll(dir, AudioFiles(names)) ==> IsAudioFile(p)
  {
    var files := AudioFiles(names);
    forall p | p in JoinAll(dir, files)
      ensures IsAudioFile(p)
    {
      var k :| 0 <= k < |files| && JoinAll(dir, files)[k] == p;
      JoinKeepsAudioExtension(dir, files[k]);
    }
  }

  /** Whether `_load_mood_files` keeps an entry for `mood`. */
  predicate Loads(audioFolder: string, folderExists: bool, listings: map<string, seq<string>>, mood: string) {
    && folderExists
    && MoodDir(audioFolder, mood) in listings
    && AudioFiles(listings[MoodDir(audioFolder, mood)]) != []
  }

  /**
   * `_load_mood_files`: nothing when the audio folder is missing; otherwise,
   * for each mood of MOOD_STYLES whose directory exists and lists at least
   * one audio file, the joined paths of those files.
   */
  method LoadMoodFiles(audioFolder: string, moodNames: seq<string>, folderExists: bool,
                       listings: map<string, seq<string>>)
    returns (moodFiles: map<string, seq<string>>)
    ensures !folderExists ==> moodFiles == map[]
    ensures forall m :: m in moodFiles <==> m in moodNames && Loads(audioFolder, folderExists, listings, m)
    ensures forall m :: m in moodFiles ==>
              && MoodDir(audioFolder, m) in listings
              && moodFiles[m] == JoinAll(MoodDir(audioFolder, m), AudioFiles(listings[MoodDir(audioFolder, m)]))
    ensures forall m :: m in moodFiles ==>
              moodFiles[m] != [] && forall p :: p in moodFiles[m] ==> IsAudioFile(p)
  {
    moodFiles := map[];
    if !folderExists {
      return;
    }
    var i := 0;
    while i < |moodNames|
      invariant i <= |moodNames|
      invariant forall m :: m in moodFiles <==> m in moodNames[..i] && Loads(audioFolder, folderExists, listings, m)
      invariant forall m :: m in moodFiles ==>
                  moodFiles[m] == JoinAll(MoodDir(audioFolder, m), AudioFiles(listings[MoodDir(audioFolder, m)]))
    {
      var mood := moodNames[i];
      var moodDir := MoodDir(audioFolder, mood);
      if moodDir in listings {
        var files := AudioFiles(listings[moodDir]);
        if files != [] {
          moodFiles := moodFiles[mood := JoinAll(moodDir, files)];
        }
      }
      assert moodNames[..i + 1] == moodNames[..i] + [mood];
      i := i + 1;
    }
    assert moodNames[..i] == moodNames;
    forall m | m in moodFiles
      ensures forall p :: p in moodFiles[m] ==> IsAudioFile(p)
    {
      MoodPathsAreAudio(MoodDir(audioFolder, m), listings[MoodDir(audioFolder, m)]);
    }
  }

  /** What `play_mood` asks of the mixer. */
  datatype Playback =
    | AlreadyPlaying        // the mood is the current one: nothing happens
    | Silenced              // no files for the mood: the music is stopped
    | Started(song: string) // a file of the mood is loaded and looped

  class MoodMusicPlayer {
    const audioFolder: string
    /** The keys of the script's MOOD_STYLES, in order. */
    const moodNames: seq<string>
    var currentMood: Option<string>
    var moodFiles: map<string, seq<string>>

    /** What `_load_mood_files` guarantees of `mood_files`. */
    ghost predicate Valid()
      reads this
    {
      forall m :: m in moodFiles ==>
        m in moodNames && moodFiles[m] != [] && forall p :: p in moodFiles[m] ==> IsAudioFile(p)
    }

    /** `__init__`: nothing playing, files loaded from the listing. */
    constructor (audioFolder: string, moodNames: seq<string>, folderExists: bool,
                 listings: map<string, seq<string>>)
      ensures this.audioFolder == audioFolder && this.moodNames == moodNames
      ensures Valid() && currentMood == None
      ensures !folderExists ==> moodFiles == map[]
      ensures forall m :: m in moodFiles <==> m in moodNames && Loads(audioFolder, folderExists, listings, m)
      ensures forall m :: m in moodFiles ==>
                && MoodDir(audioFolder, m) in listings
                && moodFiles[m] == JoinAll(MoodDir(audioFolder, m), AudioFiles(listings[MoodDir(audioFolder, m)]))
    {
      this.audioFolder := audioFolder;
      this.moodNames := moodNames;
      currentMood := None;
      new;
      moodFiles := LoadMoodFiles(audioFolder, moodNames, folderExists, listings);
    }

    /**
     * `play_mood(mood)`: nothing for the current mood; otherwise the mood
     * becomes current whether or not it has files (and whether or not the
     * mixer then manages to play), and the song started is one of its files.
     */
    method PlayMood(mood: string) returns (playback: Playback)
      requires Valid()
      modifies this`currentMood
      ensures Valid()
      ensures currentMood == Some(mood)
      ensures old(currentMood) == Some(mood) ==> playback == AlreadyPlaying
      ensures old(currentMood) != Some(mood) && (mood !in moodFiles || moodFiles[mood] == [])
              ==> playback == Silenced
      ensures old(currentMood) != Some(mood) && mood in moodFiles && moodFiles[mood] != []
              ==> playback.Started? && playback.song in moodFiles[mood]
      ensures playback.Started? ==> mood in moodNames && IsAudioFile(playback.song)
    {
      if currentMood == Some(mood) {
        return AlreadyPlaying;
      }
      currentMood := Some(mood);
      if mood !in moodFiles || moodFiles[mood] == [] {
        return Silenced;
      }
      var files := moodFiles[mood];
      var k :| 0 <= k < |files|;  // random.choice
      playback := Started(files[k]);
    }

    /** `stop`: no mood is current any more. */
    method Stop()
      requires Valid()
      modifies this`currentMood
      ensures Valid()
      ensures currentMood == None
    {
      currentMood := None;
    }
  }
}
