/**
 * The Arduino sketch that drives the pipeline: the global file-name lists and
 * the global engine and playlist pointers, `buildCountdownList`,
 * `startFullCountdown` and one pass of `loop()`.
 *
 * Deleting an object is modelled by clearing the pointer and logging the
 * release; the log records, in order, every stop, release and creation the
 * sketch performs on the engine and the playlist, and the controller keeps
 * it ordered: an engine is stopped right before it is released, and a
 * playlist is released only while no engine that could read it is alive.
 */
module Sketch {
  import opened Pcm
  import opened WavFormat
  import opened WavFile
  import opened Playlist
  import opened I2S
  import opened Countdown

  /** What the sketch does to the engine (`audio`) and to the playlist. */
  datatype Event = StopEngine | ReleaseEngine | ReleasePlaylist | CreatePlaylist | CreateEngine | StartEngine

  /** An engine created by the log has not been released yet. */
  function EngineAlive(log: seq<Event>): (alive: bool)
    decreases |log|
  {
    if log == [] then false
    else if log[|log| - 1] == CreateEngine then true
    else if log[|log| - 1] == ReleaseEngine then false
    else EngineAlive(log[..|log| - 1])
  }

  /** The teardown rules for the event at position `i`. */
  predicate OrderedAt(log: seq<Event>, i: nat)
    requires i < |log|
  {
    && (log[i] == ReleaseEngine ==> 0 < i && log[i - 1] == StopEngine)
    && (log[i] == ReleasePlaylist ==> !EngineAlive(log[..i]))
  }

  /** Every event of the log keeps the teardown rules. */
  predicate TeardownOrdered(log: seq<Event>)
  {
    forall i :: 0 <= i < |log| ==> OrderedAt(log, i)
  }

  /** Logging one more event that keeps the rules keeps the whole log ordered. */
  lemma Logged(log: seq<Event>, e: Event)
    requires TeardownOrdered(log)
    requires e == ReleaseEngine ==> log != [] && log[|log| - 1] == StopEngine
    requires e == ReleasePlaylist ==> !EngineAlive(log)
    ensures TeardownOrdered(log + [e])
    ensures EngineAlive(log + [e]) == (e == CreateEngine || (e != ReleaseEngine && EngineAlive(log)))
  {
    var log' := log + [e];
    assert log'[..|log|] == log;
    forall i | 0 <= i < |log'|
      ensures OrderedAt(log', i)
    {
      if i < |log| {
        assert log'[..i] == log[..i];
        assert OrderedAt(log, i);
      }
    }
  }

  /**
   * Regrouping a three-part list.  Kept as a lemma so that the methods that
   * append in two steps see only this one fact about `+`.
   */
  lemma AppendAssociates(a: seq<string>, b: seq<string>, c: seq<string>)
    ensures (a + b) + c == a + (b + c)
  {
  }

  /**
   * `doneAt = millis() + (unsigned long)(input + 1) * 1800`: about 1.8 s per
   * number, added in 32-bit `unsigned long` arithmetic.
   */
  function Deadline(now: uint32, input: int): (doneAt: uint32)
    requires 0 <= input <= 999
    ensures now + (input + 1) * 1800 < 0x1_0000_0000 ==> doneAt - now == (input + 1) * 1800
    ensures now + (input + 1) * 1800 >= 0x1_0000_0000 ==> doneAt < now
  {
    (now + (input + 1) * 1800) % 0x1_0000_0000
  }

  /** A read of the serial line that starts a countdown: an integer in 0..999. */
  predicate ValidInput(input: Option<int>)
  {
    input.Some? && 0 <= input.value <= 999
  }

  /** The static `running`, `doneAt` and whether `audio` is set, as `loop()` sees them. */
  datatype Session = Session(running: bool, doneAt: uint32, engine: bool)

  const Idle := Session(false, 0, false)

  /**
   * One pass of `loop()` as written: a valid input while idle starts a
   * countdown (the engine exists when `found`, the list was not empty) and
   * sets `running` whether or not it did; the finish branch needs the engine.
   */
  function LoopAsWritten(s: Session, input: Option<int>, found: bool, startClock: uint32, checkClock: uint32): (t: Session)
    ensures t.running && !s.running ==> ValidInput(input)
    ensures s.running ==> t == s || t == Idle
  {
    var started := if !s.running && ValidInput(input) then Session(true, Deadline(startClock, input.value), found) else s;
    if started.running && started.engine && checkClock >= started.doneAt then Idle else started
  }

  /**
   * A valid input that finds none of its clips leaves the sketch `running`
   * with no engine; from there no pass of `loop()` changes anything, so no
   * later input is ever read.
   */
  lemma AsWrittenStuck(startClock: uint32, checkClock: uint32, input: Option<int>, found: bool, c1: uint32, c2: uint32)
    ensures var s := LoopAsWritten(Idle, Some(0), false, startClock, checkClock);
      s.running && !s.engine && LoopAsWritten(s, input, found, c1, c2) == s
  {
  }

  /** A file system without the clip `/0.wav` gives the countdown from 0 no clip to play. */
  lemma NoClipsNotFound(fs: FileSystem)
    requires ZeroClip !in fs
    ensures Filter(Candidates(0), fs.Keys) == []
  {
    assert Candidates(0) == [ZeroClip];
  }

  /** The start branch of `loop()`, setting `running` only when `startFullCountdown` created the engine. */
  function StartCorrected(s: Session, input: Option<int>, found: bool, startClock: uint32): (t: Session)
    ensures !s.running && ValidInput(input) && found ==> t.running && t.engine && t.doneAt == Deadline(startClock, input.value)
    ensures !s.running && ValidInput(input) && !found ==> !t.running && !t.engine
    ensures s.running || !ValidInput(input) ==> t == s
  {
    if !s.running && ValidInput(input) && found then Session(true, Deadline(startClock, input.value), true)
    else if !s.running && ValidInput(input) then Session(false, s.doneAt, false)
    else s
  }

  /** The finish branch of `loop()` fires: a countdown runs with its engine and the clock has reached its deadline. */
  predicate Finishes(s: Session, checkClock: uint32)
  {
    s.running && s.engine && checkClock >= s.doneAt
  }

  /** `loop()` setting `running` only when `startFullCountdown` created the engine. */
  function LoopCorrected(s: Session, input: Option<int>, found: bool, startClock: uint32, checkClock: uint32): (t: Session)
    ensures t.running && !s.running ==> ValidInput(input) && found
    ensures s.running ==> t == s || t == Idle
  {
    var started := StartCorrected(s, input, found, startClock);
    if Finishes(started, checkClock) then Idle else started
  }

  /**
   * `running` holds exactly while an engine exists, so a running countdown
   * always ends at its deadline and an idle sketch accepts every valid input
   * whose clips exist.
   */
  lemma CorrectedNeverStuck(s: Session, input: Option<int>, found: bool, startClock: uint32, checkClock: uint32)
    requires s.running == s.engine
    ensures LoopCorrected(s, input, found, startClock, checkClock).running ==
      LoopCorrected(s, input, found, startClock, checkClock).engine
    ensures s.running && checkClock >= s.doneAt ==> LoopCorrected(s, input, found, startClock, checkClock) == Idle
    ensures !s.running && ValidInput(input) && found ==>
      LoopCorrected(s, input, found, startClock, checkClock).engine || checkClock >= Deadline(startClock, input.value)
  {
  }

  /** Whether the countdown `input` asks for has any clip on the file system. */
  ghost predicate Found(fs: FileSystem, input: Option<int>)
  {
    ValidInput(input) && Filter(Candidates(input.value), fs.Keys) != []
  }

  /** Every clip path the flash file system has holds a WAV file the decoder can play. */
  ghost predicate ClipsPlayable(fs: FileSystem)
  {
    forall k: nat :: Path(k) in fs ==> Playable(fs[Path(k)])
  }

  /** Every clip a countdown lists exists and can be played. */
  lemma ListedClipsPlayable(fs: FileSystem, start: int)
    requires ClipsPlayable(fs)
    ensures AllPlayable(fs, Filter(Candidates(start), fs.Keys))
  {
    SpokenArePaths(start, 0);
    FilterKeepsPaths(Candidates(start), fs.Keys);
    var kept := Filter(Candidates(start), fs.Keys);
    forall i | 0 <= i < |kept|
      ensures kept[i] in fs && Playable(fs[kept[i]])
    {
      assert IsPath(kept[i]) && kept[i] in fs.Keys;
    }
  }

  /** Step 3 of `startFullCountdown`: a playlist over `files`, and an engine started on it. */
  method Launch(fs: FileSystem, files: seq<string>, port: I2SPort, driverInstalled: bool)
    returns (source: PlaylistSampleSource, engine: I2SOutput)
    requires AllPlayable(fs, files)
    ensures fresh(source) && fresh(engine) && engine.sampleGenerator == source && engine.port == port
    ensures source.fs == fs && source.files == files && source.PathsOpenToReaders() && source.Valid()
    ensures source.State() == Playlist.Start(source.readers)
  {
    source := new PlaylistSampleSource(fs, files);
    engine := new I2SOutput();
    var rate, task := engine.Start(port, source, driverInstalled);
  }

  /** Creating the playlist, then creating and starting the engine, keeps the log ordered. */
  lemma LoggedLaunch(log: seq<Event>)
    requires TeardownOrdered(log)
    ensures TeardownOrdered(log + [CreatePlaylist, CreateEngine, StartEngine])
    ensures EngineAlive(log + [CreatePlaylist, CreateEngine, StartEngine])
  {
    Logged(log, CreatePlaylist);
    Logged(log + [CreatePlaylist], CreateEngine);
    Logged(log + [CreatePlaylist] + [CreateEngine], StartEngine);
    assert log + [CreatePlaylist] + [CreateEngine] + [StartEngine] == log + [CreatePlaylist, CreateEngine, StartEngine];
  }

  /** The sketch's globals: SPIFFS, the two name lists, the two pointers and the statics of `loop()`. */
  class Controller {
    const fs: FileSystem
    const port: I2SPort
    var fileNames: seq<string>
    var filePtrs: seq<string>
    var audio: I2SOutput?
    var playlist: PlaylistSampleSource?
    var running: bool
    var doneAt: uint32
    ghost var events: seq<Event>

    /** The log is ordered and knows whether `audio` is set. */
    ghost predicate LogMatchesEngine()
      reads this
    {
      TeardownOrdered(events) && EngineAlive(events) == (audio != null)
    }

    /** `audio` and `playlist` are set together, and exactly while a countdown runs. */
    ghost predicate Valid()
      reads this
    {
      && LogMatchesEngine() && ClipsPlayable(fs)
      && (audio == null <==> playlist == null)
      && (running <==> audio != null)
    }

    ghost function Status(): Session
      reads this
    {
      Session(running, doneAt, audio != null)
    }

    constructor (fs: FileSystem, port: I2SPort)
      requires ClipsPlayable(fs)
      ensures Valid() && this.fs == fs && this.port == port
      ensures fileNames == [] && filePtrs == [] && audio == null && playlist == null
      ensures Status() == Idle && events == []
    {
      this.fs := fs;
      this.port := port;
      fileNames, filePtrs := [], [];
      audio, playlist := null, null;
      running, doneAt := false, 0;
      events := [];
    }

    /** The `tryEnqueue` lambda: keep `path` when the file system has it. */
    method TryEnqueue(path: string)
      modifies this
      ensures fileNames == old(fileNames) + Keep(path, fs.Keys)
      ensures filePtrs == old(filePtrs) && audio == old(audio) && playlist == old(playlist)
      ensures running == old(running) && doneAt == old(doneAt) && events == old(events)
    {
      if path in fs {
        fileNames := fileNames + [path];
      }
    }

    /** Two `tryEnqueue` calls in a row. */
    method TryEnqueueBoth(first: string, second: string)
      modifies this
      ensures fileNames == old(fileNames) + Filter([first, second], fs.Keys)
      ensures filePtrs == old(filePtrs) && audio == old(audio) && playlist == old(playlist)
      ensures running == old(running) && doneAt == old(doneAt) && events == old(events)
    {
      ghost var base := fileNames;
      TryEnqueue(first);
      TryEnqueue(second);
      FilterShort(first, second, fs.Keys);
      AppendAssociates(base, Keep(first, fs.Keys), Keep(second, fs.Keys));
    }

    /** The hundreds part of the loop body: `"/{hundreds}.wav"` then `"/100.wav"`, when there are hundreds. */
    method EnqueueHundreds(hundreds: nat)
      modifies this
      ensures fileNames == old(fileNames) + Filter(HundredsNames(hundreds), fs.Keys)
      ensures filePtrs == old(filePtrs) && audio == old(audio) && playlist == old(playlist)
      ensures running == old(running) && doneAt == old(doneAt) && events == old(events)
    {
      if hundreds > 0 {
        TryEnqueueBoth(Path(hundreds), HundredClip);
      } else {
        assert fileNames + [] == fileNames;
      }
    }

    /** The remainder part of the loop body: one clip, or the tens clip then the units clip. */
    method EnqueueRemainder(remainder: nat)
      requires remainder < 100
      modifies this
      ensures fileNames == old(fileNames) + Filter(RemainderNames(remainder), fs.Keys)
      ensures filePtrs == old(filePtrs) && audio == old(audio) && playlist == old(playlist)
      ensures running == old(running) && doneAt == old(doneAt) && events == old(events)
    {
      if remainder > 0 {
        if remainder <= 20 || remainder % 10 == 0 {
          TryEnqueue(Path(remainder));
          FilterShort(Path(remainder), Path(remainder), fs.Keys);
        } else {
          var tens := (remainder / 10) * 10;
          var units := remainder % 10;
          TryEnqueueBoth(Path(tens), Path(units));
        }
      } else {
        assert fileNames + [] == fileNames;
      }
    }

    /** The body of the `buildCountdownList` loop: enqueue the clips of the number `n`. */
    method EnqueueNumber(n: nat)
      modifies this
      ensures fileNames == old(fileNames) + Filter(NumberNames(n), fs.Keys)
      ensures filePtrs == old(filePtrs) && audio == old(audio) && playlist == old(playlist)
      ensures running == old(running) && doneAt == old(doneAt) && events == old(events)
    {
      if n == 0 {
        TryEnqueue(ZeroClip);
        FilterShort(ZeroClip, ZeroClip, fs.Keys);
      } else {
        var hundreds := n / 100;
        var remainder := n % 100;
        ghost var base := fileNames;
        EnqueueHundreds(hundreds);
        EnqueueRemainder(remainder);
        FilterAppend(HundredsNames(hundreds), RemainderNames(remainder), fs.Keys);
        AppendAssociates(base, Filter(HundredsNames(hundreds), fs.Keys), Filter(RemainderNames(remainder), fs.Keys));
      }
    }

    /** The `for (n = start; n >= 0; --n)` loop of `buildCountdownList`, from a cleared list. */
    method EnqueueCountdown(start: int)
      modifies this
      ensures fileNames == Filter(Candidates(start), fs.Keys)
      ensures filePtrs == old(filePtrs) && audio == old(audio) && playlist == old(playlist)
      ensures running == old(running) && doneAt == old(doneAt) && events == old(events)
    {
      fileNames := [];
      var n := start;
      while n >= 0
        invariant n <= start && (n >= -1 || n == start)
        invariant n >= -1 ==> fileNames == Filter(Spoken(start, n + 1), fs.Keys)
        invariant n < -1 ==> fileNames == []
        invariant filePtrs == old(filePtrs) && audio == old(audio) && playlist == old(playlist)
        invariant running == old(running) && doneAt == old(doneAt) && events == old(events)
        decreases n + 1
      {
        EnqueueNumber(n);
        FilterAppend(Spoken(start, n + 1), NumberNames(n), fs.Keys);
        n := n - 1;
      }
      if start < 0 {
        assert Candidates(start) == [];
      }
    }

    /** The `c_str()` snapshot of `buildCountdownList`: `filePtrs` becomes a copy of `fileNames`. */
    method SnapshotPointers()
      modifies this
      ensures filePtrs == fileNames && fileNames == old(fileNames)
      ensures audio == old(audio) && playlist == old(playlist)
      ensures running == old(running) && doneAt == old(doneAt) && events == old(events)
    {
      filePtrs := [];
      for i := 0 to |fileNames|
        invariant fileNames == old(fileNames)
        invariant filePtrs == fileNames[..i]
        invariant audio == old(audio) && playlist == old(playlist)
        invariant running == old(running) && doneAt == old(doneAt) && events == old(events)
      {
        filePtrs := filePtrs + [fileNames[i]];
      }
    }

    /**
     * `buildCountdownList`: the names of every number from `start` down to 0,
     * those missing from the file system dropped, then `filePtrs` as a copy.
     * A negative start is excluded: `reserve((start + 1) * 2)` then asks for
     * more than a vector can hold and throws.
     */
    method BuildCountdownList(start: nat)
      modifies this
      ensures fileNames == Filter(Candidates(start), fs.Keys) && filePtrs == fileNames
      ensures audio == old(audio) && playlist == old(playlist)
      ensures running == old(running) && doneAt == old(doneAt) && events == old(events)
    {
      EnqueueCountdown(start);
      SnapshotPointers();
    }

    /** The finish branch of `loop()`: stop and release the engine, then release the playlist. */
    method FinishCountdown()
      requires LogMatchesEngine() && audio != null
      modifies this
      ensures LogMatchesEngine()
      ensures events == old(events) + [StopEngine, ReleaseEngine, ReleasePlaylist]
      ensures audio == null && playlist == null && !running && doneAt == 0
      ensures fileNames == old(fileNames) && filePtrs == old(filePtrs)
    {
      Logged(events, StopEngine);
      events := events + [StopEngine];
      Logged(events, ReleaseEngine);
      events, audio := events + [ReleaseEngine], null;
      Logged(events, ReleasePlaylist);
      events, playlist := events + [ReleasePlaylist], null;
      running, doneAt := false, 0;
    }

    /** Step 1 of `startFullCountdown`: stop and release the engine, then release the playlist. */
    method ReleasePrevious()
      requires LogMatchesEngine()
      modifies this
      ensures LogMatchesEngine() && audio == null && playlist == null
      ensures events == old(events)
        + (if old(audio) != null then [StopEngine, ReleaseEngine] else [])
        + (if old(playlist) != null then [ReleasePlaylist] else [])
      ensures fileNames == old(fileNames) && filePtrs == old(filePtrs)
      ensures running == old(running) && doneAt == old(doneAt)
    {
      ghost var cleanup: seq<Event> := [];
      if audio != null {
        Logged(events, StopEngine);
        events := events + [StopEngine];
        Logged(events, ReleaseEngine);
        events, audio := events + [ReleaseEngine], null;
        cleanup := [StopEngine, ReleaseEngine];
      }
      if playlist != null {
        Logged(events, ReleasePlaylist);
        events, playlist := events + [ReleasePlaylist], null;
        cleanup := cleanup + [ReleasePlaylist];
      }
    }

    /**
     * `startFullCountdown`: releases the previous engine (stopping it first)
     * and then the previous playlist, builds the list, and creates a playlist
     * and an engine over it only when the list is not empty; with
     * `driverInstalled` the engine's writer task is running.
     */
    method StartFullCountdown(start: nat, driverInstalled: bool)
      requires LogMatchesEngine() && ClipsPlayable(fs)
      modifies this
      ensures LogMatchesEngine()
      ensures fileNames == Filter(Candidates(start), fs.Keys) && filePtrs == fileNames
      ensures events == old(events)
        + (if old(audio) != null then [StopEngine, ReleaseEngine] else [])
        + (if old(playlist) != null then [ReleasePlaylist] else [])
        + (if fileNames == [] then [] else [CreatePlaylist, CreateEngine, StartEngine])
      ensures fileNames == [] ==> audio == null && playlist == null
      ensures fileNames != [] ==>
        && fresh(audio) && fresh(playlist) && audio.sampleGenerator == playlist && audio.port == port
        && playlist.fs == fs && playlist.files == filePtrs && playlist.PathsOpenToReaders() && playlist.Valid()
        && playlist.State() == Playlist.Start(playlist.readers)
      ensures running == old(running) && doneAt == old(doneAt)
    {
      ReleasePrevious();
      BuildCountdownList(start);
      if filePtrs == [] {
        assert events + [] == events;
        return;
      }
      assert AllPlayable(fs, filePtrs) by {
        ListedClipsPlayable(fs, start);
      }
      var source, engine := Launch(fs, filePtrs, port, driverInstalled);
      LoggedLaunch(events);
      events := events + [CreatePlaylist, CreateEngine, StartEngine];
      playlist, audio := source, engine;
    }

    /**
     * One pass of `loop()`, with `running` set only when a countdown really
     * started: `input` is the integer read from the serial line when a line
     * is available, the clocks are the two `millis()` readings.
     */
    method Loop(input: Option<int>, startClock: uint32, checkClock: uint32, driverInstalled: bool)
      requires Valid()
      modifies this
      ensures Valid()
      ensures Status() == LoopCorrected(old(Status()), input, Found(fs, input), startClock, checkClock)
      ensures !old(running) && ValidInput(input) ==>
        fileNames == Filter(Candidates(input.value), fs.Keys) && filePtrs == fileNames
      ensures old(running) || !ValidInput(input) ==> fileNames == old(fileNames) && filePtrs == old(filePtrs)
      ensures var finishes := Finishes(StartCorrected(old(Status()), input, Found(fs, input), startClock), checkClock);
        && events == old(events)
          + (if !old(running) && Found(fs, input) then [CreatePlaylist, CreateEngine, StartEngine] else [])
          + (if finishes then [StopEngine, ReleaseEngine, ReleasePlaylist] else [])
        && (finishes ==> audio == null && playlist == null)
        && (!finishes && !old(running) && Found(fs, input) ==>
              && fresh(audio) && fresh(playlist) && audio.sampleGenerator == playlist && audio.port == port
              && playlist.fs == fs && playlist.files == filePtrs && playlist.PathsOpenToReaders()
              && playlist.State() == Playlist.Start(playlist.readers))
        && (!finishes && (old(running) || !Found(fs, input)) ==> audio == old(audio) && playlist == old(playlist))
    {
      if !running && input.Some? {
        var value := input.value;
        if 0 <= value && value <= 999 {
          StartFullCountdown(value, driverInstalled);
          if audio != null {
            doneAt := Deadline(startClock, value);
            running := true;
          }
        }
      }
      if running && audio != null && checkClock >= doneAt {
        FinishCountdown();
      }
    }
  }
}
