/** The playback controller of the music player component: the React state
    (`isPlaying`, `currentTime`, `duration`, `currentTrack`) and the `<audio>`
    element it drives, with one method per event handler. Each handler runs
    as one atomic step. */
module Player {
  import opened Transport
  import TimeLabel

  /** One playlist entry; `src` and `image` are opaque asset locators. */
  datatype Track = Track(title: string, src: string, image: string)

  /** The three-track playlist the component declares. */
  const SourcePlaylist: seq<Track> := [
    Track("Track 1", "Track_1.mp3", "test.png"),
    Track("Track 2", "Track_2.mp3", "test.png"),
    Track("Track 3", "Track_3.mp3", "test.png")
  ]

  /** The `<audio>` element, as far as the component reads and writes it. */
  class AudioElement {
    var src: string
    var paused: bool
    /** The playback position in seconds. */
    var currentTime: real
    /** The length of the loaded track in seconds, set by the browser once
        the track's metadata has loaded. */
    var duration: real
    /** Whether a callback that resumes playback is assigned to `onloadeddata`. */
    var resumeOnLoadedData: bool

    /** A fresh element: paused at the start, no callback assigned. */
    constructor (src: string)
      ensures this.src == src && paused && currentTime == 0.0 && duration == 0.0
      ensures !resumeOnLoadedData
    {
      this.src := src;
      paused := true;
      currentTime := 0.0;
      duration := 0.0;
      resumeOnLoadedData := false;
    }

    /** `play()`: the element leaves the paused state; a track that has
        played to its end starts again from the beginning. */
    method Play()
      modifies this`paused, this`currentTime
      ensures !paused && RestartedIfEnded()
    {
      if currentTime >= duration > 0.0 {
        currentTime := 0.0;
      }
      paused := false;
    }

    /** The position after `play()`: back to 0 when playback had reached the
        end of a loaded track, unchanged otherwise. */
    twostate predicate RestartedIfEnded()
      reads this
    {
      currentTime == if old(currentTime) >= old(duration) > 0.0 then 0.0 else old(currentTime)
    }

    /** `pause()`. */
    method Pause()
      modifies this`paused
      ensures paused
    {
      paused := true;
    }

    /** `load()`: the media load algorithm pauses the element and moves the
        position back to the start. */
    method Load()
      modifies this`paused, this`currentTime
      ensures paused && currentTime == 0.0
    {
      paused := true;
      currentTime := 0.0;
    }
  }

  class MusicPlayer {
    const playlist: seq<Track>
    const audio: AudioElement
    var currentTrack: nat
    var isPlaying: bool
    /** The displayed position in seconds. */
    var currentTime: real
    /** The displayed track length in seconds. */
    var duration: real
    /** Whether the audio-analysis context is running rather than suspended. */
    var contextRunning: bool

    /** The selected track is a playlist entry and is the one the element
        plays; times are never negative. */
    ghost predicate Valid()
      reads this, audio
    {
      |playlist| > 0 && currentTrack < |playlist| && audio.src == playlist[currentTrack].src
      && currentTime >= 0.0 && duration >= 0.0
      && audio.currentTime >= 0.0 && audio.duration >= 0.0
    }

    /** While the play button shows "play", no sound comes out. */
    ghost predicate SilentUnlessPlaying()
      reads this, audio
    {
      !isPlaying ==> audio.paused
    }

    /** The first track selected, nothing playing, the element at its start. */
    constructor (playlist: seq<Track>, contextRunning: bool)
      requires |playlist| > 0
      ensures Valid() && SilentUnlessPlaying() && fresh(audio)
      ensures this.playlist == playlist && this.contextRunning == contextRunning
      ensures currentTrack == 0 && !isPlaying && currentTime == 0.0 && duration == 0.0
      ensures audio.paused && audio.currentTime == 0.0 && !audio.resumeOnLoadedData
    {
      this.playlist := playlist;
      audio := new AudioElement(playlist[0].src);
      currentTrack := 0;
      isPlaying := false;
      currentTime := 0.0;
      duration := 0.0;
      this.contextRunning := contextRunning;
    }

    /** `handlePlayPause`: pauses the element and suspends the analysis
        context when playing, plays and resumes both otherwise, then inverts
        the flag. Track, displayed time and durations are untouched; the
        element's position moves only when `play()` restarts an ended track. */
    method HandlePlayPause()
      requires Valid()
      modifies this`isPlaying, this`contextRunning, audio`paused, audio`currentTime
      ensures Valid()
      ensures isPlaying == !old(isPlaying)
      ensures audio.paused == old(isPlaying) && contextRunning == !old(isPlaying)
      ensures if old(isPlaying) then audio.currentTime == old(audio.currentTime) else audio.RestartedIfEnded()
      ensures old(SilentUnlessPlaying()) ==> SilentUnlessPlaying()
    {
      if isPlaying {
        audio.Pause();
        contextRunning := false;
      } else {
        audio.Play();
        contextRunning := true;
      }
      isPlaying := !isPlaying;
    }

    /** `handleStop`: paused, back at the start, flag cleared, whatever came
        before. The selected track and the displayed time stay as they were. */
    method HandleStop()
      requires Valid()
      modifies this`isPlaying, audio`paused, audio`currentTime
      ensures Valid()
      ensures audio.paused && audio.currentTime == 0.0 && !isPlaying
      ensures SilentUnlessPlaying()
    {
      audio.Pause();
      audio.currentTime := 0.0;
      isPlaying := false;
    }

    /** The `ended` listener: clears the flag and nothing else, so the same
        track stays selected and the position stays at its end. The browser
        pauses the element before it reports the end. */
    method HandleAudioEnd()
      requires Valid()
      modifies this`isPlaying
      ensures Valid() && !isPlaying
      ensures audio.paused ==> SilentUnlessPlaying()
    {
      isPlaying := false;
    }

    /** `handleTimeUpdate`: the displayed time follows the element. */
    method HandleTimeUpdate()
      requires Valid()
      modifies this`currentTime
      ensures Valid() && currentTime == audio.currentTime
      ensures old(SilentUnlessPlaying()) ==> SilentUnlessPlaying()
    {
      currentTime := audio.currentTime;
    }

    /** `handleLoadedMetadata`: the displayed duration follows the element. */
    method HandleLoadedMetadata()
      requires Valid()
      modifies this`duration
      ensures Valid() && duration == audio.duration
      ensures old(SilentUnlessPlaying()) ==> SilentUnlessPlaying()
    {
      duration := audio.duration;
    }

    /** The state a switch to track `index` leaves behind, common to the
        handler as written and as intended: `index` selected, its source
        loaded, the element paused at the start, and only when the element
        was paused beforehand is the flag cleared at once. */
    twostate predicate SwitchedTo(index: nat)
      reads this, audio
    {
      index < |playlist| && currentTrack == index && audio.src == playlist[index].src
      && audio.paused && audio.currentTime == 0.0
      && isPlaying == (if old(audio.paused) then false else old(isPlaying))
    }

    /** `handleTrackChange(index)`: reads the playback intent from the
        element, switches source and reloads. When the element was playing it
        assigns the resume callback to `onloadeddata`; otherwise it clears the
        flag but leaves any callback assigned earlier in place. */
    method HandleTrackChange(index: nat)
      requires Valid() && index < |playlist|
      modifies this`currentTrack, this`isPlaying
      modifies audio`src, audio`paused, audio`currentTime, audio`resumeOnLoadedData
      ensures Valid() && SilentUnlessPlaying() && SwitchedTo(index)
      ensures audio.resumeOnLoadedData == (old(audio.resumeOnLoadedData) || !old(audio.paused))
    {
      var wasPlaying := !audio.paused;
      currentTrack := index;
      audio.src := playlist[index].src;
      audio.Load();
      if wasPlaying {
        audio.resumeOnLoadedData := true;
      } else {
        isPlaying := false;
      }
    }

    /** The track change as its comment intends: an earlier resume callback
        is cleared when the element was paused, so the callback is assigned
        exactly when the element was playing. */
    method HandleTrackChangeIntended(index: nat)
      requires Valid() && index < |playlist|
      modifies this`currentTrack, this`isPlaying
      modifies audio`src, audio`paused, audio`currentTime, audio`resumeOnLoadedData
      ensures Valid() && SilentUnlessPlaying() && SwitchedTo(index)
      ensures audio.resumeOnLoadedData == !old(audio.paused)
    {
      var wasPlaying := !audio.paused;
      currentTrack := index;
      audio.src := playlist[index].src;
      audio.Load();
      audio.resumeOnLoadedData := wasPlaying;
      if !wasPlaying {
        isPlaying := false;
      }
    }

    /** The `loadeddata` event: a callback assigned by a track change plays
        the element and sets the flag; it stays assigned afterwards. */
    method HandleLoadedData()
      requires Valid()
      modifies this`isPlaying, audio`paused, audio`currentTime
      ensures Valid()
      ensures old(audio.resumeOnLoadedData) ==> !audio.paused && isPlaying && audio.RestartedIfEnded()
      ensures !old(audio.resumeOnLoadedData) ==>
        audio.paused == old(audio.paused) && isPlaying == old(isPlaying) && audio.currentTime == old(audio.currentTime)
      ensures old(SilentUnlessPlaying()) ==> SilentUnlessPlaying()
    {
      if audio.resumeOnLoadedData {
        audio.Play();
        isPlaying := true;
      }
    }

    /** `handleSeek`: slider value `v` (the range input's 0 to 100) moves
        both the element and the displayed time to that share of the duration. */
    method HandleSeek(v: real)
      requires Valid() && 0.0 <= v <= 100.0
      modifies this`currentTime, audio`currentTime
      ensures Valid()
      ensures currentTime == audio.currentTime == SeekPosition(v, duration)
      ensures 0.0 <= currentTime <= duration
      ensures old(SilentUnlessPlaying()) ==> SilentUnlessPlaying()
    {
      var newTime := SeekPosition(v, duration);
      audio.currentTime := newTime;
      currentTime := newTime;
    }

    /** `handleNextTrack`: switches to the following track, wrapping round. */
    method HandleNextTrack()
      requires Valid()
      modifies this`currentTrack, this`isPlaying
      modifies audio`src, audio`paused, audio`currentTime, audio`resumeOnLoadedData
      ensures Valid() && SilentUnlessPlaying()
      ensures SwitchedTo(NextIndex(old(currentTrack), |playlist|))
      ensures audio.resumeOnLoadedData == (old(audio.resumeOnLoadedData) || !old(audio.paused))
    {
      HandleTrackChange(NextIndex(currentTrack, |playlist|));
    }

    /** `handlePreviousTrack`: switches to the preceding track, wrapping round. */
    method HandlePreviousTrack()
      requires Valid()
      modifies this`currentTrack, this`isPlaying
      modifies audio`src, audio`paused, audio`currentTime, audio`resumeOnLoadedData
      ensures Valid() && SilentUnlessPlaying()
      ensures SwitchedTo(PreviousIndex(old(currentTrack), |playlist|))
      ensures audio.resumeOnLoadedData == (old(audio.resumeOnLoadedData) || !old(audio.paused))
    {
      HandleTrackChange(PreviousIndex(currentTrack, |playlist|));
    }

    /** The two labels under the slider: elapsed and total time as `M:SS`. */
    function Labels(): (labels: (string, string))
      reads this
      requires currentTime >= 0.0 && duration >= 0.0
      ensures labels.0 == TimeLabel.FormatSeconds(currentTime.Floor)
      ensures labels.1 == TimeLabel.FormatSeconds(duration.Floor)
    {
      TimeLabel.WholeSecondsLabel(currentTime);
      TimeLabel.WholeSecondsLabel(duration);
      (TimeLabel.ComponentLabel(currentTime), TimeLabel.ComponentLabel(duration))
    }
  }
}
