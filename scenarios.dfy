/** Sequences of user actions and browser events on the component's own
    three-track playlist, with what the controller's contracts let a caller
    conclude. Browser-side changes (the position reaching the end, the
    element pausing there) are written as direct updates of the element. */
module Scenarios {
  import opened Player
  import TimeLabel

  /** From the first track, `next` twice selects the third; once more wraps
      to the first. */
  method NextWrapsAround() returns (afterTwo: nat, afterThree: nat)
    ensures afterTwo == 2 && afterThree == 0
  {
    var p := new MusicPlayer(SourcePlaylist, false);
    p.HandleNextTrack();
    p.HandleNextTrack();
    afterTwo := p.currentTrack;
    p.HandleNextTrack();
    afterThree := p.currentTrack;
  }

  /** `previous` from the first track selects the last. */
  method PreviousFromFirst() returns (index: nat)
    ensures index == |SourcePlaylist| - 1
  {
    var p := new MusicPlayer(SourcePlaylist, false);
    p.HandlePreviousTrack();
    index := p.currentTrack;
  }

  /** Switching tracks while playing: the flag stays set through the switch,
      and once the new track's data has loaded it is playing. */
  method ResumeAcrossTrackChange() returns (playingDuringSwitch: bool, playingAfterLoad: bool, elementPlaying: bool, contextRunning: bool)
    ensures playingDuringSwitch && playingAfterLoad && elementPlaying && contextRunning
  {
    var p := new MusicPlayer(SourcePlaylist, false);
    p.HandlePlayPause();
    p.HandleTrackChange(1);
    playingDuringSwitch := p.isPlaying;
    p.HandleLoadedData();
    playingAfterLoad := p.isPlaying;
    elementPlaying, contextRunning := !p.audio.paused, p.contextRunning;
  }

  /** A track that plays to its end stays selected, at its end, with the
      flag cleared; `stop` would instead have gone back to the start. */
  method NaturalEndKeepsTrack() returns (index: nat, playing: bool, position: real)
    ensures index == 1 && !playing && position == 200.0
  {
    var p := new MusicPlayer(SourcePlaylist, false);
    p.HandleTrackChange(1);
    p.audio.duration := 200.0;
    p.HandleLoadedMetadata();
    p.HandlePlayPause();
    p.audio.currentTime := 200.0;
    p.audio.paused := true;
    p.HandleAudioEnd();
    index, playing, position := p.currentTrack, p.isPlaying, p.audio.currentTime;
  }

  /** Pressing play on a track that has played to its end starts it again
      from the beginning, on the same track. */
  method PlayAfterEndRestarts() returns (index: nat, playing: bool, position: real)
    ensures index == 1 && playing && position == 0.0
  {
    var p := new MusicPlayer(SourcePlaylist, false);
    p.HandleTrackChange(1);
    p.audio.duration := 200.0;
    p.HandleLoadedMetadata();
    p.HandlePlayPause();
    p.audio.currentTime := 200.0;
    p.audio.paused := true;
    p.HandleAudioEnd();
    p.HandlePlayPause();
    index, playing, position := p.currentTrack, p.isPlaying, p.audio.currentTime;
  }

  /** At 125 seconds into a 200-second track the labels read "2:05" and "3:20". */
  method LabelsAtPosition() returns (elapsed: string, total: string)
    ensures elapsed == "2:05" && total == "3:20"
  {
    var p := new MusicPlayer(SourcePlaylist, false);
    p.audio.duration := 200.0;
    p.HandleLoadedMetadata();
    p.HandleSeek(62.5);
    TimeLabel.LabelExamples();
    assert p.currentTime == 125.0;
    assert p.currentTime.Floor == 125 && p.duration.Floor == 200;
    var labels := p.Labels();
    elapsed, total := labels.0, labels.1;
  }

  /** The callback a playing track change assigns outlives it: after the
      user pauses and picks another track, the element resumes by itself once
      the new data has loaded and the button shows "pause", while the
      analysis context the pause suspended stays suspended. */
  method StaleResumeAfterPause() returns (playing: bool, elementPlaying: bool, contextSuspended: bool)
    ensures playing && elementPlaying && contextSuspended
  {
    var p := new MusicPlayer(SourcePlaylist, false);
    p.HandlePlayPause();
    p.HandleNextTrack();
    p.HandleLoadedData();
    p.HandlePlayPause();
    p.HandleNextTrack();
    assert !p.isPlaying;
    p.HandleLoadedData();
    playing, elementPlaying, contextSuspended := p.isPlaying, !p.audio.paused, !p.contextRunning;
  }

  /** The same actions with the intended track change: the paused choice is
      kept and the element stays paused. */
  method IntendedStaysPaused() returns (playing: bool, elementPlaying: bool)
    ensures !playing && !elementPlaying
  {
    var p := new MusicPlayer(SourcePlaylist, false);
    p.HandlePlayPause();
    p.HandleTrackChangeIntended(1);
    p.HandleLoadedData();
    p.HandlePlayPause();
    p.HandleTrackChangeIntended(2);
    p.HandleLoadedData();
    playing, elementPlaying := p.isPlaying, !p.audio.paused;
  }
}
