/** The arithmetic behind the transport buttons and the seek slider: which
    track `next` and `previous` select in a playlist of `n` tracks, and which
    position a slider percentage stands for. */
module Transport {

  /** `(i + 1) % n`: the track after `i`, wrapping from the last back to the first. */
  function NextIndex(i: nat, n: nat): (r: nat)
    requires i < n
    ensures r < n
    ensures r == if i == n - 1 then 0 else i + 1
  {
    (i + 1) % n
  }

  /** `(i - 1 + n) % n`: the track before `i`, wrapping from the first to the
      last. The dividend is never negative, so JavaScript's truncating `%`
      agrees with Dafny's. */
  function PreviousIndex(i: nat, n: nat): (r: nat)
    requires i < n
    ensures r < n
    ensures r == if i == 0 then n - 1 else i - 1
  {
    (i - 1 + n) % n
  }

  lemma PreviousUndoesNext(i: nat, n: nat)
    requires i < n
    ensures PreviousIndex(NextIndex(i, n), n) == i
  {
  }

  lemma NextUndoesPrevious(i: nat, n: nat)
    requires i < n
    ensures NextIndex(PreviousIndex(i, n), n) == i
  {
  }

  /** The track reached from `i` by pressing `next` `k` times. */
  function Advance(i: nat, k: nat, n: nat): (r: nat)
    requires i < n
    ensures r < n
  {
    if k == 0 then i else NextIndex(Advance(i, k - 1, n), n)
  }

  /** Below the end of the playlist, `k` presses of `next` move `k` places. */
  lemma {:induction false} AdvanceWithinPlaylist(i: nat, k: nat, n: nat)
    requires i + k < n
    ensures Advance(i, k, n) == i + k
  {
    if k > 0 {
      AdvanceWithinPlaylist(i, k - 1, n);
    }
  }

  /** `j + k` presses are `j` presses followed by `k` more. */
  lemma {:induction false} AdvanceSplits(i: nat, j: nat, k: nat, n: nat)
    requires i < n
    ensures Advance(i, j + k, n) == Advance(Advance(i, j, n), k, n)
  {
    if k > 0 {
      AdvanceSplits(i, j, k - 1, n);
    }
  }

  /** Pressing `next` `n - i` times from `i` lands on the first track, and
      pressing it once per track comes back to the starting track. */
  lemma FullCycle(i: nat, n: nat)
    requires i < n
    ensures Advance(i, n - i, n) == 0
    ensures Advance(i, n, n) == i
  {
    AdvanceWithinPlaylist(i, n - 1 - i, n);
    assert Advance(i, n - i, n) == NextIndex(n - 1, n);
    AdvanceSplits(i, n - i, i, n);
    if i > 0 {
      AdvanceWithinPlaylist(0, i, n);
    }
  }

  /** `(v / 100) * duration`: the position a slider value `v` in `[0, 100]`
      stands for. */
  function SeekPosition(v: real, duration: real): (t: real)
    requires 0.0 <= v <= 100.0 && duration >= 0.0
    ensures 0.0 <= t <= duration
    ensures duration == 0.0 ==> t == 0.0
    ensures v == 0.0 ==> t == 0.0
    ensures v == 100.0 ==> t == duration
  {
    var fraction := v / 100.0;
    MulBounds(fraction, duration);
    assert v == 100.0 ==> fraction == 1.0;
    assert v == 0.0 ==> fraction == 0.0;
    fraction * duration
  }

  lemma MulBounds(f: real, d: real)
    requires 0.0 <= f <= 1.0 && d >= 0.0
    ensures 0.0 <= f * d <= d
  {
    assert d - f * d == (1.0 - f) * d;
  }

  lemma DivBounds(t: real, d: real)
    requires 0.0 <= t <= d && d > 0.0
    ensures 0.0 <= t / d <= 1.0
  {
    assert (t / d) * d == t;
  }

  /** A further-right slider value never means an earlier position. */
  lemma SeekMonotone(v: real, w: real, duration: real)
    requires 0.0 <= v <= w <= 100.0 && duration >= 0.0
    ensures SeekPosition(v, duration) <= SeekPosition(w, duration)
  {
    MulBounds((w - v) / 100.0, duration);
    assert SeekPosition(w, duration) - SeekPosition(v, duration) == ((w - v) / 100.0) * duration;
  }

  /** `(currentTime / duration) * 100`: the slider value displayed for a
      position, where the duration is known and positive. */
  function SliderValue(t: real, duration: real): real
    requires duration > 0.0
  {
    (t / duration) * 100.0
  }

  /** A position within the track is displayed within the slider's range. */
  lemma SliderValueInRange(t: real, duration: real)
    requires 0.0 <= t <= duration && duration > 0.0
    ensures 0.0 <= SliderValue(t, duration) <= 100.0
  {
    DivBounds(t, duration);
    MulBounds(t / duration, 100.0);
  }

  /** Seeking to a slider value makes the slider display that same value. */
  lemma SeekThenDisplay(v: real, duration: real)
    requires 0.0 <= v <= 100.0 && duration > 0.0
    ensures SliderValue(SeekPosition(v, duration), duration) == v
  {
    var t := SeekPosition(v, duration);
    assert t / duration == v / 100.0;
  }
}
