/** Playing a sound over an open voice connection and then releasing it
    (`play_custom_message`, `play_exit_sound`).

    If the path is set and names an existing file, playback starts, the
    connection is polled once per time unit until it no longer reports
    playing, and the connection is disconnected; otherwise the connection is
    disconnected at once. Either way exactly one disconnect ends the sequence. */
module Playback {
  import opened Gateway

  /** The file can be played: the path is set (not None, not empty) and exists. */
  predicate Playable(path: Option<string>, files: set<string>)
  {
    IsSet(path) && FileExists(files, path.value)
  }

  /** Index of the first poll of `is_playing()` that reports false. */
  function FirstFalse(isPlaying: seq<bool>): (k: nat)
    requires false in isPlaying
    ensures k < |isPlaying| && !isPlaying[k]
    ensures forall i :: 0 <= i < k ==> isPlaying[i]
  {
    if !isPlaying[0] then 0 else 1 + FirstFalse(isPlaying[1..])
  }

  /** `k` copies of `a`. */
  function Repeat(a: Action, k: nat): (t: seq<Action>)
    ensures |t| == k && forall i :: 0 <= i < k ==> t[i] == a
  {
    if k == 0 then [] else [a] + Repeat(a, k - 1)
  }

  /** What the playback sequence does when `isPlaying` lists the successive answers of
      `vc.is_playing()` and `files` is the set of paths that exist. */
  function PlaybackTrace(path: Option<string>, files: set<string>, isPlaying: seq<bool>): seq<Action>
    requires false in isPlaying
  {
    if Playable(path, files) then [Play(path.value)] + Repeat(Sleep(1), FirstFalse(isPlaying)) + [Disconnect]
    else [Disconnect]
  }

  /** play_custom_message(vc, path). */
  method PlayCustomMessage(path: Option<string>, files: set<string>, isPlaying: seq<bool>)
    returns (trace: seq<Action>)
    requires false in isPlaying
    ensures trace == PlaybackTrace(path, files, isPlaying)
  {
    if IsSet(path) && FileExists(files, path.value) {
      trace := [Play(path.value)];
      var polls := 0;
      while isPlaying[polls]
        invariant polls <= FirstFalse(isPlaying)
        invariant trace == [Play(path.value)] + Repeat(Sleep(1), polls)
        decreases FirstFalse(isPlaying) - polls
      {
        trace := trace + [Sleep(1)];
        polls := polls + 1;
      }
      trace := trace + [Disconnect];
    } else {
      trace := [Disconnect];
    }
  }

  /** play_exit_sound(vc): the same sequence with the configured exit sound. */
  method PlayExitSound(exitSound: Option<string>, files: set<string>, isPlaying: seq<bool>)
    returns (trace: seq<Action>)
    requires false in isPlaying
    ensures trace == PlaybackTrace(exitSound, files, isPlaying)
  {
    trace := PlayCustomMessage(exitSound, files, isPlaying);
  }

  lemma {:induction false} RepeatSleepShape(k: nat)
    ensures Occurrences(Repeat(Sleep(1), k), Disconnect) == 0
    ensures Connects(Repeat(Sleep(1), k)) == 0
    ensures Waits(Repeat(Sleep(1), k)) == seq(k, i => 1)
  {
    if k > 0 {
      RepeatSleepShape(k - 1);
      assert Repeat(Sleep(1), k)[1..] == Repeat(Sleep(1), k - 1);
    }
  }

  /** Playback always ends in exactly one disconnect and never connects; it plays exactly
      when the path is set and the file exists, and then it first plays that file and waits
      one unit per poll that reports playing. */
  lemma PlaybackDisconnectsOnce(path: Option<string>, files: set<string>, isPlaying: seq<bool>)
    requires false in isPlaying
    ensures var t := PlaybackTrace(path, files, isPlaying);
      Occurrences(t, Disconnect) == 1 && t[|t| - 1] == Disconnect && Connects(t) == 0 &&
      (Playable(path, files) <==> (exists a :: a in t && a.Play?)) &&
      (Playable(path, files) ==> t[0] == Play(path.value) && Waits(t) == seq(FirstFalse(isPlaying), i => 1)) &&
      (!Playable(path, files) ==> t == [Disconnect])
  {
    var t := PlaybackTrace(path, files, isPlaying);
    if Playable(path, files) {
      var k := FirstFalse(isPlaying);
      var mid := Repeat(Sleep(1), k);
      RepeatSleepShape(k);
      assert t == [Play(path.value)] + (mid + [Disconnect]);
      OccurrencesAppend([Play(path.value)], mid + [Disconnect], Disconnect);
      OccurrencesAppend(mid, [Disconnect], Disconnect);
      ConnectsAppend([Play(path.value)], mid + [Disconnect]);
      ConnectsAppend(mid, [Disconnect]);
      WaitsAppend([Play(path.value)], mid + [Disconnect]);
      WaitsAppend(mid, [Disconnect]);
      assert t[0].Play?;
    }
  }

  /** Playback over a held connection makes no connect call and releases it. */
  lemma PlaybackReleases(path: Option<string>, files: set<string>, isPlaying: seq<bool>)
    requires false in isPlaying
    ensures ConnectsOnlyWhenFree(true, PlaybackTrace(path, files, isPlaying))
    ensures !HeldAfter(true, PlaybackTrace(path, files, isPlaying))
  {
    if Playable(path, files) {
      var mid := Repeat(Sleep(1), FirstFalse(isPlaying));
      SleepsKeepHeld(FirstFalse(isPlaying));
      FreeAppend(true, [Play(path.value)], mid + [Disconnect]);
      FreeAppend(true, mid, [Disconnect]);
      assert PlaybackTrace(path, files, isPlaying) == [Play(path.value)] + (mid + [Disconnect]);
    }
  }

  lemma {:induction false} SleepsKeepHeld(k: nat)
    ensures ConnectsOnlyWhenFree(true, Repeat(Sleep(1), k)) && HeldAfter(true, Repeat(Sleep(1), k))
  {
    if k > 0 {
      SleepsKeepHeld(k - 1);
      assert Repeat(Sleep(1), k)[1..] == Repeat(Sleep(1), k - 1);
    }
  }
}
