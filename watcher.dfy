/** The voice-state handler (`on_voice_state_update`) for one event in one guild.

    Bot members are ignored. A join or move (the member is now in a channel
    that differs from the previous one) and a leave (the member was in a
    channel and is now in none) first tear down the guild's existing voice
    connection and wait one unit; then a join connects to the new channel when
    a sound resolves for the member, and a leave connects to the channel left
    when an exit sound is configured. A successful connection is used for one
    playback, which releases it. An exception escaping the connect step is
    caught and logged, and the event ends there. */
module Watcher {
  import opened Gateway
  import opened Backoff
  import opened Playback
  import opened SoundConfig

  datatype EventKind = JoinOrMove | Leave | NoChange

  /** How the handler classifies a change from channel `before` to channel `after`. */
  function Classify(before: Option<ChannelId>, after: Option<ChannelId>): (k: EventKind)
    ensures k == JoinOrMove <==> after.Some? && before != after
    ensures k == Leave <==> before.Some? && after.None?
    ensures k == NoChange <==> before == after
  {
    if after.Some? && before != after then JoinOrMove
    else if before.Some? && after.None? then Leave
    else NoChange
  }

  /** What the transport and the file system answer during one event. */
  datatype Environment = Environment(
    files: set<string>,                 // paths for which os.path.exists holds
    script: nat -> ConnectOutcome,      // answer to the k-th connect call
    isPlaying: seq<bool>)               // successive answers of vc.is_playing()

  predicate WellFormed(env: Environment)
  {
    false in env.isPlaying
  }

  /** The effects of one event and the guild's voice client afterwards; `caught` tells that an
      exception reached the handler's catch-all. */
  datatype HandlerRun = HandlerRun(trace: seq<Action>, client: Option<VoiceClient>, caught: bool)

  /** Disconnecting the guild's existing voice client, then settling for one unit. */
  function Teardown(current: Option<VoiceClient>): seq<Action>
  {
    if current.Some? then [Disconnect, Sleep(1)] else []
  }

  lemma TeardownFrees(current: Option<VoiceClient>)
    ensures Connects(Teardown(current)) == 0
    ensures ConnectsOnlyWhenFree(current.Some?, Teardown(current))
    ensures !HeldAfter(current.Some?, Teardown(current))
  {
    if current.Some? {
      var t := Teardown(current);
      assert t[1..] == [Sleep(1)] && t[1..][1..] == [];
      assert HeldAfter(false, t[1..]) == HeldAfter(false, []);
      assert HeldAfter(true, t) == HeldAfter(false, t[1..]);
    }
  }

  /** The actions of connecting to `channel` with the default retry budget and, on success,
      playing `sound`. */
  function SessionTail(channel: ChannelId, sound: Option<string>, env: Environment): seq<Action>
    requires WellFormed(env)
  {
    var run := ExpectedRun(channel, env.script, DefaultRetryAttempts);
    if run.result.Joined? then run.trace + PlaybackTrace(sound, env.files, env.isPlaying) else run.trace
  }

  /** A session after the actions `prefix`: the connection is always released, and the
      handler catches exactly the exception the connect step raises. */
  function Session(prefix: seq<Action>, channel: ChannelId, sound: Option<string>, env: Environment): HandlerRun
    requires WellFormed(env)
  {
    HandlerRun(prefix + SessionTail(channel, sound, env), None,
               ExpectedRun(channel, env.script, DefaultRetryAttempts).result.Raised?)
  }

  /** The join-or-move branch, for a member now in `channel`. */
  function JoinRun(current: Option<VoiceClient>, member: Member, channel: ChannelId,
                   cfg: ConfigDocument, env: Environment): HandlerRun
    requires WellFormed(env)
  {
    var sound := ResolveSound(cfg.userSoundMap, member.id, cfg.defaultSound);
    if IsSet(sound) then Session(Teardown(current), channel, sound, env)
    else HandlerRun(Teardown(current), None, false)
  }

  /** The leave branch, for a member who left `channel`. */
  function LeaveRun(current: Option<VoiceClient>, channel: ChannelId, cfg: ConfigDocument, env: Environment): HandlerRun
    requires WellFormed(env)
  {
    if IsSet(cfg.exitSound) then Session(Teardown(current), channel, cfg.exitSound, env)
    else HandlerRun(Teardown(current), None, false)
  }

  /** The whole handler, for a guild whose voice client is `current` and a configuration `cfg`. */
  function Handle(current: Option<VoiceClient>, member: Member, before: Option<ChannelId>,
                  after: Option<ChannelId>, cfg: ConfigDocument, env: Environment): HandlerRun
    requires WellFormed(env)
  {
    if member.isBot then HandlerRun([], current, false)
    else match Classify(before, after)
      case NoChange => HandlerRun([], current, false)
      case JoinOrMove => JoinRun(current, member, after.value, cfg, env)
      case Leave => LeaveRun(current, before.value, cfg, env)
  }

  /** A guild's voice state as the handler sees and changes it. */
  class Guild {
    var voiceClient: Option<VoiceClient>
    var log: seq<Action>

    constructor (current: Option<VoiceClient>)
      ensures voiceClient == current && log == []
    {
      voiceClient := current;
      log := [];
    }

    /** Disconnect the existing voice client, if any, and settle for one unit. */
    method TearDown()
      modifies this
      ensures voiceClient == None && log == old(log) + Teardown(old(voiceClient))
    {
      if voiceClient.Some? {
        log := log + [Disconnect];
        voiceClient := None;
        log := log + [Sleep(1)];
      }
    }

    /** Connect to `channel` and, when a client is returned, play `sound` over it; for the
        leave branch the sound is the exit sound and the exit-sound playback is used. */
    method ConnectAndPlay(channel: ChannelId, sound: Option<string>, exit: bool, env: Environment)
      returns (caught: bool)
      requires WellFormed(env) && voiceClient == None
      modifies this
      ensures log == old(log) + SessionTail(channel, sound, env) && voiceClient == None
      ensures caught == ExpectedRun(channel, env.script, DefaultRetryAttempts).result.Raised?
    {
      var result, attempts := ConnectWithBackoff(channel, env.script, DefaultRetryAttempts);
      log := log + attempts;
      caught := result.Raised?;
      if result.Joined? {
        voiceClient := Some(result.client);
        var playback;
        if exit {
          playback := PlayExitSound(sound, env.files, env.isPlaying);
        } else {
          playback := PlayCustomMessage(sound, env.files, env.isPlaying);
        }
        log := log + playback;
        assert log == old(log) + (attempts + playback);
        voiceClient := None;
      }
    }

    /** The join-or-move branch of the handler. */
    method OnJoin(member: Member, channel: ChannelId, cfg: Config, env: Environment)
      returns (caught: bool)
      requires WellFormed(env)
      modifies this
      ensures var h := JoinRun(old(voiceClient), member, channel, cfg.Document(), env);
        log == old(log) + h.trace && voiceClient == h.client && caught == h.caught
    {
      caught := false;
      TearDown();
      var sound := ResolveSound(cfg.userSoundMap, member.id, cfg.defaultSound);
      if IsSet(sound) {
        caught := ConnectAndPlay(channel, sound, false, env);
      }
    }

    /** The leave branch of the handler. */
    method OnLeave(channel: ChannelId, cfg: Config, env: Environment)
      returns (caught: bool)
      requires WellFormed(env)
      modifies this
      ensures var h := LeaveRun(old(voiceClient), channel, cfg.Document(), env);
        log == old(log) + h.trace && voiceClient == h.client && caught == h.caught
    {
      caught := false;
      TearDown();
      if IsSet(cfg.exitSound) {
        caught := ConnectAndPlay(channel, cfg.exitSound, true, env);
      }
    }

    /** on_voice_state_update(member, before, after). */
    method OnVoiceStateUpdate(member: Member, before: Option<ChannelId>, after: Option<ChannelId>,
                              cfg: Config, env: Environment)
      returns (caught: bool)
      requires WellFormed(env)
      modifies this
      ensures var h := Handle(old(voiceClient), member, before, after, cfg.Document(), env);
        log == old(log) + h.trace && voiceClient == h.client && caught == h.caught
    {
      caught := false;
      if member.isBot {
        return;
      }
      if after.Some? && before != after {
        caught := OnJoin(member, after.value, cfg, env);
      } else if before.Some? && after.None? {
        caught := OnLeave(before.value, cfg, env);
      }
    }
  }

  /** For bot members the handler does nothing at all. */
  lemma BotIgnored(current: Option<VoiceClient>, member: Member, before: Option<ChannelId>,
                   after: Option<ChannelId>, cfg: ConfigDocument, env: Environment)
    requires WellFormed(env) && member.isBot
    ensures Handle(current, member, before, after, cfg, env) == HandlerRun([], current, false)
  {
  }

  /** An event that does not change the member's channel, including one with no channel on
      either side, triggers no action. */
  lemma NoChangeNoAction(current: Option<VoiceClient>, member: Member, before: Option<ChannelId>,
                         after: Option<ChannelId>, cfg: ConfigDocument, env: Environment)
    requires WellFormed(env) && before == after
    ensures Handle(current, member, before, after, cfg, env) == HandlerRun([], current, false)
  {
  }

  /** A session makes between one and the default retry budget of connect calls, all to
      `channel`, never connects while holding a connection, and ends without one. */
  lemma SessionTailShape(channel: ChannelId, sound: Option<string>, env: Environment)
    requires WellFormed(env)
    ensures var t := SessionTail(channel, sound, env);
      1 <= Connects(t) <= DefaultRetryAttempts &&
      (forall a :: a in t && a.Connect? ==> a.channel == channel) &&
      ConnectsOnlyWhenFree(false, t) && !HeldAfter(false, t)
  {
    SessionTailConnects(channel, sound, env);
    SessionTailFree(channel, sound, env);
  }

  lemma SessionTailConnects(channel: ChannelId, sound: Option<string>, env: Environment)
    requires WellFormed(env)
    ensures var t := SessionTail(channel, sound, env);
      1 <= Connects(t) <= DefaultRetryAttempts && (forall a :: a in t && a.Connect? ==> a.channel == channel)
  {
    var run := ExpectedRun(channel, env.script, DefaultRetryAttempts);
    CallsBounded(channel, env.script, DefaultRetryAttempts);
    RunTargetsChannel(channel, env.script, DefaultRetryAttempts);
    if run.result.Joined? {
      var p := PlaybackTrace(sound, env.files, env.isPlaying);
      PlaybackDisconnectsOnce(sound, env.files, env.isPlaying);
      ConnectsAppend(run.trace, p);
      NoConnects(p);
    }
  }

  lemma SessionTailFree(channel: ChannelId, sound: Option<string>, env: Environment)
    requires WellFormed(env)
    ensures var t := SessionTail(channel, sound, env);
      ConnectsOnlyWhenFree(false, t) && !HeldAfter(false, t)
  {
    var run := ExpectedRun(channel, env.script, DefaultRetryAttempts);
    RunTargetsChannel(channel, env.script, DefaultRetryAttempts);
    if run.result.Joined? {
      var p := PlaybackTrace(sound, env.files, env.isPlaying);
      PlaybackReleases(sound, env.files, env.isPlaying);
      FreeAppend(false, run.trace, p);
    }
  }

  /** On a join or move, a connect is attempted exactly when a sound resolves for the member
      (their mapped sound, else the default), every connect targets the member's new channel,
      and at most the default retry budget of calls is made. */
  lemma JoinConnectsToNewChannel(current: Option<VoiceClient>, member: Member, before: Option<ChannelId>,
                                 after: Option<ChannelId>, cfg: ConfigDocument, env: Environment)
    requires WellFormed(env) && !member.isBot && after.Some? && before != after
    ensures var t := Handle(current, member, before, after, cfg, env).trace;
      (Connects(t) > 0 <==> IsSet(ResolveSound(cfg.userSoundMap, member.id, cfg.defaultSound))) &&
      Connects(t) <= DefaultRetryAttempts &&
      (forall a :: a in t && a.Connect? ==> a.channel == after.value)
  {
    var sound := ResolveSound(cfg.userSoundMap, member.id, cfg.defaultSound);
    var t0 := Teardown(current);
    assert Connects(t0) == 0 by {
      if current.Some? { assert t0[1..][1..] == []; }
    }
    if IsSet(sound) {
      SessionTailShape(after.value, sound, env);
      ConnectsAppend(t0, SessionTail(after.value, sound, env));
    }
  }

  /** On a leave, a connect is attempted exactly when an exit sound is configured, and every
      connect targets the channel the member left. */
  lemma LeaveConnectsToOldChannel(current: Option<VoiceClient>, member: Member, before: Option<ChannelId>,
                                  after: Option<ChannelId>, cfg: ConfigDocument, env: Environment)
    requires WellFormed(env) && !member.isBot && before.Some? && after.None?
    ensures var t := Handle(current, member, before, after, cfg, env).trace;
      (Connects(t) > 0 <==> IsSet(cfg.exitSound)) &&
      Connects(t) <= DefaultRetryAttempts &&
      (forall a :: a in t && a.Connect? ==> a.channel == before.value)
  {
    var t0 := Teardown(current);
    assert Connects(t0) == 0 by {
      if current.Some? { assert t0[1..][1..] == []; }
    }
    if IsSet(cfg.exitSound) {
      SessionTailShape(before.value, cfg.exitSound, env);
      ConnectsAppend(t0, SessionTail(before.value, cfg.exitSound, env));
    }
  }

  /** In both branches an existing voice client is disconnected, and the handler settles for
      one unit, before anything else happens; the handler never makes a connect call while a
      connection is held, and a handled event always leaves the guild without one. */
  lemma OneConnectionAtATime(current: Option<VoiceClient>, member: Member, before: Option<ChannelId>,
                             after: Option<ChannelId>, cfg: ConfigDocument, env: Environment)
    requires WellFormed(env)
    ensures var h := Handle(current, member, before, after, cfg, env);
      ConnectsOnlyWhenFree(current.Some?, h.trace) &&
      HeldAfter(current.Some?, h.trace) == h.client.Some? &&
      (!member.isBot && before != after && current.Some? ==> h.trace[..2] == [Disconnect, Sleep(1)]) &&
      (!member.isBot && before != after ==> h.client == None)
  {
    var h := Handle(current, member, before, after, cfg, env);
    if !member.isBot && before != after {
      var t0 := Teardown(current);
      TeardownFrees(current);
      var channel := if after.Some? then after.value else before.value;
      var sound := if after.Some? then ResolveSound(cfg.userSoundMap, member.id, cfg.defaultSound) else cfg.exitSound;
      if IsSet(sound) {
        SessionTailShape(channel, sound, env);
        assert h == Session(t0, channel, sound, env);
        FreeAppend(current.Some?, t0, SessionTail(channel, sound, env));
      } else {
        assert h.trace == t0;
      }
    }
  }

  /** A member with a mapped sound joins a channel of a guild without a voice client; the first
      connect succeeds and the file exists: the bot connects to that channel, plays the file,
      waits while it plays and disconnects. */
  lemma MappedJoinScenario(member: Member, channel: ChannelId, path: string, cfg: ConfigDocument, env: Environment)
    requires WellFormed(env) && !member.isBot
    requires IdKey(member.id) in cfg.userSoundMap && cfg.userSoundMap[IdKey(member.id)] == path
    requires FileExists(env.files, path) && env.script(0).Accepted?
    ensures Handle(None, member, None, Some(channel), cfg, env) ==
      HandlerRun([Connect(channel, true), Play(path)] + Repeat(Sleep(1), FirstFalse(env.isPlaying)) + [Disconnect],
                 None, false)
  {
    assert FirstDecisive(env.script, 5, 0) == 0;
  }

  /** An unmapped member joins while no default sound is set: no connection is attempted. */
  lemma UnmappedJoinWithoutDefault(current: Option<VoiceClient>, member: Member, channel: ChannelId,
                                   cfg: ConfigDocument, env: Environment)
    requires WellFormed(env) && !member.isBot
    requires IdKey(member.id) !in cfg.userSoundMap && cfg.defaultSound == None
    ensures Handle(current, member, None, Some(channel), cfg, env) == HandlerRun(Teardown(current), None, false)
  {
  }

  /** A member leaves while the exit sound names a missing file: the bot still connects to the
      vacated channel and releases the connection without playing. */
  lemma MissingExitSoundScenario(member: Member, channel: ChannelId, cfg: ConfigDocument, env: Environment)
    requires WellFormed(env) && !member.isBot
    requires IsSet(cfg.exitSound) && !FileExists(env.files, cfg.exitSound.value) && env.script(0).Accepted?
    ensures Handle(None, member, Some(channel), None, cfg, env) ==
      HandlerRun([Connect(channel, true), Disconnect], None, false)
  {
    assert FirstDecisive(env.script, 5, 0) == 0;
  }
}
