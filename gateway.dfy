/** Values exchanged with the chat platform's gateway and voice transport,
    and the trace of effects the bot requests from it.

    The transport itself (connecting, streaming audio, reporting whether audio
    is still playing, disconnecting) is not modelled; its answers are inputs,
    and what the bot asks of it is recorded as a sequence of `Action`s. */
module Gateway {

  datatype Option<T> = None | Some(value: T)

  /** Identity of a voice channel; two channels compare equal iff their ids do. */
  type ChannelId = nat

  /** An active voice connection of the bot, attached to one channel. */
  datatype VoiceClient = VoiceClient(channel: ChannelId)

  /** A guild member as seen by the voice-state event. */
  datatype Member = Member(id: nat, isBot: bool)

  /** The answer of the transport to one `channel.connect()` call. */
  datatype ConnectOutcome =
    | Accepted      // the call returns a voice client
    | Closed        // the call raises ConnectionClosed (transient)
    | OsFailure     // the call raises OSError (non-transient)
    | OtherFailure  // the call raises any other exception

  /** One effect requested from the transport or the event loop. */
  datatype Action =
    | Connect(channel: ChannelId, established: bool)  // one connect call; whether it returned a client
    | Sleep(units: nat)                               // asyncio.sleep(units)
    | Play(path: string)                              // vc.play(FFmpegPCMAudio(path))
    | Disconnect                                      // vc.disconnect()

  /** A Python string used as a condition: set and non-empty. */
  predicate IsSet(p: Option<string>)
  {
    p.Some? && p.value != ""
  }

  /** os.path.exists over a snapshot of the file system: the empty path never exists. */
  predicate FileExists(files: set<string>, path: string)
  {
    path != "" && path in files
  }

  /** Number of `Connect` calls in a trace. */
  function Connects(t: seq<Action>): (n: nat)
    ensures n <= |t|
  {
    if t == [] then 0 else (if t[0].Connect? then 1 else 0) + Connects(t[1..])
  }

  /** How often `a` occurs in a trace. */
  function Occurrences(t: seq<Action>, a: Action): (n: nat)
    ensures n <= |t|
    ensures n == 0 <==> a !in t
  {
    if t == [] then 0 else (if t[0] == a then 1 else 0) + Occurrences(t[1..], a)
  }

  /** The durations of the `Sleep` actions of a trace, in order. */
  function Waits(t: seq<Action>): (w: seq<nat>)
    ensures |w| <= |t|
  {
    if t == [] then [] else (if t[0].Sleep? then [t[0].units] else []) + Waits(t[1..])
  }

  /** A trace with no connect calls contains no `Connect` action. */
  lemma {:induction false} NoConnects(t: seq<Action>)
    requires Connects(t) == 0
    ensures forall a :: a in t ==> !a.Connect?
  {
    if t != [] {
      NoConnects(t[1..]);
      assert forall a :: a in t ==> a == t[0] || a in t[1..];
    }
  }

  lemma {:induction false} ConnectsAppend(a: seq<Action>, b: seq<Action>)
    ensures Connects(a + b) == Connects(a) + Connects(b)
  {
    if a == [] {
      assert a + b == b;
    } else {
      assert (a + b)[1..] == a[1..] + b;
      ConnectsAppend(a[1..], b);
    }
  }

  lemma {:induction false} OccurrencesAppend(a: seq<Action>, b: seq<Action>, x: Action)
    ensures Occurrences(a + b, x) == Occurrences(a, x) + Occurrences(b, x)
  {
    if a == [] {
      assert a + b == b;
    } else {
      assert (a + b)[1..] == a[1..] + b;
      OccurrencesAppend(a[1..], b, x);
    }
  }

  lemma {:induction false} WaitsAppend(a: seq<Action>, b: seq<Action>)
    ensures Waits(a + b) == Waits(a) + Waits(b)
  {
    if a == [] {
      assert a + b == b;
    } else {
      assert (a + b)[0] == a[0];
      assert (a + b)[1..] == a[1..] + b;
      WaitsAppend(a[1..], b);
      var h := if a[0].Sleep? then [a[0].units] else [];
      calc {
        Waits(a + b);
        h + Waits(a[1..] + b);
        h + (Waits(a[1..]) + Waits(b));
        (h + Waits(a[1..])) + Waits(b);
      }
    }
  }

  /** Whether the bot holds a voice connection after the trace `t`, starting from `held`. */
  function HeldAfter(held: bool, t: seq<Action>): bool
    decreases |t|
  {
    if t == [] then held
    else if t[0].Connect? then HeldAfter(t[0].established || held, t[1..])
    else if t[0].Disconnect? then HeldAfter(false, t[1..])
    else HeldAfter(held, t[1..])
  }

  /** No connect call is made while a connection is held, starting from `held`. */
  predicate ConnectsOnlyWhenFree(held: bool, t: seq<Action>)
    decreases |t|
  {
    if t == [] then true
    else if t[0].Connect? then !held && ConnectsOnlyWhenFree(t[0].established, t[1..])
    else if t[0].Disconnect? then ConnectsOnlyWhenFree(false, t[1..])
    else ConnectsOnlyWhenFree(held, t[1..])
  }

  /** The two trace predicates compose over concatenation. */
  lemma {:induction false} FreeAppend(held: bool, a: seq<Action>, b: seq<Action>)
    ensures HeldAfter(held, a + b) == HeldAfter(HeldAfter(held, a), b)
    ensures ConnectsOnlyWhenFree(held, a + b)
        <==> ConnectsOnlyWhenFree(held, a) && ConnectsOnlyWhenFree(HeldAfter(held, a), b)
    decreases |a|
  {
    if a != [] {
      assert (a + b)[1..] == a[1..] + b;
      if a[0].Connect? {
        FreeAppend(a[0].established || held, a[1..], b);
      } else if a[0].Disconnect? {
        FreeAppend(false, a[1..], b);
      } else {
        FreeAppend(held, a[1..], b);
      }
    } else {
      assert a + b == b;
    }
  }
}
