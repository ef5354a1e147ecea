/** The sound configuration (`USER_SOUND_MAP`, `DEFAULT_SOUND`, `EXIT_SOUND`),
    the lookup the voice-state handler makes in it, and the `/adduser`
    command that writes one entry and saves the configuration. */
module SoundConfig {
  import opened Gateway

  /** The JSON document written by save_config. */
  datatype ConfigDocument = ConfigDocument(
    userSoundMap: map<string, string>,
    defaultSound: Option<string>,
    exitSound: Option<string>)

  predicate IsDigit(c: char)
  {
    '0' <= c <= '9'
  }

  /** The value of a decimal digit. */
  function DigitValue(c: char): nat
    requires IsDigit(c)
  {
    c as int - '0' as int
  }

  /** The decimal digit for 0 <= d < 10. */
  function Digit(d: nat): (c: char)
    requires d < 10
    ensures IsDigit(c) && DigitValue(c) == d
  {
    ('0' as int + d) as char
  }

  /** The number a string of decimal digits spells, as int() reads it. */
  function DigitsValue(s: string): nat
    requires forall i :: 0 <= i < |s| ==> IsDigit(s[i])
  {
    if s == [] then 0 else 10 * DigitsValue(s[..|s| - 1]) + DigitValue(s[|s| - 1])
  }

  /** str(n) for a non-negative integer: the key under which a member id is stored. It is a
      string of decimal digits that spells `n`, with no leading zero. */
  function IdKey(n: nat): (s: string)
    ensures |s| >= 1 && forall i :: 0 <= i < |s| ==> IsDigit(s[i])
    ensures DigitsValue(s) == n
    ensures s[0] == '0' ==> n == 0
  {
    if n < 10 then [Digit(n)]
    else
      var s := IdKey(n / 10) + [Digit(n % 10)];
      assert s[..|s| - 1] == IdKey(n / 10);
      s
  }

  /** Distinct members have distinct keys. */
  lemma IdKeyInjective(a: nat, b: nat)
    requires IdKey(a) == IdKey(b)
    ensures a == b
  {
  }

  /** A numeral without a leading zero, as `str` writes one. */
  predicate IsNumeral(s: string)
  {
    |s| >= 1 && (forall i :: 0 <= i < |s| ==> IsDigit(s[i])) && (s[0] == '0' ==> |s| == 1)
  }

  /** Every numeral is the key of the number it spells: `str(int(s)) == s`. */
  lemma {:induction false} IdKeyRoundTrip(s: string)
    requires IsNumeral(s)
    ensures IdKey(DigitsValue(s)) == s
    decreases |s|
  {
    var v := DigitsValue(s);
    if |s| > 1 {
      var t := s[..|s| - 1];
      assert IsNumeral(t) && t[0] == s[0];
      NumeralPositive(t);
      IdKeyRoundTrip(t);
      assert v / 10 == DigitsValue(t) && v % 10 == DigitValue(s[|s| - 1]);
      assert s == t + [s[|s| - 1]];
    }
  }

  /** A numeral that does not start with '0' spells a positive number. */
  lemma {:induction false} NumeralPositive(s: string)
    requires IsNumeral(s) && s[0] != '0'
    ensures DigitsValue(s) >= 1
    decreases |s|
  {
    if |s| > 1 {
      var t := s[..|s| - 1];
      assert IsNumeral(t) && t[0] == s[0];
      NumeralPositive(t);
    }
  }

  /** USER_SOUND_MAP.get(str(member.id), DEFAULT_SOUND). */
  function ResolveSound(soundMap: map<string, string>, memberId: nat, defaultSound: Option<string>): (r: Option<string>)
    ensures IdKey(memberId) in soundMap ==> r == Some(soundMap[IdKey(memberId)])
    ensures IdKey(memberId) !in soundMap ==> r == defaultSound
  {
    var key := IdKey(memberId);
    if key in soundMap then Some(soundMap[key]) else defaultSound
  }

  /** Characters for which Python's str.isspace() holds. */
  predicate IsSpace(c: char)
  {
    c == ' ' || '\t' <= c <= '\r' || '\U{1C}' <= c <= '\U{1F}' || c == '\U{85}' || c == '\U{A0}' ||
    c == '\U{1680}' || '\U{2000}' <= c <= '\U{200A}' || c == '\U{2028}' || c == '\U{2029}' ||
    c == '\U{202F}' || c == '\U{205F}' || c == '\U{3000}'
  }

  /** str.lstrip(): `s` without its leading whitespace. */
  function StripStart(s: string): (r: string)
    ensures |r| <= |s| && r == s[|s| - |r|..]
    ensures forall i :: 0 <= i < |s| - |r| ==> IsSpace(s[i])
    ensures r == [] || !IsSpace(r[0])
  {
    if s != [] && IsSpace(s[0]) then StripStart(s[1..]) else s
  }

  /** str.rstrip(): `s` without its trailing whitespace. */
  function StripEnd(s: string): (r: string)
    ensures |r| <= |s| && r == s[..|r|]
    ensures forall i :: |r| <= i < |s| ==> IsSpace(s[i])
    ensures r == [] || !IsSpace(r[|r| - 1])
  {
    if s != [] && IsSpace(s[|s| - 1]) then StripEnd(s[..|s| - 1]) else s
  }

  /** `r` is the slice of `s` at offset `i`, and everything before and after it is whitespace. */
  predicate TrimmedAt(s: string, r: string, i: nat)
  {
    i + |r| <= |s| && r == s[i..i + |r|] &&
    (forall j :: 0 <= j < i ==> IsSpace(s[j])) &&
    (forall j :: i + |r| <= j < |s| ==> IsSpace(s[j]))
  }

  /** str.strip(): a slice of `s` that neither starts nor ends with whitespace, everything cut
      off being whitespace. */
  function Strip(s: string): (r: string)
    ensures exists i :: TrimmedAt(s, r, i)
    ensures r == [] || (!IsSpace(r[0]) && !IsSpace(r[|r| - 1]))
  {
    var t := StripStart(s);
    var r := StripEnd(t);
    var i := |s| - |t|;
    assert r == s[i..i + |r|];
    assert TrimmedAt(s, r, i);
    r
  }

  /** Members offered by /adduser: the guild's members that are not bots. */
  function NonBotMembers(members: seq<Member>): (r: seq<Member>)
    ensures forall m :: m in r <==> m in members && !m.isBot
  {
    if members == [] then []
    else (if members[0].isBot then [] else [members[0]]) + NonBotMembers(members[1..])
  }

  /** Filtering out bots keeps the guild's order: the list for a concatenation is the
      concatenation of the lists. */
  lemma {:induction false} NonBotMembersAppend(a: seq<Member>, b: seq<Member>)
    ensures NonBotMembers(a + b) == NonBotMembers(a) + NonBotMembers(b)
  {
    if a == [] {
      assert a + b == b;
    } else {
      assert (a + b)[0] == a[0] && (a + b)[1..] == a[1..] + b;
      NonBotMembersAppend(a[1..], b);
      var head := if a[0].isBot then [] else [a[0]];
      assert head + (NonBotMembers(a[1..]) + NonBotMembers(b)) == (head + NonBotMembers(a[1..])) + NonBotMembers(b);
    }
  }

  /** The select menu shows at most 25 members. */
  const MaxOptions: nat := 25

  function OptionCount(members: seq<Member>): nat
  {
    var n := |NonBotMembers(members)|;
    if n < MaxOptions then n else MaxOptions
  }

  /** The reply /adduser ends with. */
  datatype AddUserOutcome =
    | NoMembers                        // "No members found in this server."
    | TimedOut                         // no message within 60 s
    | FileNotFound(path: string)       // "File ... not found."
    | Added(key: string, path: string) // "Added ... with sound ..."

  /** Write `path` for `key` in a sound map: the one-key update of /adduser. */
  function WithSound(soundMap: map<string, string>, key: string, path: string): (m: map<string, string>)
    ensures m.Keys == soundMap.Keys + {key} && m[key] == path
    ensures forall k :: k in soundMap && k != key ==> m[k] == soundMap[k]
  {
    soundMap[key := path]
  }

  /** After /adduser has written member `id`'s sound, the join lookup for that member finds
      it, and the lookup for every other member is unchanged. */
  lemma AddedSoundIsResolved(soundMap: map<string, string>, id: nat, path: string,
                             defaultSound: Option<string>, other: nat)
    ensures ResolveSound(WithSound(soundMap, IdKey(id), path), id, defaultSound) == Some(path)
    ensures other != id ==>
      ResolveSound(WithSound(soundMap, IdKey(id), path), other, defaultSound) == ResolveSound(soundMap, other, defaultSound)
  {
    if other != id && IdKey(other) == IdKey(id) {
      IdKeyInjective(other, id);
    }
  }

  /** The configuration held in memory, plus the last document saved to disk. */
  class Config {
    var userSoundMap: map<string, string>
    var defaultSound: Option<string>
    var exitSound: Option<string>
    var saved: ConfigDocument

    /** The document save_config would write now. */
    function Document(): ConfigDocument
      reads this
    {
      ConfigDocument(userSoundMap, defaultSound, exitSound)
    }

    /** The configuration as loaded: it is what is on disk. */
    constructor (doc: ConfigDocument)
      ensures Document() == doc && saved == doc
    {
      userSoundMap := doc.userSoundMap;
      defaultSound := doc.defaultSound;
      exitSound := doc.exitSound;
      saved := doc;
    }

    /** save_config(). */
    method Save()
      modifies this`saved
      ensures saved == Document()
    {
      saved := ConfigDocument(userSoundMap, defaultSound, exitSound);
    }

    /** /adduser after its interaction: `guildMembers` are the guild's members, `selected` the
        option picked in the menu, `reply` the message typed within the time-out (None when
        none arrives) and `files` the paths that exist. Only the selected member's key is
        written, only when the stripped path exists, and the configuration is then saved. */
    method AddUser(guildMembers: seq<Member>, selected: nat, reply: Option<string>, files: set<string>)
      returns (outcome: AddUserOutcome)
      requires NonBotMembers(guildMembers) != [] ==> selected < OptionCount(guildMembers)
      modifies this`userSoundMap, this`saved
      ensures NonBotMembers(guildMembers) == [] ==> outcome == NoMembers
      ensures NonBotMembers(guildMembers) != [] ==>
        var key := IdKey(NonBotMembers(guildMembers)[selected].id);
        match reply
        case None => outcome == TimedOut
        case Some(text) =>
          if FileExists(files, Strip(text)) then outcome == Added(key, Strip(text))
          else outcome == FileNotFound(Strip(text))
      ensures outcome.Added? ==>
        userSoundMap == WithSound(old(userSoundMap), outcome.key, outcome.path) && saved == Document()
      ensures !outcome.Added? ==> userSoundMap == old(userSoundMap) && saved == old(saved)
    {
      var members := NonBotMembers(guildMembers);
      if members == [] {
        return NoMembers;
      }
      var memberId := IdKey(members[selected].id);
      if reply.None? {
        return TimedOut;
      }
      var soundPath := Strip(reply.value);
      if !FileExists(files, soundPath) {
        return FileNotFound(soundPath);
      }
      userSoundMap := userSoundMap[memberId := soundPath];
      Save();
      outcome := Added(memberId, soundPath);
    }
  }
}
