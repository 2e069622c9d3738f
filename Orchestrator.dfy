/**
 * The application shell: it owns the configuration, the play flag, the voice
 * delta with its clear timer, the current script, the script library and the
 * scroll-reset trigger, and turns voice commands and library actions into
 * changes of that state. Clocks, fresh ids and the confirmation dialog's answer
 * are parameters.
 */
module Orchestrator {
  import opened Types
  import opened ScriptStorage
  import JsString

  /** How long a scroll-up or scroll-down nudge lasts, in milliseconds. */
  const VoiceDeltaMillis: int := 500

  /** How much faster than autoplay a voice nudge scrolls. */
  const VoiceSpeedFactor: real := 5.0

  // ---------------------------------------------------------------------------
  // Configuration

  /** A supplied field wins over the old value. */
  function Override<T>(supplied: Option<T>, old_: T): (v: T)
    ensures supplied.Some? ==> v == supplied.value
    ensures supplied.None? ==> v == old_
  {
    match supplied
    case Some(x) => x
    case None => old_
  }

  /** `{ ...prev, ...patch }`: the supplied fields replace, the others stay. */
  function MergeConfig(prev: Config, patch: ConfigPatch): (c: Config)
    ensures c.scrollSpeed == Override(patch.scrollSpeed, prev.scrollSpeed)
    ensures c.fontSize == Override(patch.fontSize, prev.fontSize)
    ensures c.backgroundColor == Override(patch.backgroundColor, prev.backgroundColor)
    ensures c.textColor == Override(patch.textColor, prev.textColor)
    ensures c.isMirrorMode == Override(patch.isMirrorMode, prev.isMirrorMode)
    ensures c.isVoiceActive == Override(patch.isVoiceActive, prev.isVoiceActive)
    ensures c.isDarkMode == Override(patch.isDarkMode, prev.isDarkMode)
  {
    Config(
      Override(patch.scrollSpeed, prev.scrollSpeed),
      Override(patch.fontSize, prev.fontSize),
      Override(patch.backgroundColor, prev.backgroundColor),
      Override(patch.textColor, prev.textColor),
      Override(patch.isMirrorMode, prev.isMirrorMode),
      Override(patch.isVoiceActive, prev.isVoiceActive),
      Override(patch.isDarkMode, prev.isDarkMode))
  }

  /** The field-by-field combination of two patches, the later one winning. */
  function ThenPatch(p: ConfigPatch, q: ConfigPatch): ConfigPatch
  {
    ConfigPatch(
      if q.scrollSpeed.Some? then q.scrollSpeed else p.scrollSpeed,
      if q.fontSize.Some? then q.fontSize else p.fontSize,
      if q.backgroundColor.Some? then q.backgroundColor else p.backgroundColor,
      if q.textColor.Some? then q.textColor else p.textColor,
      if q.isMirrorMode.Some? then q.isMirrorMode else p.isMirrorMode,
      if q.isVoiceActive.Some? then q.isVoiceActive else p.isVoiceActive,
      if q.isDarkMode.Some? then q.isDarkMode else p.isDarkMode)
  }

  /** A patch that supplies nothing changes nothing. */
  lemma MergeEmpty(c: Config)
    ensures MergeConfig(c, EmptyPatch) == c
  {
  }

  /** Applying the same patch twice is applying it once. */
  lemma MergeIdempotent(c: Config, p: ConfigPatch)
    ensures MergeConfig(MergeConfig(c, p), p) == MergeConfig(c, p)
  {
  }

  /** Two updates in a row are one update with the combined patch. */
  lemma MergeSequential(c: Config, p: ConfigPatch, q: ConfigPatch)
    ensures MergeConfig(MergeConfig(c, p), q) == MergeConfig(c, ThenPatch(p, q))
  {
  }

  // ---------------------------------------------------------------------------
  // Voice commands

  /** The playback signal the voice commands act on. `clearAt` is the pending clear timer's deadline. */
  datatype Playback = Playback(isPlaying: bool, voiceDelta: real, clearAt: Option<int>)

  /**
   * One voice command received at time `now`. Scroll up and scroll down set the
   * delta to five times the play speed, backwards or forwards, and (re)arm the
   * clear timer; pause and resume set the play flag and zero the delta without
   * touching the timer.
   */
  function OnSpeechCommand(p: Playback, cmd: SpeechCommand, scrollSpeed: real, now: int): (q: Playback)
    ensures cmd == ScrollUp ==> q == p.(voiceDelta := -scrollSpeed * VoiceSpeedFactor, clearAt := Some(now + VoiceDeltaMillis))
    ensures cmd == ScrollDown ==> q == p.(voiceDelta := scrollSpeed * VoiceSpeedFactor, clearAt := Some(now + VoiceDeltaMillis))
    ensures cmd == Pause ==> q == p.(isPlaying := false, voiceDelta := 0.0)
    ensures cmd == Resume ==> q == p.(isPlaying := true, voiceDelta := 0.0)
  {
    var p' := match cmd
      case ScrollUp => p.(voiceDelta := -scrollSpeed * VoiceSpeedFactor)
      case ScrollDown => p.(voiceDelta := scrollSpeed * VoiceSpeedFactor)
      case Pause => p.(isPlaying := false, voiceDelta := 0.0)
      case Resume => p.(isPlaying := true, voiceDelta := 0.0);
    if cmd == ScrollUp || cmd == ScrollDown then p'.(clearAt := Some(now + VoiceDeltaMillis)) else p'
  }

  /** The clock reaching `now`: a timer whose deadline has passed fires and zeroes the delta. */
  function OnClock(p: Playback, now: int): (q: Playback)
    ensures q.isPlaying == p.isPlaying
    ensures p.clearAt.Some? && p.clearAt.value <= now ==> q.voiceDelta == 0.0 && q.clearAt == None
    ensures !(p.clearAt.Some? && p.clearAt.value <= now) ==> q == p
  {
    if p.clearAt.Some? && p.clearAt.value <= now then p.(voiceDelta := 0.0, clearAt := None) else p
  }

  /** For a non-negative speed, the sign of the voice delta each command leaves, and what it keeps. */
  lemma VoiceDeltaSign(p: Playback, cmd: SpeechCommand, speed: real, now: int)
    requires speed >= 0.0
    ensures var q := OnSpeechCommand(p, cmd, speed, now);
      && (cmd == ScrollUp ==> q.voiceDelta <= 0.0 && q.isPlaying == p.isPlaying)
      && (cmd == ScrollDown ==> q.voiceDelta >= 0.0 && q.isPlaying == p.isPlaying)
      && (cmd == Pause || cmd == Resume ==> q.voiceDelta == 0.0 && q.clearAt == p.clearAt)
  {
  }

  /**
   * A nudge wears off: after a scroll command at `t`, if only pause or resume
   * commands follow, the clock reaching `t + 500` zeroes the delta.
   */
  lemma {:induction false} NudgeWearsOff(p: Playback, cmd: SpeechCommand, speed: real, t: int,
                                        later: seq<SpeechCommand>, now: int)
    requires cmd == ScrollUp || cmd == ScrollDown
    requires forall k :: 0 <= k < |later| ==> later[k] == Pause || later[k] == Resume
    requires now >= t + VoiceDeltaMillis
    ensures OnClock(ApplyAll(OnSpeechCommand(p, cmd, speed, t), later, speed, t), now).voiceDelta == 0.0
  {
    ApplyAllKeepsTimer(OnSpeechCommand(p, cmd, speed, t), later, speed, t);
  }

  /** Several commands at the same instant, in order. */
  function ApplyAll(p: Playback, cmds: seq<SpeechCommand>, speed: real, now: int): Playback
    decreases |cmds|
  {
    if cmds == [] then p else ApplyAll(OnSpeechCommand(p, cmds[0], speed, now), cmds[1..], speed, now)
  }

  lemma {:induction false} ApplyAllKeepsTimer(p: Playback, cmds: seq<SpeechCommand>, speed: real, now: int)
    requires forall k :: 0 <= k < |cmds| ==> cmds[k] == Pause || cmds[k] == Resume
    ensures ApplyAll(p, cmds, speed, now).clearAt == p.clearAt
    decreases |cmds|
  {
    if cmds != [] {
      ApplyAllKeepsTimer(OnSpeechCommand(p, cmds[0], speed, now), cmds[1..], speed, now);
    }
  }

  /** Re-arming replaces the pending deadline: only the last nudge's deadline counts. */
  lemma RearmReplacesDeadline(p: Playback, c1: SpeechCommand, c2: SpeechCommand, speed: real, t1: int, t2: int)
    requires c1 == ScrollUp || c1 == ScrollDown
    requires c2 == ScrollUp || c2 == ScrollDown
    requires t1 <= t2
    ensures var q := OnSpeechCommand(OnSpeechCommand(p, c1, speed, t1), c2, speed, t2);
      && q.clearAt == Some(t2 + VoiceDeltaMillis)
      && (forall now :: t1 + VoiceDeltaMillis <= now < t2 + VoiceDeltaMillis ==> OnClock(q, now) == q)
  {
  }

  // ---------------------------------------------------------------------------
  // Startup

  /** Newest first. */
  predicate SortedByRecency(s: seq<Script>)
  {
    forall i, j :: 0 <= i < j < |s| ==> s[i].lastModified >= s[j].lastModified
  }

  /** Puts `x` before the first entry that is not newer than it. */
  function InsertByRecency(x: Script, s: seq<Script>): (r: seq<Script>)
    requires SortedByRecency(s)
    ensures |r| == |s| + 1
    ensures multiset(r) == multiset(s) + multiset{x}
    ensures SortedByRecency(r)
    ensures r[0] == (if s == [] || s[0].lastModified <= x.lastModified then x else s[0])
  {
    if s == [] || s[0].lastModified <= x.lastModified then
      [x] + s
    else
      var rest := InsertByRecency(x, s[1..]);
      InsertKeepsOrder(x, s, rest);
      assert s == [s[0]] + s[1..];
      assert multiset([s[0]] + rest) == multiset{s[0]} + multiset(rest);
      [s[0]] + rest
  }

  lemma InsertKeepsOrder(x: Script, s: seq<Script>, rest: seq<Script>)
    requires s != [] && SortedByRecency(s) && s[0].lastModified > x.lastModified
    requires multiset(rest) == multiset(s[1..]) + multiset{x}
    requires SortedByRecency(rest)
    ensures SortedByRecency([s[0]] + rest)
  {
    var r := [s[0]] + rest;
    forall k | 0 <= k < |rest|
      ensures rest[k].lastModified <= s[0].lastModified
    {
      assert rest[k] in multiset(rest);
      if rest[k] != x {
        assert rest[k] in multiset(s[1..]);
        var m :| 0 <= m < |s| - 1 && s[1..][m] == rest[k];
        assert s[m + 1] == rest[k];
      }
    }
    forall i, j | 0 <= i < j < |r|
      ensures r[i].lastModified >= r[j].lastModified
    {
      if i > 0 {
        assert r[i] == rest[i - 1] && r[j] == rest[j - 1];
      } else {
        assert r[j] == rest[j - 1];
      }
    }
  }

  /**
   * The library order after startup: the stored list sorted newest first by a
   * stable sort, so entries with equal times keep their stored order.
   */
  function SortByRecency(s: seq<Script>): (r: seq<Script>)
    ensures |r| == |s|
    ensures multiset(r) == multiset(s)
    ensures SortedByRecency(r)
  {
    if s == [] then []
    else
      assert s == [s[0]] + s[1..];
      InsertByRecency(s[0], SortByRecency(s[1..]))
  }

  /** The entries stamped with time `t`, in their order in `s`. */
  function StampedAt(s: seq<Script>, t: int): (r: seq<Script>)
    ensures |r| <= |s|
    ensures forall k :: 0 <= k < |r| ==> r[k].lastModified == t
  {
    if s == [] then []
    else (if s[0].lastModified == t then [s[0]] else []) + StampedAt(s[1..], t)
  }

  lemma SortedTail(s: seq<Script>)
    requires s != [] && SortedByRecency(s)
    ensures SortedByRecency(s[1..])
  {
    forall i, j | 0 <= i < j < |s| - 1
      ensures s[1..][i].lastModified >= s[1..][j].lastModified
    {
      assert s[1..][i] == s[i + 1] && s[1..][j] == s[j + 1];
    }
  }

  /** The entries stamped `t` among a single entry. */
  function StampedOne(x: Script, t: int): seq<Script>
  {
    if x.lastModified == t then [x] else []
  }

  lemma StampedCons(x: Script, s: seq<Script>, t: int)
    ensures StampedAt([x] + s, t) == StampedOne(x, t) + StampedAt(s, t)
  {
    assert ([x] + s)[1..] == s;
  }

  /** Inserting an entry leaves the entries of each time in the order they had with `x` in front. */
  lemma {:induction false} InsertStable(x: Script, s: seq<Script>, t: int)
    requires SortedByRecency(s)
    ensures StampedAt(InsertByRecency(x, s), t) == StampedAt([x] + s, t)
    decreases |s|
  {
    if s == [] || s[0].lastModified <= x.lastModified {
      assert InsertByRecency(x, s) == [x] + s;
    } else {
      SortedTail(s);
      var rest := InsertByRecency(x, s[1..]);
      assert InsertByRecency(x, s) == [s[0]] + rest;
      InsertStable(x, s[1..], t);
      assert s == [s[0]] + s[1..];
      PassNewer(x, s[0], rest, s[1..], t);
    }
  }

  /** Moving `x` behind a strictly newer entry does not reorder the entries of any one time. */
  lemma PassNewer(x: Script, y: Script, rest: seq<Script>, tail: seq<Script>, t: int)
    requires y.lastModified > x.lastModified
    requires StampedAt(rest, t) == StampedAt([x] + tail, t)
    ensures StampedAt([y] + rest, t) == StampedAt([x] + ([y] + tail), t)
  {
    StampedCons(y, rest, t);
    StampedCons(x, tail, t);
    StampedCons(y, tail, t);
    StampedCons(x, [y] + tail, t);
    if x.lastModified == t {
      assert StampedOne(y, t) == [];
      assert StampedOne(y, t) + StampedAt(tail, t) == StampedAt(tail, t);
    } else {
      assert StampedOne(x, t) == [];
      assert StampedOne(x, t) + StampedAt(tail, t) == StampedAt(tail, t);
    }
  }

  /** The sort is stable: for every time, the entries stamped with it keep their stored order. */
  lemma {:induction false} SortStable(s: seq<Script>, t: int)
    ensures StampedAt(SortByRecency(s), t) == StampedAt(s, t)
  {
    if s != [] {
      SortStable(s[1..], t);
      InsertStable(s[0], SortByRecency(s[1..]), t);
      assert ([s[0]] + SortByRecency(s[1..]))[1..] == SortByRecency(s[1..]);
    }
  }

  /** The position of the first entry with the greatest `lastModified`. */
  function LatestIndex(s: seq<Script>): (i: nat)
    requires |s| > 0
    ensures i < |s|
    ensures forall k :: 0 <= k < |s| ==> s[k].lastModified <= s[i].lastModified
    ensures forall k :: 0 <= k < i ==> s[k].lastModified < s[i].lastModified
  {
    if |s| == 1 then 0
    else
      var j := LatestIndex(s[1..]) + 1;
      assert forall k :: 1 <= k < |s| ==> s[k] == s[1..][k - 1];
      if s[j].lastModified <= s[0].lastModified then 0 else j
  }

  /** The head of the sorted library is the first stored entry among the newest. */
  lemma {:induction false} SortHeadIsLatest(s: seq<Script>)
    requires |s| > 0
    ensures SortByRecency(s)[0] == s[LatestIndex(s)]
  {
    if |s| > 1 {
      SortHeadIsLatest(s[1..]);
    }
  }

  /** A fresh copy of the default script, as startup stores it when the library is empty. */
  function DefaultEntry(d: Script, freshId: string, now: int): (e: Script)
    ensures e.id == freshId && e.lastModified == now
    ensures e.name == d.name && e.content == d.content
  {
    d.(id := freshId, lastModified := now)
  }

  // ---------------------------------------------------------------------------
  // Renaming

  /** The library dialog's guard: a prompt answer is used, trimmed, only when something is left. */
  function RenameRequest(answer: Option<string>): (name: Option<string>)
    ensures name.Some? <==> answer.Some? && !JsString.AllWhiteSpace(answer.value)
    ensures name.Some? ==> name.value == JsString.Trim(answer.value) && name.value != []
  {
    match answer
    case None => None
    case Some(a) => if JsString.Trim(a) != [] then Some(JsString.Trim(a)) else None
  }

  /** The library after renaming an entry that exists: the first entry with the id, renamed and re-stamped. */
  function RenameInLibrary(scripts: seq<Script>, id: string, newName: string, now: int): (r: seq<Script>)
    requires HasId(scripts, id)
    ensures |r| == |scripts|
    ensures forall j :: 0 <= j < |r| ==> r[j].id == scripts[j].id && r[j].content == scripts[j].content
  {
    AddOrUpdateScript(scripts, scripts[FindIndex(scripts, id)].(name := newName), now)
  }

  /** A rename changes the name and the time of one entry and nothing else. */
  lemma RenameOnlyTouchesName(scripts: seq<Script>, id: string, newName: string, now: int)
    requires HasId(scripts, id)
    ensures var r := RenameInLibrary(scripts, id, newName, now); var i := FindIndex(scripts, id);
      && |r| == |scripts|
      && r[i] == scripts[i].(name := newName, lastModified := now)
      && (forall j :: 0 <= j < |r| && j != i ==> r[j] == scripts[j])
  {
  }

  // ---------------------------------------------------------------------------
  // The application state

  datatype DeleteOutcome = RefusedActive | NotConfirmed | Deleted

  class App {
    var config: Config
    var currentScript: Script
    var allScripts: seq<Script>
    var playback: Playback
    var resetScrollTrigger: bool

    /** The first render: default settings, a default script not yet in the library, paused. */
    constructor (initialId: string, defaultContent: string, now: int)
      ensures config == DefaultConfig
      ensures currentScript == Script(initialId, "Default Script", defaultContent, now)
      ensures allScripts == []
      ensures playback == Playback(false, 0.0, None)
      ensures !resetScrollTrigger
    {
      config := DefaultConfig;
      currentScript := Script(initialId, "Default Script", defaultContent, now);
      allScripts := [];
      playback := Playback(false, 0.0, None);
      resetScrollTrigger := false;
    }

    /**
     * The mount effect. A non-empty stored library becomes the library, sorted
     * newest first in place, and its newest entry becomes current; an empty one
     * is replaced by a fresh copy of the default script, which becomes current.
     */
    method InitialLoad(stored: StoredValue, freshId: string, now: int)
      modifies this`allScripts, this`currentScript
      ensures var loaded := LoadScripts(stored);
        && (loaded != [] ==> allScripts == SortByRecency(loaded) && currentScript == loaded[LatestIndex(loaded)])
        && (loaded == [] ==> allScripts == [DefaultEntry(old(currentScript), freshId, now)])
      ensures currentScript == allScripts[0]
    {
      var storedScripts := LoadScripts(stored);
      if |storedScripts| > 0 {
        allScripts := SortByRecency(storedScripts);
        SortHeadIsLatest(storedScripts);
        currentScript := allScripts[0];
      } else {
        var defaultScriptWithId := currentScript.(id := freshId, lastModified := now);
        allScripts := [defaultScriptWithId];
        currentScript := defaultScriptWithId;
      }
    }

    /** `handleSpeechCommand`, with the time the command arrived. */
    method HandleSpeechCommand(cmd: SpeechCommand, now: int)
      modifies this`playback
      ensures playback == OnSpeechCommand(old(playback), cmd, config.scrollSpeed, now)
    {
      match cmd {
        case ScrollUp => playback := playback.(voiceDelta := -config.scrollSpeed * VoiceSpeedFactor);
        case ScrollDown => playback := playback.(voiceDelta := config.scrollSpeed * VoiceSpeedFactor);
        case Pause => playback := playback.(isPlaying := false, voiceDelta := 0.0);
        case Resume => playback := playback.(isPlaying := true, voiceDelta := 0.0);
      }
      if cmd == ScrollUp || cmd == ScrollDown {
        playback := playback.(clearAt := Some(now + VoiceDeltaMillis));
      }
    }

    /** The clock reaching `now`: the clear timer fires if its deadline has passed. */
    method ClockTick(now: int)
      modifies this`playback
      ensures playback == OnClock(old(playback), now)
    {
      if playback.clearAt.Some? && playback.clearAt.value <= now {
        playback := playback.(voiceDelta := 0.0, clearAt := None);
      }
    }

    method HandleConfigChange(patch: ConfigPatch)
      modifies this`config
      ensures config == MergeConfig(old(config), patch)
    {
      config := MergeConfig(config, patch);
    }

    /** A script saved from the editor: it becomes current, the scroll resets and the library upserts it. */
    method HandleScriptChange(s: Script, now: int)
      modifies this`currentScript, this`resetScrollTrigger, this`allScripts
      ensures currentScript == s
      ensures resetScrollTrigger == !old(resetScrollTrigger)
      ensures allScripts == AddOrUpdateScript(old(allScripts), s, now)
    {
      currentScript := s;
      resetScrollTrigger := !resetScrollTrigger;
      allScripts := AddOrUpdateScript(allScripts, s, now);
    }

    /** "Save current script": upsert; the current script is the argument as given, not re-stamped. */
    method HandleSaveNewOrUpdateScript(s: Script, now: int)
      modifies this`allScripts, this`currentScript
      ensures allScripts == AddOrUpdateScript(old(allScripts), s, now)
      ensures currentScript == s
    {
      allScripts := AddOrUpdateScript(allScripts, s, now);
      currentScript := s;
    }

    /** Loading makes a script current, pauses and resets the scroll; the library is untouched. */
    method HandleLoadScript(s: Script)
      modifies this`currentScript, this`playback, this`resetScrollTrigger
      ensures currentScript == s
      ensures playback == old(playback).(isPlaying := false)
      ensures resetScrollTrigger == !old(resetScrollTrigger)
    {
      currentScript := s;
      playback := playback.(isPlaying := false);
      resetScrollTrigger := !resetScrollTrigger;
    }

    /** Deleting the current script is refused; otherwise the confirmed delete filters the library. */
    method HandleDeleteScript(id: string, confirmed: bool) returns (outcome: DeleteOutcome)
      modifies this`allScripts
      ensures id == currentScript.id ==> outcome == RefusedActive && allScripts == old(allScripts)
      ensures id != currentScript.id && !confirmed ==> outcome == NotConfirmed && allScripts == old(allScripts)
      ensures id != currentScript.id && confirmed ==>
        outcome == Deleted && allScripts == DeleteScript(old(allScripts), id)
    {
      if id == currentScript.id {
        return RefusedActive;
      }
      if confirmed {
        allScripts := DeleteScript(allScripts, id);
        return Deleted;
      }
      return NotConfirmed;
    }

    /**
     * Renaming an id the library lacks does nothing. Otherwise the library entry
     * is renamed and re-stamped; the current script, when it has that id, takes
     * the renamed entry with its old time.
     */
    method HandleRenameScript(id: string, newName: string, now: int)
      modifies this`allScripts, this`currentScript
      ensures !HasId(old(allScripts), id) ==> allScripts == old(allScripts) && currentScript == old(currentScript)
      ensures HasId(old(allScripts), id) ==>
        var renamed := old(allScripts)[FindIndex(old(allScripts), id)].(name := newName);
        && allScripts == RenameInLibrary(old(allScripts), id, newName, now)
        && currentScript == (if old(currentScript).id == id then renamed else old(currentScript))
    {
      var i := FindIndex(allScripts, id);
      if i > -1 {
        var updatedScript := allScripts[i].(name := newName);
        allScripts := AddOrUpdateScript(allScripts, updatedScript, now);
        if currentScript.id == id {
          currentScript := updatedScript;
        }
      }
    }

    /** The library dialog's rename button: a blank or cancelled prompt does nothing. */
    method RenameFromPrompt(id: string, answer: Option<string>, now: int)
      modifies this`allScripts, this`currentScript
      ensures RenameRequest(answer).None? ==> allScripts == old(allScripts) && currentScript == old(currentScript)
      ensures !HasId(old(allScripts), id) ==> allScripts == old(allScripts) && currentScript == old(currentScript)
      ensures RenameRequest(answer).Some? && HasId(old(allScripts), id) ==>
        var renamed := old(allScripts)[FindIndex(old(allScripts), id)].(name := RenameRequest(answer).value);
        && allScripts == RenameInLibrary(old(allScripts), id, RenameRequest(answer).value, now)
        && currentScript == (if old(currentScript).id == id then renamed else old(currentScript))
    {
      var request := RenameRequest(answer);
      if request.Some? {
        HandleRenameScript(id, request.value, now);
      }
    }

    /** The play button and the space bar. */
    method ToggleIsPlaying()
      modifies this`playback
      ensures playback == old(playback).(isPlaying := !old(playback).isPlaying)
    {
      playback := playback.(isPlaying := !playback.isPlaying);
    }
  }
}
