/**
 * The danmaku-keyboard app's key macros: a `KeyData` binds a danmaku text to
 * a recorded sequence of inputs, and `simulate` replays the inputs, pausing
 * before each key release that ends a press. The pauses and the inputs sent
 * are recorded here as a trace of actions instead of being performed.
 */
module KeyboardMacro {
  import opened Wrappers
  import opened KeyNames
  import opened KeyCodec
  import Text

  const DEFAULT_PREFIX: string := "@"

  /** Milliseconds to wait when no usable interval is configured. */
  const DEFAULT_INTERVAL: int := 100

  /** What a replay does: wait some milliseconds, or send one input. */
  datatype Action = Wait(ms: int) | Send(input: Input)

  /**
   * Whether the last key event in `s` (ignoring text) is a release; false
   * when there is none.
   */
  predicate LastIsUp(s: seq<Input>)
  {
    if |s| == 0 then false
    else match s[|s| - 1]
      case KeyDown(_) => false
      case KeyUp(_) => true
      case Text(_) => LastIsUp(s[..|s| - 1])
  }

  /** A replay pauses before `key`, coming after `before`, when it releases a key right after a press (or first). */
  predicate PausesBefore(before: seq<Input>, key: Input)
  {
    key.KeyUp? && !LastIsUp(before)
  }

  /** The number of pauses a replay of `s` makes. */
  function PauseCount(s: seq<Input>): nat
  {
    if |s| == 0 then 0
    else PauseCount(s[..|s| - 1]) + (if PausesBefore(s[..|s| - 1], s[|s| - 1]) then 1 else 0)
  }

  /** Adding inputs never removes a pause. */
  lemma {:induction false} PauseCountPrefix(s: seq<Input>, i: nat)
    requires i <= |s|
    ensures PauseCount(s[..i]) <= PauseCount(s)
    decreases |s| - i
  {
    if i < |s| {
      PauseCountPrefix(s, i + 1);
      assert s[..i + 1][..i] == s[..i];
    } else {
      assert s[..i] == s;
    }
  }

  /** An interval as configured (absent, `null`, or a number), resolved: a non-negative number, else 100. */
  function IntervalOr(interval: Option<int>): (ms: int)
    ensures ms >= 0
    ensures interval.Some? && interval.value >= 0 ==> ms == interval.value
    ensures !(interval.Some? && interval.value >= 0) ==> ms == DEFAULT_INTERVAL
  {
    match interval
    case Some(v) => if v >= 0 then v else DEFAULT_INTERVAL
    case None => DEFAULT_INTERVAL
  }

  /** The pause numbered `index`: `intervals[index]` resolved, with a missing entry counted as absent. */
  function PauseLength(intervals: seq<Option<int>>, index: nat): int
  {
    IntervalOr(if index < |intervals| then intervals[index] else None)
  }

  /** The actions a replay of `keys` performs. */
  function Replay(keys: seq<Input>, intervals: seq<Option<int>>): seq<Action>
  {
    if |keys| == 0 then []
    else
      var before := keys[..|keys| - 1];
      Replay(before, intervals)
      + (if PausesBefore(before, keys[|keys| - 1]) then [Wait(PauseLength(intervals, PauseCount(before)))] else [])
      + [Send(keys[|keys| - 1])]
  }

  /** The inputs a trace sends, in order. */
  function Sent(trace: seq<Action>): seq<Input>
  {
    if |trace| == 0 then []
    else Sent(trace[..|trace| - 1]) + (match trace[|trace| - 1] case Send(input) => [input] case Wait(_) => [])
  }

  /** The pauses a trace makes, in order. */
  function Waits(trace: seq<Action>): seq<int>
  {
    if |trace| == 0 then []
    else Waits(trace[..|trace| - 1]) + (match trace[|trace| - 1] case Wait(ms) => [ms] case Send(_) => [])
  }

  lemma SentSnoc(trace: seq<Action>, a: Action)
    ensures Sent(trace + [a]) == Sent(trace) + (match a case Send(input) => [input] case Wait(_) => [])
  {
    assert (trace + [a])[..|trace|] == trace;
  }

  lemma WaitsSnoc(trace: seq<Action>, a: Action)
    ensures Waits(trace + [a]) == Waits(trace) + (match a case Wait(ms) => [ms] case Send(_) => [])
  {
    assert (trace + [a])[..|trace|] == trace;
  }

  /** An optional pause followed by a send adds just the sent input. */
  lemma SentAfterPause(trace: seq<Action>, pause: seq<Action>, key: Input)
    requires pause == [] || (|pause| == 1 && pause[0].Wait?)
    ensures Sent(trace + pause + [Send(key)]) == Sent(trace) + [key]
  {
    SentSnoc(trace + pause, Send(key));
    if pause == [] {
      assert trace + pause == trace;
    } else {
      assert trace + pause == trace + [pause[0]];
      SentSnoc(trace, pause[0]);
    }
  }

  /** A replay sends every input exactly once, in order. */
  lemma {:induction false} ReplaySendsEveryKey(keys: seq<Input>, intervals: seq<Option<int>>)
    ensures Sent(Replay(keys, intervals)) == keys
    decreases |keys|
  {
    if |keys| > 0 {
      var before := keys[..|keys| - 1];
      var key := keys[|keys| - 1];
      var pause: seq<Action> := if PausesBefore(before, key) then [Wait(PauseLength(intervals, PauseCount(before)))] else [];
      assert Replay(keys, intervals) == Replay(before, intervals) + pause + [Send(key)];
      ReplaySendsEveryKey(before, intervals);
      SentAfterPause(Replay(before, intervals), pause, key);
      assert before + [key] == keys;
    }
  }

  /** A replay makes one pause per counted release, the n-th lasting `intervals[n]` resolved. */
  lemma {:induction false} ReplayWaits(keys: seq<Input>, intervals: seq<Option<int>>)
    ensures |Waits(Replay(keys, intervals))| == PauseCount(keys)
    ensures forall n :: 0 <= n < PauseCount(keys) ==> Waits(Replay(keys, intervals))[n] == PauseLength(intervals, n)
    decreases |keys|
  {
    if |keys| > 0 {
      var before := keys[..|keys| - 1];
      var key := keys[|keys| - 1];
      var previous := Replay(before, intervals);
      ReplayWaits(before, intervals);
      if PausesBefore(before, key) {
        var wait := Wait(PauseLength(intervals, PauseCount(before)));
        assert Replay(keys, intervals) == previous + [wait] + [Send(key)];
        WaitsSnoc(previous, wait);
        WaitsSnoc(previous + [wait], Send(key));
      } else {
        assert Replay(keys, intervals) == previous + [Send(key)];
        WaitsSnoc(previous, Send(key));
      }
    }
  }

  class KeyData {
    var prefix: Option<string>
    var danmaku: string
    var keys: seq<Input>
    var intervals: seq<Option<int>>
    var enable: bool

    /**
     * A new binding: prefix '@', enabled, and one interval of 100 for each
     * pause a replay of `keys` makes.
     */
    constructor(danmaku: string, keys: seq<Input>)
      ensures prefix == Some(DEFAULT_PREFIX) && this.danmaku == danmaku && this.keys == keys && enable
      ensures |intervals| == PauseCount(keys)
      ensures forall i :: 0 <= i < |intervals| ==> intervals[i] == Some(DEFAULT_INTERVAL)
    {
      prefix := Some(DEFAULT_PREFIX);
      this.danmaku := danmaku;
      this.keys := keys;
      enable := true;
      var isKeyDown := true;
      var num := 0;
      for i := 0 to |keys|
        invariant isKeyDown == !LastIsUp(keys[..i])
        invariant num == PauseCount(keys[..i])
      {
        assert keys[..i + 1][..i] == keys[..i];
        match keys[i]
        case KeyDown(_) =>
          isKeyDown := true;
        case KeyUp(_) =>
          if isKeyDown {
            num := num + 1;
          }
          isKeyDown := false;
        case Text(_) =>
      }
      assert keys[..|keys|] == keys;
      intervals := seq(num, _ => Some(DEFAULT_INTERVAL));
    }
  }

  /** `simulate`: replays the binding's inputs, pausing before each counted release. */
  method Simulate(keyData: KeyData) returns (trace: seq<Action>)
    ensures trace == Replay(keyData.keys, keyData.intervals)
  {
    var keys := keyData.keys;
    var intervals := keyData.intervals;
    var isKeyDown := true;
    var index := 0;
    trace := [];
    for i := 0 to |keys|
      invariant isKeyDown == !LastIsUp(keys[..i])
      invariant index == PauseCount(keys[..i])
      invariant trace == Replay(keys[..i], intervals)
    {
      assert keys[..i + 1][..i] == keys[..i];
      var key := keys[i];
      match key {
        case KeyDown(_) =>
          isKeyDown := true;
        case KeyUp(_) =>
          if isKeyDown {
            var interval := if index < |intervals| then intervals[index] else None;
            if interval.Some? && interval.value >= 0 {
              trace := trace + [Wait(interval.value)];
            } else {
              trace := trace + [Wait(DEFAULT_INTERVAL)];
            }
            index := index + 1;
          }
          isKeyDown := false;
        case Text(_) =>
      }
      trace := trace + [Send(key)];
    }
    assert keys[..|keys|] == keys;
  }

  /**
   * For a binding as the constructor builds it, every pause of a replay has
   * an interval of its own: the pause index stays below the number of
   * intervals, and every pause lasts 100 ms.
   */
  lemma FreshBindingPauses(keys: seq<Input>, intervals: seq<Option<int>>, i: nat)
    requires |intervals| == PauseCount(keys)
    requires forall j :: 0 <= j < |intervals| ==> intervals[j] == Some(DEFAULT_INTERVAL)
    requires i < |keys| && PausesBefore(keys[..i], keys[i])
    ensures PauseCount(keys[..i]) < |intervals|
    ensures PauseLength(intervals, PauseCount(keys[..i])) == DEFAULT_INTERVAL
  {
    PauseCountPrefix(keys, i + 1);
    assert keys[..i + 1][..i] == keys[..i];
  }

  /** The configuration: the pause between macros and the bindings. */
  class KeyConfig {
    var interval: Option<int>
    var keys: Option<seq<KeyData>>

    constructor(interval: Option<int>, keys: Option<seq<KeyData>>)
      ensures this.interval == interval && this.keys == keys
    {
      this.interval := interval;
      this.keys := keys;
    }
  }

  /** `waitInterval`: no pause without a configuration, else its interval resolved. */
  function WaitInterval(config: KeyConfig?): (r: Option<int>)
    reads config
    ensures r.None? <==> config == null
    ensures r.Some? ==> r.value >= 0
    ensures r.Some? && config.interval.Some? && config.interval.value >= 0 ==> r.value == config.interval.value
    ensures r.Some? && !(config.interval.Some? && config.interval.value >= 0) ==> r.value == DEFAULT_INTERVAL
  {
    if config == null then None else Some(IntervalOr(config.interval))
  }

  /** The bindings of a configuration, none when absent. */
  function Bindings(config: KeyConfig): set<KeyData>
    reads config
  {
    set k | config.keys.Some? && k in config.keys.value
  }

  /**
   * `loadConfig` after reading: a missing file gives the default
   * configuration; a parsed one is normalised in place: an unusable interval
   * becomes 100, missing bindings become none, and each binding without a
   * prefix gets '@'.
   */
  method LoadConfig(parsed: KeyConfig?) returns (config: KeyConfig)
    modifies parsed, if parsed == null then {} else Bindings(parsed)
    ensures parsed == null ==> fresh(config) && config.interval == Some(DEFAULT_INTERVAL) && config.keys == Some([])
    ensures parsed != null ==> config == parsed
    ensures parsed != null ==> config.interval == Some(IntervalOr(old(parsed.interval)))
    ensures parsed != null ==> config.keys == Some(old(parsed.keys).GetOr([]))
    ensures parsed != null ==> forall k :: k in old(Bindings(parsed)) ==>
              k.prefix == Some(old(k.prefix).GetOr(DEFAULT_PREFIX))
              && k.danmaku == old(k.danmaku) && k.keys == old(k.keys)
              && k.intervals == old(k.intervals) && k.enable == old(k.enable)
  {
    if parsed == null {
      config := new KeyConfig(Some(DEFAULT_INTERVAL), Some([]));
      return;
    }
    config := parsed;
    if config.interval.None? || config.interval.value < 0 {
      config.interval := Some(DEFAULT_INTERVAL);
    }
    if config.keys.None? {
      config.keys := Some([]);
    } else if |config.keys.value| > 0 {
      var keys := config.keys.value;
      for i := 0 to |keys|
        invariant config.keys == Some(keys) && config.interval == Some(IntervalOr(old(parsed.interval)))
        invariant forall j :: 0 <= j < |keys| ==>
                    (keys[j].prefix == old(keys[j].prefix)
                     || (old(keys[j].prefix).None? && keys[j].prefix == Some(DEFAULT_PREFIX)))
        invariant forall j :: 0 <= j < i ==> keys[j].prefix.Some?
        invariant forall j :: 0 <= j < |keys| ==>
                    keys[j].danmaku == old(keys[j].danmaku) && keys[j].keys == old(keys[j].keys)
                    && keys[j].intervals == old(keys[j].intervals) && keys[j].enable == old(keys[j].enable)
      {
        if keys[i].prefix.None? {
          keys[i].prefix := Some(DEFAULT_PREFIX);
        }
      }
    }
  }

  /** The name of every pressed key, in order; releases and text are dropped. */
  function PressedNames(keys: seq<Input>): (r: seq<string>)
    ensures |r| <= |keys|
  {
    if |keys| == 0 then []
    else PressedNames(keys[..|keys| - 1]) + (match keys[|keys| - 1] case KeyDown(k) => [ToString(k)] case _ => [])
  }

  /** The pressed keys, in order. */
  function Pressed(keys: seq<Input>): seq<Keycode>
  {
    if |keys| == 0 then []
    else Pressed(keys[..|keys| - 1]) + (match keys[|keys| - 1] case KeyDown(k) => [k] case _ => [])
  }

  /** `keysToString`: the pressed keys' names joined by single spaces. */
  function KeysToString(keys: seq<Input>): (s: string)
    ensures s == "" <==> Pressed(keys) == []
  {
    PressedNamesParse(keys);
    Text.JoinEmpty(PressedNames(keys), " ");
    Text.Join(PressedNames(keys), " ")
  }

  /**
   * The words of `keysToString` are the pressed keys' names, one per press,
   * and each parses back to the key pressed, up to the keypad aliases.
   */
  lemma {:induction false} PressedNamesParse(keys: seq<Input>)
    ensures |PressedNames(keys)| == |Pressed(keys)|
    ensures forall i :: 0 <= i < |Pressed(keys)| ==>
              PressedNames(keys)[i] == ToString(Pressed(keys)[i])
              && FromStr(PressedNames(keys)[i]) == Success(Canonical(Pressed(keys)[i]))
    decreases |keys|
  {
    if |keys| > 0 {
      PressedNamesParse(keys[..|keys| - 1]);
      match keys[|keys| - 1]
      case KeyDown(k) => ParseAfterDisplay(k);
      case KeyUp(_) =>
      case Text(_) =>
    }
  }

  /** One binding's alternative: its prefix ('@' when absent) and its danmaku as a group. */
  function Alternative(key: KeyData): string
    reads key
  {
    key.prefix.GetOr(DEFAULT_PREFIX) + "(" + key.danmaku + ")"
  }

  function Alternatives(keys: seq<KeyData>): (r: seq<string>)
    reads set k | k in keys
    ensures |r| == |keys|
    ensures forall i :: 0 <= i < |keys| ==> r[i] == Alternative(keys[i])
  {
    if |keys| == 0 then [] else Alternatives(keys[..|keys| - 1]) + [Alternative(keys[|keys| - 1])]
  }

  /** `keysToRegex`: one alternative per binding, joined by '|', case-insensitive and global. */
  function KeysToRegex(keys: seq<KeyData>): (r: Text.Pattern)
    reads set k | k in keys
    ensures r.flags == "ig"
    ensures r.source == Text.Join(Alternatives(keys), "|")
  {
    Text.Pattern(Text.Join(Alternatives(keys), "|"), "ig")
  }

  /** Adding a binding appends '|' and its alternative to the source. */
  lemma KeysToRegexSnoc(keys: seq<KeyData>, key: KeyData)
    ensures KeysToRegex(keys + [key]).source
            == if keys == [] then Alternative(key) else KeysToRegex(keys).source + "|" + Alternative(key)
  {
    assert (keys + [key])[..|keys|] == keys;
    assert Alternatives(keys + [key]) == Alternatives(keys) + [Alternative(key)];
    Text.JoinSnoc(Alternatives(keys), Alternative(key), "|");
  }
}
