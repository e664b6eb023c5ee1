/**
 * The first version of the danmaku-keyboard macros: bindings have no prefix,
 * intervals are plain numbers, and a replay only pauses while recorded
 * intervals remain.
 */
module LegacyKeyboardMacro {
  import opened Wrappers
  import opened KeyCodec
  import opened KeyboardMacro
  import Text

  /** The actions a replay of `keys` performs when intervals run out after `|intervals|` pauses. */
  function LegacyReplay(keys: seq<Input>, intervals: seq<int>): seq<Action>
  {
    if |keys| == 0 then []
    else
      var before := keys[..|keys| - 1];
      var index := PauseCount(before);
      LegacyReplay(before, intervals)
      + (if PausesBefore(before, keys[|keys| - 1]) && index < |intervals| then [Wait(intervals[index])] else [])
      + [Send(keys[|keys| - 1])]
  }

  function Min(a: nat, b: nat): nat
  {
    if a <= b then a else b
  }

  /** A replay sends every input exactly once, in order. */
  lemma {:induction false} LegacyReplaySendsEveryKey(keys: seq<Input>, intervals: seq<int>)
    ensures Sent(LegacyReplay(keys, intervals)) == keys
    decreases |keys|
  {
    if |keys| > 0 {
      var before := keys[..|keys| - 1];
      var key := keys[|keys| - 1];
      var index := PauseCount(before);
      var pause: seq<Action> := if PausesBefore(before, key) && index < |intervals| then [Wait(intervals[index])] else [];
      assert LegacyReplay(keys, intervals) == LegacyReplay(before, intervals) + pause + [Send(key)];
      LegacyReplaySendsEveryKey(before, intervals);
      SentAfterPause(LegacyReplay(before, intervals), pause, key);
      assert before + [key] == keys;
    }
  }

  /**
   * A replay pauses once per counted release while intervals remain, using
   * the recorded intervals in order; the releases after the last interval
   * are sent without a pause.
   */
  lemma {:induction false} LegacyReplayWaits(keys: seq<Input>, intervals: seq<int>)
    ensures Waits(LegacyReplay(keys, intervals)) == intervals[..Min(PauseCount(keys), |intervals|)]
    decreases |keys|
  {
    if |keys| > 0 {
      var before := keys[..|keys| - 1];
      var key := keys[|keys| - 1];
      var previous := LegacyReplay(before, intervals);
      var index := PauseCount(before);
      LegacyReplayWaits(before, intervals);
      if PausesBefore(before, key) && index < |intervals| {
        var wait := Wait(intervals[index]);
        assert LegacyReplay(keys, intervals) == previous + [wait] + [Send(key)];
        WaitsSnoc(previous, wait);
        WaitsSnoc(previous + [wait], Send(key));
        assert intervals[..index] + [intervals[index]] == intervals[..index + 1];
      } else {
        assert LegacyReplay(keys, intervals) == previous + [Send(key)];
        WaitsSnoc(previous, Send(key));
      }
    }
  }

  /** The intervals of the first version, read as the current version's optional ones. */
  function Lift(intervals: seq<int>): (r: seq<Option<int>>)
    ensures |r| == |intervals| && forall i :: 0 <= i < |intervals| ==> r[i] == Some(intervals[i])
  {
    seq(|intervals|, i requires 0 <= i < |intervals| => Some(intervals[i]))
  }

  /**
   * With an interval for every pause, none of them negative, both versions
   * replay a binding the same way.
   */
  lemma {:induction false} ReplayAgreesWithCurrent(keys: seq<Input>, intervals: seq<int>)
    requires PauseCount(keys) <= |intervals|
    requires forall i :: 0 <= i < |intervals| ==> intervals[i] >= 0
    ensures LegacyReplay(keys, intervals) == Replay(keys, Lift(intervals))
    decreases |keys|
  {
    if |keys| > 0 {
      ReplayAgreesWithCurrent(keys[..|keys| - 1], intervals);
    }
  }

  class KeyData {
    var danmaku: string
    var keys: seq<Input>
    var intervals: seq<int>
    var enable: bool

    /** A new binding: enabled, with one interval of 100 for each pause a replay of `keys` makes. */
    constructor(danmaku: string, keys: seq<Input>)
      ensures this.danmaku == danmaku && this.keys == keys && enable
      ensures |intervals| == PauseCount(keys)
      ensures forall i :: 0 <= i < |intervals| ==> intervals[i] == DEFAULT_INTERVAL
    {
      this.danmaku := danmaku;
      this.keys := keys;
      enable := true;
      var isKeyDown := true;
      var num := 0;
      for i := 0 to |keys|
        invariant isKeyDown == !LastIsUp(keys[..i])
        invariant num == PauseCount(keys[..i])
      {
        assert keys[..i + 1][..i] == keys[..i];
        match keys[i]
        case KeyDown(_) =>
          isKeyDown := true;
        case KeyUp(_) =>
          if isKeyDown {
            num := num + 1;
          }
          isKeyDown := false;
        case Text(_) =>
      }
      assert keys[..|keys|] == keys;
      intervals := seq(num, _ => DEFAULT_INTERVAL);
    }
  }

  /** `simulate`: replays the binding's inputs; the interval index never passes the number of intervals. */
  method Simulate(keyData: KeyData) returns (trace: seq<Action>)
    ensures trace == LegacyReplay(keyData.keys, keyData.intervals)
  {
    var keys := keyData.keys;
    var intervals := keyData.intervals;
    var isKeyDown := true;
    var index := 0;
    trace := [];
    for i := 0 to |keys|
      invariant isKeyDown == !LastIsUp(keys[..i])
      invariant index == Min(PauseCount(keys[..i]), |intervals|)
      invariant index <= |intervals|
      invariant trace == LegacyReplay(keys[..i], intervals)
    {
      assert keys[..i + 1][..i] == keys[..i];
      var key := keys[i];
      match key {
        case KeyDown(_) =>
          isKeyDown := true;
        case KeyUp(_) =>
          if isKeyDown {
            if index < |intervals| {
              trace := trace + [Wait(intervals[index])];
              index := index + 1;
            }
          }
          isKeyDown := false;
        case Text(_) =>
      }
      trace := trace + [Send(key)];
    }
    assert keys[..|keys|] == keys;
  }

  /** One binding's alternative: '@', its danmaku as a group, and an optional space. */
  function Alternative(key: KeyData): string
    reads key
  {
    "@(" + key.danmaku + ")[ ]?"
  }

  function Alternatives(keys: seq<KeyData>): (r: seq<string>)
    reads set k | k in keys
    ensures |r| == |keys|
    ensures forall i :: 0 <= i < |keys| ==> r[i] == Alternative(keys[i])
  {
    if |keys| == 0 then [] else Alternatives(keys[..|keys| - 1]) + [Alternative(keys[|keys| - 1])]
  }

  /** `keysToRegex`: one alternative per binding, joined by '|', case-insensitive. */
  function KeysToRegex(keys: seq<KeyData>): (r: Text.Pattern)
    reads set k | k in keys
    ensures r.flags == "i"
    ensures r.source == Text.Join(Alternatives(keys), "|")
  {
    Text.Pattern(Text.Join(Alternatives(keys), "|"), "i")
  }

  /** Adding a binding appends '|' and its alternative to the source. */
  lemma KeysToRegexSnoc(keys: seq<KeyData>, key: KeyData)
    ensures KeysToRegex(keys + [key]).source
            == if keys == [] then Alternative(key) else KeysToRegex(keys).source + "|" + Alternative(key)
  {
    assert (keys + [key])[..|keys|] == keys;
    assert Alternatives(keys + [key]) == Alternatives(keys) + [Alternative(key)];
    Text.JoinSnoc(Alternatives(keys), Alternative(key), "|");
  }
}
