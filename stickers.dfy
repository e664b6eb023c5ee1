/**
 * The danmaku-sticker overlay's lane placement. Each sticker shown on screen
 * occupies a horizontal band [top, bottom) for a time window [start, end);
 * the list of shown stickers is kept sorted by top, then start. A new sticker
 * scans the list from the top and is bumped below every band it would
 * collide with. Screen sizes and times are JavaScript numbers, modelled as
 * reals; the current time is a parameter.
 */
module Stickers {
  import opened Wrappers
  import Text

  /** Milliseconds a band stays reserved after its sticker's duration. */
  const GAP: real := 100.0

  /** Vertical space added below every sticker. */
  const PADDING: real := 10.0

  /** The duration of a sticker without a usable one. */
  const DEFAULT_DURATION: real := 5000.0

  datatype Direction = LeftToRight | RightToLeft

  /** A configured sticker: the danmaku that triggers it and how it is shown. */
  datatype StickerData = StickerData(
    danmaku: string,
    path: string,
    pathInWeb: string,
    direction: Direction,
    height: Option<real>,
    duration: Option<real>,
    enable: bool)

  datatype Sticker = Sticker(id: int, data: StickerData)

  /** A sticker on screen: its band and its time window. */
  datatype DanmakuData = DanmakuData(id: int, direction: Direction, start: real, end: real, top: real, bottom: real)

  /** The duration used: the configured one unless it is absent or zero, else 5000. */
  function Duration(data: StickerData): (d: real)
    ensures d != 0.0
    ensures data.duration.Some? && data.duration.value != 0.0 ==> d == data.duration.value
    ensures !(data.duration.Some? && data.duration.value != 0.0) ==> d == DEFAULT_DURATION
  {
    match data.duration
    case Some(v) => if v != 0.0 then v else DEFAULT_DURATION
    case None => DEFAULT_DURATION
  }

  /** What the placement of one new sticker depends on. */
  datatype Arrival = Arrival(direction: Direction, start: real, duration: real, width: real, height: real, windowWidth: real)

  /**
   * Whether the new sticker's disappear time, start + gap +
   * (windowWidth - padding) / (width + windowWidth) * duration, lies before
   * `end`. A zero denominator makes the ratio an infinity of the
   * numerator's sign (or NaN for a zero numerator), and only minus infinity
   * compares below `end`.
   */
  predicate DisappearsBefore(a: Arrival, end: real)
  {
    var span := a.width + a.windowWidth;
    var room := a.windowWidth - PADDING;
    if span != 0.0 then a.start + GAP + room / span * a.duration < end
    else (room > 0.0 && a.duration < 0.0) || (room < 0.0 && a.duration > 0.0)
  }

  /**
   * The top the new sticker moves to after meeting `entry`: below a sticker
   * going the other way, below one going its way that is still on screen
   * when it would leave, and level with one going its way that leaves first.
   */
  function TopAfter(entry: DanmakuData, a: Arrival): (top: real)
    ensures top == entry.top || top == entry.bottom
    ensures entry.direction != a.direction ==> top == entry.bottom
    ensures entry.direction == a.direction && DisappearsBefore(a, entry.end) ==> top == entry.bottom
    ensures entry.direction == a.direction && !DisappearsBefore(a, entry.end) ==> top == entry.top
  {
    if entry.direction != a.direction then entry.bottom
    else if DisappearsBefore(a, entry.end) then entry.bottom
    else entry.top
  }

  /** The top the scan ends at, starting from `top`: it stops at the first entry at or below the candidate's bottom. */
  function Scan(entries: seq<DanmakuData>, top: real, a: Arrival): real
  {
    if |entries| == 0 || entries[0].top >= top + a.height + PADDING then top
    else Scan(entries[1..], TopAfter(entries[0], a), a)
  }

  /** The edges of the bands in `entries`. */
  function Edges(entries: seq<DanmakuData>): set<real>
  {
    (set e | e in entries :: e.top) + (set e | e in entries :: e.bottom)
  }

  /** The scan ends where it started or at an edge of one of the bands it met. */
  lemma {:induction false} ScanEndsAtAnEdge(entries: seq<DanmakuData>, top: real, a: Arrival)
    ensures Scan(entries, top, a) == top || Scan(entries, top, a) in Edges(entries)
    decreases |entries|
  {
    if |entries| > 0 && entries[0].top < top + a.height + PADDING {
      ScanEndsAtAnEdge(entries[1..], TopAfter(entries[0], a), a);
      var r := Scan(entries, top, a);
      assert entries[0] in entries;
      if r != TopAfter(entries[0], a) {
        assert r in Edges(entries[1..]);
        forall e | e in entries[1..]
          ensures e in entries
        {
        }
      }
    }
  }

  /** The band `addDanmaku` gives a sticker arriving at `now` while `list` is on screen. */
  function Placement(list: seq<DanmakuData>, sticker: Sticker, now: real, width: real, height: real, windowWidth: real): DanmakuData
  {
    var duration := Duration(sticker.data);
    var end := now + duration + GAP;
    if |list| == 0 then
      DanmakuData(sticker.id, sticker.data.direction, now, end, PADDING, height + PADDING + PADDING)
    else
      var top := Scan(list, 0.0, Arrival(sticker.data.direction, now, duration, width, height, windowWidth));
      DanmakuData(sticker.id, sticker.data.direction, now, end, top, top + height + PADDING)
  }

  /**
   * Every placement keeps the sticker's id and direction, starts now, ends
   * after its duration and the gap, and is height + padding tall. On an
   * empty screen it sits at 10; otherwise at 0 or at an edge of a shown band.
   */
  lemma PlacementShape(list: seq<DanmakuData>, sticker: Sticker, now: real, width: real, height: real, windowWidth: real)
    ensures var d := Placement(list, sticker, now, width, height, windowWidth);
      && d.id == sticker.id && d.direction == sticker.data.direction
      && d.start == now && d.end == now + Duration(sticker.data) + GAP
      && d.bottom - d.top == height + PADDING
      && (list == [] ==> d.top == PADDING)
      && (list != [] ==> d.top == 0.0 || d.top in Edges(list))
  {
    if list != [] {
      var a := Arrival(sticker.data.direction, now, Duration(sticker.data), width, height, windowWidth);
      ScanEndsAtAnEdge(list, 0.0, a);
    }
  }

  /** When the first shown band starts below the new sticker's height, the sticker goes to the very top. */
  lemma PlacedAtTopWhenRoom(list: seq<DanmakuData>, sticker: Sticker, now: real, width: real, height: real, windowWidth: real)
    requires list != [] && list[0].top >= height + PADDING
    ensures Placement(list, sticker, now, width, height, windowWidth).top == 0.0
  {
  }

  /** `a` sorts no later than `b`: by top, then by start. */
  predicate Before(a: DanmakuData, b: DanmakuData)
  {
    a.top < b.top || (a.top == b.top && a.start <= b.start)
  }

  /** `a` sorts strictly before `b`. */
  predicate StrictlyBefore(a: DanmakuData, b: DanmakuData)
  {
    a.top < b.top || (a.top == b.top && a.start < b.start)
  }

  predicate Sorted(list: seq<DanmakuData>)
  {
    forall i, j :: 0 <= i < j < |list| ==> Before(list[i], list[j])
  }

  /** Where a stable sort of a sorted `list` with `x` appended puts `x`: before the first entry that sorts strictly after it. */
  function Position(list: seq<DanmakuData>, x: DanmakuData): (k: nat)
    ensures k <= |list|
    ensures forall i :: 0 <= i < k ==> !StrictlyBefore(x, list[i])
    ensures k < |list| ==> StrictlyBefore(x, list[k])
  {
    if |list| == 0 then 0
    else if StrictlyBefore(x, list[0]) then 0
    else 1 + Position(list[1..], x)
  }

  /** The list after `push(x)` and the stable sort by (top, start). */
  function Insert(list: seq<DanmakuData>, x: DanmakuData): seq<DanmakuData>
  {
    var k := Position(list, x);
    list[..k] + [x] + list[k..]
  }

  /** Sorting strictly before, then no later, is sorting strictly before. */
  lemma StrictlyBeforeThenBefore(a: DanmakuData, b: DanmakuData, c: DanmakuData)
    requires StrictlyBefore(a, b) && Before(b, c)
    ensures StrictlyBefore(a, c)
  {
  }

  /** The insertion keeps the old entries in their order and puts `x` at its position. */
  lemma InsertKeepsOrder(list: seq<DanmakuData>, x: DanmakuData)
    ensures var r := Insert(list, x); var k := Position(list, x);
      |r| == |list| + 1 && r[k] == x && r[..k] + r[k + 1..] == list
      && multiset(r) == multiset(list) + multiset{x}
  {
    var k := Position(list, x);
    var r := Insert(list, x);
    assert r[..k] == list[..k] && r[k + 1..] == list[k..];
    assert list[..k] + list[k..] == list;
    assert r == list[..k] + [x] + list[k..];
    assert multiset(r) == multiset(list[..k]) + multiset{x} + multiset(list[k..]);
  }

  /** Every entry ahead of `x` in the insertion sorts no later than `x`. */
  lemma InsertAfterLevel(list: seq<DanmakuData>, x: DanmakuData)
    ensures forall i :: 0 <= i < Position(list, x) ==> Before(Insert(list, x)[i], x)
  {
    var k := Position(list, x);
    forall i | 0 <= i < k
      ensures Before(Insert(list, x)[i], x)
    {
      assert Insert(list, x)[i] == list[i];
    }
  }

  /** Inserting into a sorted list keeps it sorted. */
  lemma InsertSorted(list: seq<DanmakuData>, x: DanmakuData)
    requires Sorted(list)
    ensures Sorted(Insert(list, x))
  {
    var k := Position(list, x);
    var r := Insert(list, x);
    forall i, j | 0 <= i < j < |r|
      ensures Before(r[i], r[j])
    {
      if j < k {
        assert r[i] == list[i] && r[j] == list[j];
      } else if j == k {
        assert r[i] == list[i] && r[j] == x;
        assert !StrictlyBefore(x, list[i]);
      } else if i < k {
        assert r[i] == list[i] && r[j] == list[j - 1];
      } else if i == k {
        assert r[i] == x && r[j] == list[j - 1];
        if j - 1 > k {
          assert Before(list[k], list[j - 1]);
          StrictlyBeforeThenBefore(x, list[k], list[j - 1]);
        }
      } else {
        assert r[i] == list[i - 1] && r[j] == list[j - 1];
      }
    }
  }

  /** `findIndex` on the id: the first entry with it, or -1. */
  function FindIndex(list: seq<DanmakuData>, id: int): (r: int)
    ensures -1 <= r < |list|
    ensures r >= 0 ==> list[r].id == id && forall i :: 0 <= i < r ==> list[i].id != id
    ensures r == -1 <==> forall i :: 0 <= i < |list| ==> list[i].id != id
  {
    if |list| == 0 then -1
    else if list[0].id == id then 0
    else
      var r := FindIndex(list[1..], id);
      if r == -1 then -1 else r + 1
  }

  /** The list after `removeDanmaku(id)`. */
  function RemoveFirst(list: seq<DanmakuData>, id: int): seq<DanmakuData>
  {
    var i := FindIndex(list, id);
    if i >= 0 then list[..i] + list[i + 1..] else list
  }

  /**
   * Removing drops exactly the first entry with the id and keeps the others
   * in order; without such an entry it changes nothing.
   */
  lemma RemoveFirstDropsOne(list: seq<DanmakuData>, id: int)
    ensures FindIndex(list, id) == -1 ==> RemoveFirst(list, id) == list
    ensures FindIndex(list, id) >= 0 ==>
              |RemoveFirst(list, id)| == |list| - 1
              && multiset(RemoveFirst(list, id)) + multiset{list[FindIndex(list, id)]} == multiset(list)
    ensures FindIndex(list, id) >= 0 ==>
              forall j :: 0 <= j < |RemoveFirst(list, id)| ==>
                RemoveFirst(list, id)[j] == list[if j < FindIndex(list, id) then j else j + 1]
  {
    var i := FindIndex(list, id);
    if i >= 0 {
      DropAt(list, i);
      var r := RemoveFirst(list, id);
      assert r == list[..i] + list[i + 1..];
      forall j | 0 <= j < |r|
        ensures r[j] == list[if j < i then j else j + 1]
      {
        DropIndex(list, i, j);
      }
    }
  }

  /** Dropping one element from a sequence drops it from the multiset. */
  lemma DropAt<T>(s: seq<T>, i: nat)
    requires i < |s|
    ensures |s[..i] + s[i + 1..]| == |s| - 1
    ensures multiset(s[..i] + s[i + 1..]) + multiset{s[i]} == multiset(s)
  {
    assert s == s[..i] + [s[i]] + s[i + 1..];
  }

  /** Removing an entry keeps a sorted list sorted. */
  lemma RemoveFirstSorted(list: seq<DanmakuData>, id: int)
    requires Sorted(list)
    ensures Sorted(RemoveFirst(list, id))
  {
    var i := FindIndex(list, id);
    if i >= 0 {
      var r := list[..i] + list[i + 1..];
      assert RemoveFirst(list, id) == r;
      forall a, b | 0 <= a < b < |r|
        ensures Before(r[a], r[b])
      {
        DropIndex(list, i, a);
        DropIndex(list, i, b);
      }
    }
  }

  /** After dropping index `i`, the entries from `i` on are shifted down by one. */
  lemma DropIndex<T>(s: seq<T>, i: nat, a: nat)
    requires i < |s| && a < |s| - 1
    ensures (s[..i] + s[i + 1..])[a] == s[if a < i then a else a + 1]
  {
  }

  /** One sticker's alternative: '#' and its danmaku as a group. */
  function Alternative(sticker: StickerData): string
  {
    "#(" + sticker.danmaku + ")"
  }

  /** The stickers' alternatives, in order. */
  function Alternatives(stickers: seq<StickerData>): (r: seq<string>)
    ensures |r| == |stickers|
    ensures forall i :: 0 <= i < |stickers| ==> r[i] == Alternative(stickers[i])
  {
    if |stickers| == 0 then [] else Alternatives(stickers[..|stickers| - 1]) + [Alternative(stickers[|stickers| - 1])]
  }

  /** `stickersToRegex`: one alternative per sticker, joined by '|', case-insensitive and global. */
  function StickersToRegex(stickers: seq<StickerData>): (r: Text.Pattern)
    ensures r.flags == "ig"
    ensures r.source == Text.Join(Alternatives(stickers), "|")
  {
    Text.Pattern(Text.Join(Alternatives(stickers), "|"), "ig")
  }

  /** Adding a sticker appends '|' and its alternative to the source. */
  lemma StickersToRegexSnoc(stickers: seq<StickerData>, sticker: StickerData)
    ensures StickersToRegex(stickers + [sticker]).source
            == if stickers == [] then Alternative(sticker) else StickersToRegex(stickers).source + "|" + Alternative(sticker)
  {
    assert (stickers + [sticker])[..|stickers|] == stickers;
    Text.JoinSnoc(Alternatives(stickers), Alternative(sticker), "|");
  }

  /** The stickers on screen, in the order the placement scans them. */
  class DanmakuList {
    var list: seq<DanmakuData>

    predicate Valid()
      reads this
    {
      Sorted(list)
    }

    constructor()
      ensures Valid() && list == []
    {
      list := [];
    }

    /**
     * `addDanmaku`: places the sticker by scanning the list, adds it, and
     * keeps the list sorted.
     */
    method AddDanmaku(sticker: Sticker, now: real, width: real, height: real, windowWidth: real) returns (data: DanmakuData)
      requires Valid()
      modifies this
      ensures Valid()
      ensures data == Placement(old(list), sticker, now, width, height, windowWidth)
      ensures list == Insert(old(list), data)
    {
      var duration := Duration(sticker.data);
      var start := now;
      var end := start + duration + GAP;
      var top := 0.0;
      var bottom := height + PADDING;

      if |list| == 0 {
        data := DanmakuData(sticker.id, sticker.data.direction, start, end, top + PADDING, bottom + PADDING);
        list := list + [data];
        return;
      }

      var a := Arrival(sticker.data.direction, start, duration, width, height, windowWidth);
      var i := 0;
      while i < |list|
        invariant 0 <= i <= |list|
        invariant bottom == top + height + PADDING
        invariant Scan(list[i..], top, a) == Scan(list, 0.0, a)
      {
        var danmaku := list[i];
        assert list[i..][1..] == list[i + 1..];
        if danmaku.top >= bottom {
          break;
        }
        if danmaku.direction != sticker.data.direction {
          top := danmaku.bottom;
          bottom := top + height + PADDING;
        } else {
          if DisappearsBefore(a, danmaku.end) {
            top := danmaku.bottom;
          } else {
            top := danmaku.top;
          }
          bottom := top + height + PADDING;
        }
        i := i + 1;
      }

      data := DanmakuData(sticker.id, sticker.data.direction, start, end, top, bottom);
      InsertSorted(list, data);
      list := Insert(list, data);
    }

    /** `removeDanmaku`: drops the first sticker with the id, if any. */
    method RemoveDanmaku(id: int)
      requires Valid()
      modifies this
      ensures Valid()
      ensures list == RemoveFirst(old(list), id)
    {
      RemoveFirstSorted(list, id);
      var index := FindIndex(list, id);
      if index >= 0 {
        list := list[..index] + list[index + 1..];
      }
    }
  }
}
