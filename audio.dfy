/**
 * The audio crate's source registry: synthesised audio is stored under an
 * id drawn from one process-wide counter, and taken out again by id.
 */
module Audio {
  import opened Wrappers

  const MAX_ID: int := 0xFFFF_FFFF

  /** `AudioSourceId`, a `u32`. */
  type AudioSourceId = x: int | 0 <= x <= MAX_ID

  /** `AudioSource`, the encoded bytes. */
  type AudioSource = seq<bv8>

  /**
   * The id after `id`: one more, wrapping to 0 past the largest `u32` as
   * unchecked `u32` addition does in a release build.
   */
  function Next(id: AudioSourceId): (r: AudioSourceId)
    ensures id < MAX_ID ==> r == id + 1
    ensures id == MAX_ID ==> r == 0
  {
    (id + 1) % (MAX_ID + 1)
  }

  /** The ids `n` calls of `new_id` hand out, starting from the counter value `start`. */
  function Issued(start: AudioSourceId, n: nat): seq<AudioSourceId>
    decreases n
  {
    if n == 0 then [] else [Next(start)] + Issued(Next(start), n - 1)
  }

  /**
   * Until the counter would wrap, successive ids are the counter's next
   * values, so they strictly increase and never repeat.
   */
  lemma {:induction false} IssuedIncrease(start: AudioSourceId, n: nat)
    requires start + n <= MAX_ID
    ensures |Issued(start, n)| == n
    ensures forall i :: 0 <= i < n ==> Issued(start, n)[i] == start + i + 1
    ensures forall i, j :: 0 <= i < j < n ==> Issued(start, n)[i] < Issued(start, n)[j]
    decreases n
  {
    if n > 0 {
      IssuedIncrease(Next(start), n - 1);
    }
  }

  /** The counter behind `new_id`; every manager draws from the same one. */
  class IdCounter {
    var id: AudioSourceId

    constructor()
      ensures id == 0
    {
      id := 0;
    }

    /** `new_id`: advances the counter and returns its new value. */
    method NewId() returns (r: AudioSourceId)
      modifies this
      ensures id == Next(old(id)) && r == id
    {
      id := if id == MAX_ID then 0 else id + 1;
      r := id;
    }
  }

  /** The registry after storing `source` under `id`. */
  function Put(sources: map<AudioSourceId, AudioSource>, id: AudioSourceId, source: AudioSource): (r: map<AudioSourceId, AudioSource>)
    ensures id in r && r[id] == source
    ensures forall k :: k in sources && k != id ==> k in r && r[k] == sources[k]
    ensures forall k :: k in r ==> k == id || k in sources
  {
    sources[id := source]
  }

  /** `get_and_remove`: the source stored under `id`, if any, and the registry without it. */
  function Take(sources: map<AudioSourceId, AudioSource>, id: AudioSourceId): (r: (Option<AudioSource>, map<AudioSourceId, AudioSource>))
    ensures r.0.Some? <==> id in sources
    ensures r.0.Some? ==> r.0.value == sources[id]
    ensures id !in r.1
  {
    if id in sources then (Some(sources[id]), sources - {id}) else (None, sources - {id})
  }

  /** Taking an id leaves every other entry as it was, and taking an unknown id changes nothing. */
  lemma TakeKeepsOthers(sources: map<AudioSourceId, AudioSource>, id: AudioSourceId)
    ensures forall k :: k != id ==> (k in Take(sources, id).1 <==> k in sources)
    ensures forall k :: k != id && k in sources ==> Take(sources, id).1[k] == sources[k]
    ensures id !in sources ==> Take(sources, id).1 == sources
  {
  }

  /** A second take of the same id finds nothing. */
  lemma TakeTwice(sources: map<AudioSourceId, AudioSource>, id: AudioSourceId)
    ensures Take(Take(sources, id).1, id) == (None, Take(sources, id).1)
  {
    var rest := Take(sources, id).1;
    assert rest - {id} == rest;
  }

  /** What was stored is what is taken, and taking it restores the registry as it was without that id. */
  lemma TakeAfterPut(sources: map<AudioSourceId, AudioSource>, id: AudioSourceId, source: AudioSource)
    ensures Take(Put(sources, id, source), id) == (Some(source), sources - {id})
  {
    assert Put(sources, id, source) - {id} == sources - {id};
  }

  /** Every stored id was handed out by the counter: none is 0 or beyond the counter's value. */
  predicate IdsIssued(sources: map<AudioSourceId, AudioSource>, counter: AudioSourceId)
  {
    forall k :: k in sources ==> 1 <= k <= counter
  }

  /**
   * While the counter has not wrapped, the next id is unused, so storing
   * under it overwrites nothing, and the registry still holds only issued
   * ids afterwards.
   */
  lemma FreshIdUnused(sources: map<AudioSourceId, AudioSource>, counter: AudioSourceId, source: AudioSource)
    requires IdsIssued(sources, counter) && counter < MAX_ID
    ensures Next(counter) !in sources
    ensures IdsIssued(Put(sources, Next(counter), source), Next(counter))
    ensures |Put(sources, Next(counter), source).Keys| == |sources.Keys| + 1
  {
    var r := Put(sources, Next(counter), source);
    assert r.Keys == sources.Keys + {Next(counter)};
  }

  /** `AudioSourceManager`: the stored sources by id. */
  class AudioSourceManager {
    var sources: map<AudioSourceId, AudioSource>

    constructor()
      ensures sources == map[]
    {
      sources := map[];
    }

    /** `add`: stores the source under a new id from the shared counter and returns that id. */
    method Add(counter: IdCounter, source: AudioSource) returns (id: AudioSourceId)
      modifies this, counter
      ensures counter.id == Next(old(counter.id)) && id == counter.id
      ensures sources == Put(old(sources), id, source)
    {
      id := counter.NewId();
      sources := sources[id := source];
    }

    /** `get_and_remove`. */
    method GetAndRemove(id: AudioSourceId) returns (source: Option<AudioSource>)
      modifies this
      ensures (source, sources) == Take(old(sources), id)
    {
      if id in sources {
        source := Some(sources[id]);
      } else {
        source := None;
      }
      sources := sources - {id};
    }
  }
}
