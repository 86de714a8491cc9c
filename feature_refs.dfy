/**
 * The feature-reference record a facade embeds (`FeatureReferences<TCache>`):
 * the bound collection, the collection revision it last observed, and a cache
 * record with one slot per feature kind. `Fetch` resolves one slot.
 *
 * The record's own code is not part of this model. `Fetch` here follows its
 * boundary contract: a slot resolves to the collection's feature of that kind
 * when there is one, else to the factory's result, and the result is kept in
 * the slot. The revision gating (a slot is reused only while the collection's
 * revision is the one last observed; otherwise the whole cache is cleared) is
 * an assumption about that unseen code, not verified source behaviour.
 */
module FeatureRefs {
  import opened Wrappers
  import opened Features

  datatype FeatureReferences<C> = FeatureReferences(collection: FeatureCollection?, revision: nat, cache: C)

  /**
   * A `ref` to one slot of type `F` inside a cache record of type `C`. The
   * lemmas below ask of a slot that it reads back what was put in it
   * (`slot.get(slot.put(c, v)) == v`), that it is empty in the default
   * record, and, for two slots, that writing one leaves the other alone.
   */
  datatype Slot<!C, !F> = Slot(get: C -> Option<F>, put: (C, Option<F>) -> C)

  /** The record after `new FeatureReferences<TCache>(collection)`: bound, every slot empty. */
  function Bind<C>(collection: FeatureCollection, revision: nat, empty: C): FeatureReferences<C>
  {
    FeatureReferences(collection, revision, empty)
  }

  /** The record after `default(FeatureReferences<TCache>)`: bound to nothing, every slot empty. */
  function Unbound<C>(empty: C): FeatureReferences<C>
  {
    FeatureReferences(null, 0, empty)
  }

  /**
   * What `slot` resolves to without calling the factory, when the collection
   * is at `revision` and holds `stored`: the cached feature if it was cached
   * at this revision, else the collection's own.
   */
  function Resolution<C, F>(refs: FeatureReferences<C>, slot: Slot<C, F>, revision: nat, stored: Option<F>): (r: Option<F>)
    ensures r.None? ==> stored.None?
    ensures Coherent(refs, slot, revision, stored) && stored.Some? ==> r == stored
    ensures Mirrors(refs, slot, revision, stored) ==> r == stored
  {
    var cached := slot.get(refs.cache);
    if refs.revision == revision && cached.Some? then cached else stored
  }

  /** A slot cached at the current revision never disagrees with a feature the collection holds. */
  ghost predicate Coherent<C, F>(refs: FeatureReferences<C>, slot: Slot<C, F>, revision: nat, stored: Option<F>)
  {
    refs.revision == revision && slot.get(refs.cache).Some? && stored.Some? ==> slot.get(refs.cache) == stored
  }

  /** A slot cached at the current revision holds exactly the collection's feature (no synthesised default). */
  ghost predicate Mirrors<C, F>(refs: FeatureReferences<C>, slot: Slot<C, F>, revision: nat, stored: Option<F>)
  {
    refs.revision == revision && slot.get(refs.cache).Some? ==> slot.get(refs.cache) == stored
  }

  datatype Fetched<C, F> = Fetched(refs: FeatureReferences<C>, feature: Option<F>)

  /**
   * `Fetch(ref slot, factory)` on a record bound to a collection that is at
   * `revision` and holds `stored` for this slot's kind; `made` is what the
   * factory returns if it is called.
   */
  function Fetch<C, F>(refs: FeatureReferences<C>, empty: C, slot: Slot<C, F>, revision: nat, stored: Option<F>, made: Option<F>): (r: Fetched<C, F>)
    requires refs.collection != null
    ensures r.refs.collection == refs.collection && r.refs.revision == revision
    // the factory is consulted only when neither the slot nor the collection supplies the feature
    ensures Resolution(refs, slot, revision, stored).Some? ==> r.feature == Resolution(refs, slot, revision, stored)
    ensures Resolution(refs, slot, revision, stored).None? ==> r.feature == made
    // a slot that is still current is served from the cache and nothing is written
    ensures refs.revision == revision && slot.get(refs.cache).Some? ==> r.refs == refs
  {
    var flush := refs.revision != revision;
    var cached := if flush then None else slot.get(refs.cache);
    if cached.Some? then
      Fetched(refs, cached)
    else
      var cache := if flush then empty else refs.cache;
      var feature := if stored.Some? then stored else made;
      Fetched(FeatureReferences(refs.collection, revision, slot.put(cache, feature)), feature)
  }

  /**
   * The fetched feature is memoised: the next fetch at the same revision
   * resolves to it without calling the factory. Fetching keeps the slot's
   * agreement with the collection.
   */
  lemma FetchMemoises<C, F>(refs: FeatureReferences<C>, empty: C, slot: Slot<C, F>, revision: nat, stored: Option<F>, made: Option<F>)
    requires refs.collection != null
    requires forall c, v :: slot.get(slot.put(c, v)) == v
    ensures var r := Fetch(refs, empty, slot, revision, stored, made);
      Resolution(r.refs, slot, revision, stored) == r.feature &&
      (Coherent(refs, slot, revision, stored) ==> Coherent(r.refs, slot, revision, stored)) &&
      (made.None? && Mirrors(refs, slot, revision, stored) ==> Mirrors(r.refs, slot, revision, stored))
  {
  }

  /**
   * Fetching one slot never changes what another slot resolves to, and keeps
   * the other slot's agreement with the collection.
   */
  lemma FetchKeepsOtherSlot<C, F, G>(refs: FeatureReferences<C>, empty: C, slot: Slot<C, F>, other: Slot<C, G>,
                                     revision: nat, stored: Option<F>, made: Option<F>, otherStored: Option<G>)
    requires refs.collection != null
    requires other.get(empty) == None
    requires forall c, v :: other.get(slot.put(c, v)) == other.get(c)
    ensures var after := Fetch(refs, empty, slot, revision, stored, made).refs;
      Resolution(after, other, revision, otherStored) == Resolution(refs, other, revision, otherStored) &&
      (Coherent(refs, other, revision, otherStored) ==> Coherent(after, other, revision, otherStored)) &&
      (Mirrors(refs, other, revision, otherStored) ==> Mirrors(after, other, revision, otherStored))
  {
  }

  /** A freshly bound record resolves every slot straight to the collection. */
  lemma BindResolvesToCollection<C, F>(collection: FeatureCollection, bound: nat, empty: C, slot: Slot<C, F>,
                                       revision: nat, stored: Option<F>)
    requires slot.get(empty) == None
    ensures Resolution(Bind(collection, bound, empty), slot, revision, stored) == stored
    ensures Mirrors(Bind(collection, bound, empty), slot, revision, stored)
  {
  }

  /** One step a request makes: fetch the slot, or replace the collection's feature (bumping its revision). */
  datatype Event<F> = Access(made: Option<F>) | Replace(feature: Option<F>)

  /** What one access returned, beside what the collection held at that moment. */
  datatype Observation<F> = Observation(returned: Option<F>, held: Option<F>)

  /** The observations of a sequence of events on one slot, starting from `refs` and a collection at `revision` holding `stored`. */
  function Replay<C, F>(refs: FeatureReferences<C>, empty: C, slot: Slot<C, F>, revision: nat, stored: Option<F>,
                        events: seq<Event<F>>): seq<Observation<F>>
    requires refs.collection != null
    decreases |events|
  {
    if events == [] then []
    else match events[0]
      case Access(made) =>
        var r := Fetch(refs, empty, slot, revision, stored, made);
        [Observation(r.feature, stored)] + Replay(r.refs, empty, slot, revision, stored, events[1..])
      case Replace(feature) =>
        Replay(refs, empty, slot, revision + 1, feature, events[1..])
  }

  /** Every access that found a feature in the collection returned that very feature. */
  ghost predicate NeverStale<F>(obs: seq<Observation<F>>)
  {
    forall i :: 0 <= i < |obs| && obs[i].held.Some? ==> obs[i].returned == obs[i].held
  }

  /** Every access returned `feature`. */
  ghost predicate AllReturned<F>(obs: seq<Observation<F>>, feature: Option<F>)
  {
    forall i :: 0 <= i < |obs| ==> obs[i].returned == feature
  }

  /**
   * No stale feature is ever served: across any interleaving of fetches and
   * replacements, every fetch made while the collection holds a feature of
   * the slot's kind returns that very feature.
   */
  lemma {:induction false} ReplayNeverStale<C, F>(refs: FeatureReferences<C>, empty: C, slot: Slot<C, F>, revision: nat,
                                                  stored: Option<F>, events: seq<Event<F>>)
    requires refs.collection != null
    requires forall c, v :: slot.get(slot.put(c, v)) == v
    requires refs.revision <= revision && Coherent(refs, slot, revision, stored)
    ensures NeverStale(Replay(refs, empty, slot, revision, stored, events))
    decreases |events|
  {
    if events != [] {
      match events[0]
      case Access(made) =>
        var r := Fetch(refs, empty, slot, revision, stored, made);
        FetchMemoises(refs, empty, slot, revision, stored, made);
        ReplayNeverStale(r.refs, empty, slot, revision, stored, events[1..]);
        var rest := Replay(r.refs, empty, slot, revision, stored, events[1..]);
        var obs := Replay(refs, empty, slot, revision, stored, events);
        assert obs == [Observation(r.feature, stored)] + rest;
        assert stored.Some? ==> Resolution(refs, slot, revision, stored) == stored;
        assert forall i :: 1 <= i < |obs| ==> obs[i] == rest[i - 1];
      case Replace(feature) =>
        ReplayNeverStale(refs, empty, slot, revision + 1, feature, events[1..]);
    }
  }

  /** Once a slot resolves to a feature, fetches with no replacement in between keep returning it. */
  lemma {:induction false} ResolvedSlotIsStable<C, F>(refs: FeatureReferences<C>, empty: C, slot: Slot<C, F>, revision: nat,
                                                      stored: Option<F>, events: seq<Event<F>>)
    requires refs.collection != null
    requires forall c, v :: slot.get(slot.put(c, v)) == v
    requires forall i :: 0 <= i < |events| ==> events[i].Access?
    requires Resolution(refs, slot, revision, stored).Some?
    ensures AllReturned(Replay(refs, empty, slot, revision, stored, events), Resolution(refs, slot, revision, stored))
    decreases |events|
  {
    if events != [] {
      var r := Fetch(refs, empty, slot, revision, stored, events[0].made);
      FetchMemoises(refs, empty, slot, revision, stored, events[0].made);
      ResolvedSlotIsStable(r.refs, empty, slot, revision, stored, events[1..]);
      var rest := Replay(r.refs, empty, slot, revision, stored, events[1..]);
      var obs := Replay(refs, empty, slot, revision, stored, events);
      assert obs == [Observation(r.feature, stored)] + rest;
      assert forall i :: 1 <= i < |obs| ==> obs[i] == rest[i - 1];
    }
  }

  /**
   * Memoisation: in a run of fetches with no replacement, if the first fetch
   * yields a feature then every later fetch yields the identical feature, and
   * the factory results offered to the later fetches are never used.
   */
  lemma {:induction false} RepeatedFetchesAgree<C, F>(refs: FeatureReferences<C>, empty: C, slot: Slot<C, F>, revision: nat,
                                                      stored: Option<F>, events: seq<Event<F>>)
    requires refs.collection != null
    requires forall c, v :: slot.get(slot.put(c, v)) == v
    requires |events| > 0 && forall i :: 0 <= i < |events| ==> events[i].Access?
    ensures |Replay(refs, empty, slot, revision, stored, events)| > 0
    ensures var first := Replay(refs, empty, slot, revision, stored, events)[0].returned;
      first.Some? ==> AllReturned(Replay(refs, empty, slot, revision, stored, events), first)
  {
    var r := Fetch(refs, empty, slot, revision, stored, events[0].made);
    var obs := Replay(refs, empty, slot, revision, stored, events);
    var rest := Replay(r.refs, empty, slot, revision, stored, events[1..]);
    assert obs == [Observation(r.feature, stored)] + rest;
    if r.feature.Some? {
      FetchMemoises(refs, empty, slot, revision, stored, events[0].made);
      ResolvedSlotIsStable(r.refs, empty, slot, revision, stored, events[1..]);
      assert forall i :: 1 <= i < |obs| ==> obs[i] == rest[i - 1];
    }
  }
}
