/**
 * The map's tile-provider fallback (`MapView.js`): on a tile error the map
 * moves to the next provider of a fixed order, a bounded number of times.
 */
module MapView {
  import opened Common

  /** `providerOrder`. */
  const ProviderOrder: seq<string> := ["openstreetmap", "cartodb", "cartodb_dark", "stadia_light",
                                        "stadia_dark", "stamen_toner", "stamen_watercolor"]

  /** The keys of `TILE_PROVIDERS` in `utils/mapConfig.js`: the options of the provider selector. */
  const TileProviderKeys: set<string> := {"openstreetmap", "cartodb", "cartodb_dark", "stadia_light",
                                           "stadia_dark", "stamen_toner", "stamen_watercolor"}

  /** `DEFAULT_TILE_PROVIDER`. */
  const DefaultTileProvider: string := "openstreetmap"

  /** `providerOrder.length - 1`: the most automatic fallbacks in a row. */
  const MaxRetries: int := |ProviderOrder| - 1

  /** `order.indexOf(key)`: the first position of `key`, or -1. */
  function IndexOf<K(==)>(order: seq<K>, key: K): (i: int)
    ensures -1 <= i < |order|
    ensures i >= 0 ==> order[i] == key && key !in order[..i]
    ensures i == -1 <==> key !in order
    decreases |order|
  {
    if order == [] then -1
    else if order[0] == key then 0
    else
      var j := IndexOf(order[1..], key);
      assert order[1..][..j + 1] == order[1..j + 2] || j == -1;
      if j == -1 then -1 else j + 1
  }

  /** The key after `key` in `order`, cyclically; a key not in `order` is followed by the first one. */
  function NextIn<K(==)>(order: seq<K>, key: K): (next: K)
    requires |order| > 0
    ensures next in order
  {
    order[(IndexOf(order, key) + 1) % |order|]
  }

  /** The provider a tile error falls back to: always one of the configured providers. */
  function NextProvider(key: string): (next: string)
    ensures next in ProviderOrder && next in TileProviderKeys
  {
    ProviderOrderIsKeySet();
    NextIn(ProviderOrder, key)
  }

  /** No key occurs twice in `order`. */
  predicate Distinct<K(==)>(order: seq<K>)
  {
    forall i, j :: 0 <= i < j < |order| ==> order[i] != order[j]
  }

  /** The order names every configured provider once, and nothing else. */
  lemma ProviderOrderIsKeySet()
    ensures |ProviderOrder| == 7 && MaxRetries == 6
    ensures Distinct(ProviderOrder)
    ensures forall k :: k in TileProviderKeys <==> k in ProviderOrder
    ensures DefaultTileProvider in TileProviderKeys
  {
  }

  /** In an order without repeats, each key is found at its own position. */
  lemma IndexOfDistinct<K>(order: seq<K>, i: int)
    requires Distinct(order)
    requires 0 <= i < |order|
    ensures IndexOf(order, order[i]) == i
  {
  }

  /** In an order of two or more distinct keys, a step never stays put, and an unknown key goes to the first. */
  lemma NextInStep<K>(order: seq<K>, key: K)
    requires |order| >= 2 && Distinct(order)
    ensures NextIn(order, key) in order
    ensures NextIn(order, key) != key
    ensures key !in order ==> NextIn(order, key) == order[0]
  {
    var i := IndexOf(order, key);
    if i >= 0 {
      var n := (i + 1) % |order|;
      assert n != i;
    }
  }

  /** A fallback never picks the provider it leaves; a key outside the order falls back to the first provider. */
  lemma NextProviderStep(key: string)
    ensures NextProvider(key) in ProviderOrder
    ensures NextProvider(key) != key
    ensures key !in ProviderOrder ==> NextProvider(key) == ProviderOrder[0]
  {
    ProviderOrderIsKeySet();
    NextInStep(ProviderOrder, key);
  }

  /** The key reached after `k` steps in a row from `key`. */
  function ChainIn<K(==)>(order: seq<K>, key: K, k: nat): K
    requires |order| > 0
  {
    if k == 0 then key else NextIn(order, ChainIn(order, key, k - 1))
  }

  /** In an order without repeats, the key after position `p` is at p + 1, or at 0 after the last. */
  lemma NextInAt<K>(order: seq<K>, p: int)
    requires Distinct(order)
    requires 0 <= p < |order|
    ensures NextIn(order, order[p]) == order[if p + 1 == |order| then 0 else p + 1]
  {
    IndexOfDistinct(order, p);
    WrapSucc(p, |order|);
  }

  /** Within one lap, the position after p is p + 1, or 0 after the last. */
  lemma WrapSucc(p: int, n: int)
    requires 0 <= p < n
    ensures (p + 1) % n == if p + 1 == n then 0 else p + 1
  {
  }

  /** Position `j`, wrapped once around an order of length `n`. */
  function Lap(j: int, n: int): int
  {
    if j < n then j else j - n
  }

  /** Within one lap of an order without repeats, `k` steps from position `i` reach i + k, wrapped once. */
  lemma {:induction false} ChainInIndex<K>(order: seq<K>, i: int, k: nat)
    requires Distinct(order)
    requires 0 <= i < |order| && k < |order|
    ensures ChainIn(order, order[i], k) == order[Lap(i + k, |order|)]
  {
    if k > 0 {
      ChainInIndex(order, i, k - 1);
      ChainInStep(order, i, k);
    }
  }

  /** One more step from position Lap(i + k - 1) reaches Lap(i + k). */
  lemma ChainInStep<K>(order: seq<K>, i: int, k: nat)
    requires Distinct(order)
    requires 0 <= i < |order| && 0 < k < |order|
    requires ChainIn(order, order[i], k - 1) == order[Lap(i + k - 1, |order|)]
    ensures ChainIn(order, order[i], k) == order[Lap(i + k, |order|)]
  {
    var p := Lap(i + k - 1, |order|);
    NextInAt(order, p);
    assert (if p + 1 == |order| then 0 else p + 1) == Lap(i + k, |order|);
  }

  /** Within one lap of an order without repeats, different step counts reach different keys. */
  lemma ChainDistinct<K>(order: seq<K>, i: int, k1: nat, k2: nat)
    requires Distinct(order)
    requires 0 <= i < |order| && k1 < k2 < |order|
    ensures ChainIn(order, order[i], k1) != ChainIn(order, order[i], k2)
  {
    ChainInIndex(order, i, k1);
    ChainInIndex(order, i, k2);
    var p1, p2 := Lap(i + k1, |order|), Lap(i + k2, |order|);
    assert p1 != p2;
    if p1 < p2 {
      assert order[p1] != order[p2];
    } else {
      assert order[p2] != order[p1];
    }
  }

  /** The provider reached after `k` fallbacks in a row from `key`. */
  function FallbackChain(key: string, k: nat): string
  {
    ChainIn(ProviderOrder, key, k)
  }

  /** The at most six fallbacks from a configured provider each reach a different provider. */
  lemma FallbackChainDistinct(start: string, k1: nat, k2: nat)
    requires start in ProviderOrder
    requires k1 < k2 <= MaxRetries
    ensures FallbackChain(start, k1) != FallbackChain(start, k2)
  {
    ProviderOrderIsKeySet();
    var i := IndexOf(ProviderOrder, start);
    ChainDistinct(ProviderOrder, i, k1, k2);
  }

  /** The retry the `setTimeout` callback of a tile error will apply, with the values it captured. */
  datatype Fallback = Fallback(nextProvider: string, capturedRetryCount: int)

  /** A fallback as a tile error can schedule it. */
  predicate Schedulable(f: Fallback)
  {
    f.nextProvider in TileProviderKeys && 0 <= f.capturedRetryCount < MaxRetries
  }

  /** The component's state variables. */
  class TileMap {
    var selectedProvider: string
    var currentProviderKey: string
    var retryCount: int
    var tileError: bool
    var isLoading: bool
    var showHeatmap: bool

    ghost predicate Valid()
      reads this
    {
      0 <= retryCount <= MaxRetries &&
      selectedProvider in TileProviderKeys && currentProviderKey in TileProviderKeys
    }

    constructor ()
      ensures Valid()
      ensures selectedProvider == DefaultTileProvider && currentProviderKey == DefaultTileProvider
      ensures retryCount == 0 && !tileError && isLoading && !showHeatmap
    {
      selectedProvider := DefaultTileProvider;
      tileError := false;
      retryCount := 0;
      currentProviderKey := DefaultTileProvider;
      isLoading := true;
      showHeatmap := false;
    }

    /** `handleProviderChange`: the user picks a provider from the selector. */
    method HandleProviderChange(newProvider: string)
      requires Valid()
      requires newProvider in TileProviderKeys
      modifies this
      ensures Valid()
      ensures selectedProvider == newProvider && currentProviderKey == newProvider
      ensures !tileError && retryCount == 0
      ensures isLoading == old(isLoading) && showHeatmap == old(showHeatmap)
    {
      selectedProvider := newProvider;
      currentProviderKey := newProvider;
      tileError := false;
      retryCount := 0;
    }

    /**
     * `handleTileError`: flags the error and, while retries remain, schedules a
     * move to the next provider. The provider itself changes only when the
     * scheduled fallback runs.
     */
    method HandleTileError() returns (scheduled: Option<Fallback>)
      requires Valid()
      modifies this
      ensures Valid()
      ensures tileError
      ensures old(retryCount) < MaxRetries ==>
        scheduled == Some(Fallback(NextProvider(old(currentProviderKey)), old(retryCount)))
      ensures old(retryCount) >= MaxRetries ==> scheduled == None
      ensures scheduled.Some? ==> Schedulable(scheduled.value) && scheduled.value.nextProvider != currentProviderKey
      ensures currentProviderKey == old(currentProviderKey) && selectedProvider == old(selectedProvider)
      ensures retryCount == old(retryCount) && isLoading == old(isLoading) && showHeatmap == old(showHeatmap)
    {
      tileError := true;
      scheduled := None;
      if retryCount < MaxRetries {
        // providerOrder[(indexOf(currentProviderKey) + 1) % providerOrder.length]
        var nextProvider := NextProvider(currentProviderKey);
        NextProviderStep(currentProviderKey);
        scheduled := Some(Fallback(nextProvider, retryCount));
      }
    }

    /** The delayed callback of a tile error, applied as one step with the values it captured. */
    method RunFallback(fallback: Fallback)
      requires Valid()
      requires Schedulable(fallback)
      modifies this
      ensures Valid()
      ensures currentProviderKey == fallback.nextProvider
      ensures retryCount == fallback.capturedRetryCount + 1 && retryCount <= MaxRetries
      ensures !tileError
      ensures selectedProvider == old(selectedProvider)
      ensures isLoading == old(isLoading) && showHeatmap == old(showHeatmap)
    {
      currentProviderKey := fallback.nextProvider;
      retryCount := fallback.capturedRetryCount + 1;
      tileError := false;
    }

    /** `handleTileLoad`: a tile arrived. */
    method HandleTileLoad()
      requires Valid()
      modifies this
      ensures Valid()
      ensures !tileError && retryCount == 0 && !isLoading
      ensures selectedProvider == old(selectedProvider) && currentProviderKey == old(currentProviderKey)
      ensures showHeatmap == old(showHeatmap)
    {
      tileError := false;
      retryCount := 0;
      isLoading := false;
    }
  }
}
