/** src/screens/HomeScreen.tsx: the second copy of the order watcher (which
    also counts NEW orders and can run without alerting), the product-list
    updates, the persisted alert settings and the sound they select. */
module HomeScreen {
  import opened Wrappers
  import opened Orders
  import opened Arrivals

  // ---------------------------------------------------------------- products

  /** The fields of a product that the screen reads. */
  datatype Product = Product(
    id: string,
    name: string,
    description: Option<string>,
    priceCents: int,
    active: bool,
    imageUrl: Option<string>)

  /** `prev.map(p => p.id === id ? {...p, active} : p)`. */
  function SetActive(ps: seq<Product>, id: string, active: bool): (r: seq<Product>)
    ensures |r| == |ps|
    ensures forall k :: 0 <= k < |ps| && ps[k].id == id ==> r[k] == ps[k].(active := active)
    ensures forall k :: 0 <= k < |ps| && ps[k].id != id ==> r[k] == ps[k]
  {
    if ps == [] then []
    else
      var p := ps[|ps| - 1];
      SetActive(ps[..|ps| - 1], id, active) + [if p.id == id then p.(active := active) else p]
  }

  /** Applying the same update twice is applying it once. */
  lemma SetActiveIdempotent(ps: seq<Product>, id: string, active: bool)
    ensures SetActive(SetActive(ps, id, active), id, active) == SetActive(ps, id, active)
  {
    var once := SetActive(ps, id, active);
    var twice := SetActive(once, id, active);
    forall k | 0 <= k < |once| ensures twice[k] == once[k] {
      assert once[k].id == ps[k].id;
    }
  }

  /** Setting back the value every matching entry had restores the list: the
      optimistic toggle can be undone. */
  lemma SetActiveInverse(ps: seq<Product>, id: string, active: bool)
    requires forall k :: 0 <= k < |ps| && ps[k].id == id ==> ps[k].active == !active
    ensures SetActive(SetActive(ps, id, active), id, !active) == ps
  {
    var once := SetActive(ps, id, active);
    var back := SetActive(once, id, !active);
    forall k | 0 <= k < |ps| ensures back[k] == ps[k] {
      assert once[k].id == ps[k].id;
    }
  }

  /** `prev.filter(p => p.id !== id)`. */
  function RemoveById(ps: seq<Product>, id: string): (r: seq<Product>)
    ensures |r| <= |ps|
    ensures forall k :: 0 <= k < |r| ==> r[k].id != id
  {
    if ps == [] then []
    else if ps[|ps| - 1].id == id then RemoveById(ps[..|ps| - 1], id)
    else RemoveById(ps[..|ps| - 1], id) + [ps[|ps| - 1]]
  }

  /** Deleting removes exactly the entries with that id: every other entry
      stays, as many times as before. */
  lemma {:induction false} RemoveByIdExact(ps: seq<Product>, id: string)
    ensures forall p :: multiset(RemoveById(ps, id))[p] == if p.id == id then 0 else multiset(ps)[p]
  {
    if ps != [] {
      var init := ps[..|ps| - 1];
      RemoveByIdExact(init, id);
      assert ps == init + [ps[|ps| - 1]];
    }
  }

  /** Deleting keeps the order of what stays: it distributes over concatenation. */
  lemma {:induction false} RemoveByIdAppend(ps: seq<Product>, qs: seq<Product>, id: string)
    ensures RemoveById(ps + qs, id) == RemoveById(ps, id) + RemoveById(qs, id)
    decreases |qs|
  {
    if qs == [] {
      assert ps + qs == ps;
    } else {
      var qs' := qs[..|qs| - 1];
      assert (ps + qs)[..|ps + qs| - 1] == ps + qs';
      RemoveByIdAppend(ps, qs', id);
    }
  }

  // ---------------------------------------------------------------- settings

  /** `Settings`. The stored JSON is not checked when it is read back, so the
      sound choice is any number, not only 1, 2 or 3. */
  datatype Settings = Settings(soundEnabled: bool, vibrationEnabled: bool, soundChoice: int)

  const DefaultSettings := Settings(true, true, 1)

  /** `Partial<Settings>`: the fields present in the stored JSON. */
  datatype PartialSettings = PartialSettings(
    soundEnabled: Option<bool>,
    vibrationEnabled: Option<bool>,
    soundChoice: Option<int>)

  /** What `AsyncStorage.getItem(SETTINGS_KEY)` and `JSON.parse` give: no
      value (null or ""), text that does not parse, or the parsed fields. */
  datatype StoredSettings = Missing | Malformed | Parsed(fields: PartialSettings)

  /** `{...prev, ...parsed}`: each stored field overrides, each absent one is kept. */
  function Overlay(prev: Settings, parsed: PartialSettings): (r: Settings)
    ensures r.soundEnabled == parsed.soundEnabled.GetOr(prev.soundEnabled)
    ensures r.vibrationEnabled == parsed.vibrationEnabled.GetOr(prev.vibrationEnabled)
    ensures r.soundChoice == parsed.soundChoice.GetOr(prev.soundChoice)
  {
    Settings(
      parsed.soundEnabled.GetOr(prev.soundEnabled),
      parsed.vibrationEnabled.GetOr(prev.vibrationEnabled),
      parsed.soundChoice.GetOr(prev.soundChoice))
  }

  /** `loadSettings`: the settings after reading the stored blob. */
  function LoadedSettings(prev: Settings, stored: StoredSettings): Settings {
    match stored
    case Parsed(fields) => Overlay(prev, fields)
    case _ => prev
  }

  /** What `saveSettings` writes, `JSON.stringify(next)`, seen as stored fields. */
  function Stored(s: Settings): PartialSettings {
    PartialSettings(Some(s.soundEnabled), Some(s.vibrationEnabled), Some(s.soundChoice))
  }

  /** A missing or unreadable key keeps the current settings; saved settings
      load back exactly, whatever the settings were before; and overlaying the
      same fields twice changes nothing more. */
  lemma LoadedSettingsLaws(prev: Settings, other: Settings, s: Settings, fields: PartialSettings)
    ensures LoadedSettings(prev, Missing) == prev && LoadedSettings(prev, Malformed) == prev
    ensures LoadedSettings(other, Parsed(Stored(s))) == s
    ensures Overlay(Overlay(prev, fields), fields) == Overlay(prev, fields)
    ensures Overlay(prev, PartialSettings(None, None, None)) == prev
  {
  }

  datatype SoundAsset = NewOrder1 | NewOrder2 | NewOrder3

  /** `selectedSoundAsset`. */
  function SelectedSoundAsset(choice: int): (a: SoundAsset)
    ensures choice == 2 <==> a == NewOrder2
    ensures choice == 3 <==> a == NewOrder3
    ensures choice != 2 && choice != 3 <==> a == NewOrder1
  {
    if choice == 2 then NewOrder2 else if choice == 3 then NewOrder3 else NewOrder1
  }

  // ---------------------------------------------------------------- state

  class HomeState {
    var seen: set<string>
    /** `isPollingRef`. */
    var isPolling: bool
    /** `pollRef.current !== null`. */
    var timerActive: bool
    ghost var liveTimers: nat
    var newOrdersCount: nat

    var settings: Settings
    /** `soundRef`: the sound loaded by the first alert that played one. */
    var loadedSound: Option<SoundAsset>
    /** Calls of `notifyNewOrder`. */
    ghost var alerts: nat
    ghost var vibrations: nat
    ghost var soundsPlayed: seq<SoundAsset>

    var products: seq<Product>
    var loading: bool
    /** `isLoadingProductsRef`. */
    var loadingProducts: bool
    var loadingProductsSilent: bool
    ghost var errorsShown: nat

    ghost predicate Valid()
      reads this
    {
      liveTimers == (if timerActive then 1 else 0)
    }

    constructor ()
      ensures Valid()
      ensures seen == {} && !isPolling && !timerActive && newOrdersCount == 0
      ensures settings == DefaultSettings && loadedSound == None
      ensures alerts == 0 && vibrations == 0 && soundsPlayed == []
      ensures products == [] && loading && !loadingProducts && errorsShown == 0
    {
      seen := {};
      isPolling := false;
      timerActive := false;
      liveTimers := 0;
      newOrdersCount := 0;
      settings := DefaultSettings;
      loadedSound := None;
      alerts := 0;
      vibrations := 0;
      soundsPlayed := [];
      products := [];
      loading := true;
      loadingProducts := false;
      loadingProductsSilent := false;
      errorsShown := 0;
    }

    /** `orders.forEach(o => seen.add(o.id))`. */
    method AddIds(xs: seq<Order>)
      modifies this`seen
      ensures seen == old(seen) + IdsOf(xs)
    {
      var i := 0;
      while i < |xs|
        invariant 0 <= i <= |xs|
        invariant seen == old(seen) + IdsOf(xs[..i])
      {
        IdsOfSnoc(xs[..i], xs[i]);
        assert xs[..i + 1] == xs[..i] + [xs[i]];
        seen := seen + {xs[i].id};
        i := i + 1;
      }
      assert xs[..i] == xs;
    }

    /** `playNewOrderSound`: nothing when sound is off; otherwise the asset
        loaded the first time is played, and later changes of the choice do
        not reload it. */
    method PlayNewOrderSound()
      modifies this`loadedSound, this`soundsPlayed
      ensures !settings.soundEnabled ==> loadedSound == old(loadedSound) && soundsPlayed == old(soundsPlayed)
      ensures settings.soundEnabled ==>
        var a := old(loadedSound).GetOr(SelectedSoundAsset(settings.soundChoice));
        loadedSound == Some(a) && soundsPlayed == old(soundsPlayed) + [a]
    {
      if !settings.soundEnabled {
        return;
      }
      if loadedSound.None? {
        loadedSound := Some(SelectedSoundAsset(settings.soundChoice));
      }
      soundsPlayed := soundsPlayed + [loadedSound.value];
    }

    /** `notifyNewOrder`: one alert, vibrating only when vibration is on and
        playing only when sound is on; it never fails. */
    method NotifyNewOrder()
      modifies this`alerts, this`vibrations, this`loadedSound, this`soundsPlayed
      ensures alerts == old(alerts) + 1
      ensures vibrations == old(vibrations) + (if settings.vibrationEnabled then 1 else 0)
      ensures !settings.soundEnabled ==> loadedSound == old(loadedSound) && soundsPlayed == old(soundsPlayed)
      ensures settings.soundEnabled ==>
        var a := old(loadedSound).GetOr(SelectedSoundAsset(settings.soundChoice));
        loadedSound == Some(a) && soundsPlayed == old(soundsPlayed) + [a]
    {
      alerts := alerts + 1;
      if settings.vibrationEnabled {
        vibrations := vibrations + 1;
      }
      if settings.soundEnabled {
        PlayNewOrderSound();
      }
    }

    /** `loadNewOrdersCount(shouldNotify)` once `listOrders()` settled. The count
        is the number of NEW orders fetched, or 0 on failure. Without
        `shouldNotify` every fetched id is recorded and nothing alerts; with it
        the ids are recorded as well and one alert is raised when an order
        whose id was not seen before is NEW. */
    method LoadNewOrdersCount(shouldNotify: bool, fetched: Result<OrdersPayload>)
      modifies this`seen, this`newOrdersCount, this`alerts, this`vibrations,
               this`loadedSound, this`soundsPlayed
      ensures fetched.Err? ==>
        && newOrdersCount == 0 && seen == old(seen) && alerts == old(alerts)
        && vibrations == old(vibrations) && soundsPlayed == old(soundsPlayed)
      ensures fetched.Ok? ==>
        var data := ListOrders(fetched.value);
        && newOrdersCount == CountNew(data)
        && seen == old(seen) + IdsOf(data)
        && alerts == old(alerts) + (if shouldNotify && HasNewArrival(old(seen), data) then 1 else 0)
      ensures !shouldNotify ==> vibrations == old(vibrations) && soundsPlayed == old(soundsPlayed)
      ensures var alerted := fetched.Ok? && shouldNotify && HasNewArrival(old(seen), ListOrders(fetched.value));
        && vibrations == old(vibrations) + (if alerted && settings.vibrationEnabled then 1 else 0)
        && |soundsPlayed| == |old(soundsPlayed)| + (if alerted && settings.soundEnabled then 1 else 0)
        && (!alerted ==> soundsPlayed == old(soundsPlayed) && loadedSound == old(loadedSound))
        && (alerted && !settings.soundEnabled ==> soundsPlayed == old(soundsPlayed) && loadedSound == old(loadedSound))
        && (alerted && settings.soundEnabled ==>
              var a := old(loadedSound).GetOr(SelectedSoundAsset(settings.soundChoice));
              loadedSound == Some(a) && soundsPlayed == old(soundsPlayed) + [a])
    {
      if fetched.Err? {
        newOrdersCount := 0;
        return;
      }
      var orders := ListOrders(fetched.value);
      newOrdersCount := CountNew(orders);
      if !shouldNotify {
        AddIds(orders);
        return;
      }
      var prior := seen;
      var newOnes := Unseen(prior, orders);
      AddIds(newOnes);
      UnseenIds(prior, orders);
      UnseenAnyNew(prior, orders);
      if AnyNew(newOnes) {
        NotifyNewOrder();
      }
    }

    /** The polling effect: clears any interval first, then creates one, so a
        single interval is live afterwards. */
    method RestartPolling()
      requires Valid()
      modifies this`timerActive, this`liveTimers
      ensures Valid() && timerActive && liveTimers == 1
    {
      if timerActive {
        liveTimers := liveTimers - 1;
        timerActive := false;
      }
      liveTimers := liveTimers + 1;
      timerActive := true;
    }

    /** The polling effect's cleanup. */
    method StopPolling()
      requires Valid()
      modifies this`timerActive, this`liveTimers
      ensures Valid() && !timerActive && liveTimers == 0
    {
      if timerActive {
        liveTimers := liveTimers - 1;
        timerActive := false;
      }
    }

    /** The interval callback up to its await: dropped while a poll is in flight. */
    method TickBegin() returns (started: bool)
      requires Valid() && timerActive
      modifies this`isPolling
      ensures isPolling && started == !old(isPolling)
    {
      if isPolling {
        return false;
      }
      isPolling := true;
      started := true;
    }

    /** The interval callback once its fetch settled: an alerting count, then
        (`finally`) the flag is cleared. */
    method TickEnd(fetched: Result<OrdersPayload>)
      requires Valid() && isPolling
      modifies this`seen, this`newOrdersCount, this`alerts, this`vibrations,
               this`loadedSound, this`soundsPlayed, this`isPolling
      ensures Valid() && !isPolling
      ensures fetched.Err? ==> newOrdersCount == 0 && seen == old(seen) && alerts == old(alerts)
      ensures fetched.Ok? ==>
        var data := ListOrders(fetched.value);
        && newOrdersCount == CountNew(data)
        && seen == old(seen) + IdsOf(data)
        && alerts == old(alerts) + (if HasNewArrival(old(seen), data) then 1 else 0)
      ensures var alerted := fetched.Ok? && HasNewArrival(old(seen), ListOrders(fetched.value));
        && vibrations == old(vibrations) + (if alerted && settings.vibrationEnabled then 1 else 0)
        && |soundsPlayed| == |old(soundsPlayed)| + (if alerted && settings.soundEnabled then 1 else 0)
        && (!alerted ==> soundsPlayed == old(soundsPlayed) && loadedSound == old(loadedSound))
        && (alerted && !settings.soundEnabled ==> soundsPlayed == old(soundsPlayed) && loadedSound == old(loadedSound))
        && (alerted && settings.soundEnabled ==>
              var a := old(loadedSound).GetOr(SelectedSoundAsset(settings.soundChoice));
              loadedSound == Some(a) && soundsPlayed == old(soundsPlayed) + [a])
    {
      LoadNewOrdersCount(true, fetched);
      isPolling := false;
    }

    /** `loadSettings`; the polling effect is re-run when a setting changed. */
    method LoadSettings(stored: StoredSettings)
      requires Valid()
      modifies this`settings, this`timerActive, this`liveTimers
      ensures Valid() && settings == LoadedSettings(old(settings), stored)
      ensures settings != old(settings) ==> timerActive
      ensures settings == old(settings) ==> timerActive == old(timerActive)
    {
      var next := LoadedSettings(settings, stored);
      if next != settings {
        settings := next;
        RestartPolling();
      }
    }

    /** `saveSettings(next)`; the storage write is not awaited for the state. */
    method SaveSettings(next: Settings)
      requires Valid()
      modifies this`settings, this`timerActive, this`liveTimers
      ensures Valid() && settings == next
      ensures next != old(settings) ==> timerActive
      ensures next == old(settings) ==> timerActive == old(timerActive)
    {
      if next != settings {
        settings := next;
        RestartPolling();
      }
    }

    /** `loadProducts(silent)` up to its await: returns at once while a load is running. */
    method BeginLoadProducts(silent: bool) returns (started: bool)
      modifies this`loadingProducts, this`loadingProductsSilent, this`loading
      ensures loadingProducts && started == !old(loadingProducts)
      ensures started ==> loadingProductsSilent == silent && loading == (old(loading) || !silent)
      ensures !started ==> loading == old(loading) && loadingProductsSilent == old(loadingProductsSilent)
    {
      if loadingProducts {
        return false;
      }
      loadingProducts := true;
      loadingProductsSilent := silent;
      if !silent {
        loading := true;
      }
      started := true;
    }

    /** `loadProducts` once `listProducts()` settled; the flag is cleared in `finally`. */
    method EndLoadProducts(fetched: Result<seq<Product>>)
      requires loadingProducts
      modifies this`loadingProducts, this`loading, this`products, this`errorsShown
      ensures !loadingProducts
      ensures loading == (if old(loadingProductsSilent) then old(loading) else false)
      ensures products == (if fetched.Ok? then fetched.value else old(products))
      ensures errorsShown == old(errorsShown) + (if fetched.Err? && !IsPaymentRequired(fetched) then 1 else 0)
    {
      match fetched {
        case Ok(data) => products := data;
        case Err(_) =>
          if !IsPaymentRequired(fetched) {
            errorsShown := errorsShown + 1;
          }
      }
      if !loadingProductsSilent {
        loading := false;
      }
      loadingProducts := false;
    }

    /** `onToggleActive(item)`: after the update succeeds every entry with the
        item's id gets `active = !item.active`; the others are untouched. */
    method OnToggleActive(item: Product, updated: Result<Product>)
      modifies this`products, this`errorsShown
      ensures updated.Ok? ==> products == SetActive(old(products), item.id, !item.active)
      ensures updated.Err? ==> products == old(products)
      ensures errorsShown == old(errorsShown) + (if updated.Err? && !IsPaymentRequired(updated) then 1 else 0)
    {
      if updated.Err? {
        if !IsPaymentRequired(updated) {
          errorsShown := errorsShown + 1;
        }
        return;
      }
      products := SetActive(products, item.id, !item.active);
    }

    /** `onDelete(id)` after the confirmation dialog. Success removes the
        entries with that id; 402 is silent; 409 and 404 have their own
        messages and 404 starts a silent product reload; anything else shows
        the error. */
    method OnDelete(id: string, confirmed: bool, deleted: Result<Product>) returns (reloadStarted: bool)
      modifies this`products, this`errorsShown, this`loadingProducts, this`loadingProductsSilent, this`loading
      ensures !confirmed ==> products == old(products) && errorsShown == old(errorsShown) && !reloadStarted
      ensures confirmed && deleted.Ok? ==>
        products == RemoveById(old(products), id) && errorsShown == old(errorsShown) && !reloadStarted
      ensures confirmed && deleted.Err? ==> products == old(products)
      ensures confirmed && deleted.Err? ==>
        errorsShown == old(errorsShown) + (if IsPaymentRequired(deleted) then 0 else 1)
      ensures reloadStarted <==> confirmed && deleted == Err(Some(404)) && !old(loadingProducts)
      ensures reloadStarted ==> loadingProductsSilent
      ensures !reloadStarted ==> loadingProductsSilent == old(loadingProductsSilent)
      ensures confirmed && deleted == Err(Some(404)) ==> loadingProducts && loading == old(loading)
      ensures !(confirmed && deleted == Err(Some(404))) ==>
        loadingProducts == old(loadingProducts) && loading == old(loading)
    {
      reloadStarted := false;
      if !confirmed {
        return;
      }
      match deleted {
        case Ok(_) => products := RemoveById(products, id);
        case Err(status) =>
          if status == Some(402) {
            return;
          }
          errorsShown := errorsShown + 1;
          if status == Some(404) {
            reloadStarted := BeginLoadProducts(true);
          }
      }
    }
  }
}
