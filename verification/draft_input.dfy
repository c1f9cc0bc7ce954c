/** The composer draft kept in browser storage: the text typed so far, the
    chosen model and the web-search flag. Settings (model and flag) are an
    external store with a snapshot cache and listeners; text is written
    through a debounce and is not reactive. Storage is one slot; the
    debounce timer is one pending write. */
module DraftInput {
  import opened Wrappers
  import Models
  import SeqUtil

  const STORAGE_KEY: string := "draft-composer"

  datatype DraftState = DraftState(text: string, modelId: string, webSearchEnabled: bool)

  const DEFAULT_DRAFT: DraftState := DraftState("", Models.DEFAULT_MODEL_ID, false)

  /** The storage slot under `STORAGE_KEY`: nothing (or the empty string),
      a value that does not parse, or a parsed draft. */
  datatype Slot = Absent | Corrupt | Stored(draft: DraftState)

  /** The fields a write overrides; `None` keeps the current value. */
  datatype DraftPatch = DraftPatch(text: Option<string>, modelId: Option<string>, webSearchEnabled: Option<bool>)

  const NO_CHANGE: DraftPatch := DraftPatch(None, None, None)

  datatype Settings = Settings(modelId: string, webSearchEnabled: bool)

  /** Listeners are identified by number; the same listener may be
      subscribed more than once. */
  datatype Store = Store(slot: Slot, cache: Option<Settings>, listeners: seq<nat>, pending: Option<string>)

  /** `readDraft`: the stored draft, or the default when there is none or it
      does not parse. */
  function ReadDraft(slot: Slot): (d: DraftState)
    ensures slot.Stored? ==> d == slot.draft
    ensures !slot.Stored? ==> d == DEFAULT_DRAFT
  {
    match slot
    case Stored(draft) => draft
    case _ => DEFAULT_DRAFT
  }

  function Apply(d: DraftState, p: DraftPatch): DraftState {
    DraftState(p.text.GetOr(d.text), p.modelId.GetOr(d.modelId), p.webSearchEnabled.GetOr(d.webSearchEnabled))
  }

  /** `persistDraft`: stores the current draft with the patched fields
      overridden, and returns what it stored. */
  function PersistDraft(slot: Slot, p: DraftPatch): (r: (Slot, DraftState))
    ensures r.0 == Stored(r.1)
    ensures p.text.Some? ==> r.1.text == p.text.value
    ensures p.text.None? ==> r.1.text == ReadDraft(slot).text
    ensures p.modelId.Some? ==> r.1.modelId == p.modelId.value
    ensures p.modelId.None? ==> r.1.modelId == ReadDraft(slot).modelId
    ensures p.webSearchEnabled.Some? ==> r.1.webSearchEnabled == p.webSearchEnabled.value
    ensures p.webSearchEnabled.None? ==> r.1.webSearchEnabled == ReadDraft(slot).webSearchEnabled
  {
    var next := Apply(ReadDraft(slot), p);
    (Stored(next), next)
  }

  /** What a write stores is what the next read returns. */
  lemma PersistThenRead(slot: Slot, p: DraftPatch)
    ensures ReadDraft(PersistDraft(slot, p).0) == PersistDraft(slot, p).1
  {
  }

  /** Writing the same patch twice stores what writing it once does. */
  lemma PersistIdempotent(slot: Slot, p: DraftPatch)
    ensures PersistDraft(PersistDraft(slot, p).0, p) == PersistDraft(slot, p)
  {
  }

  function SettingsOf(d: DraftState): Settings {
    Settings(d.modelId, d.webSearchEnabled)
  }

  /** The cache, when set, holds the settings of the stored draft. */
  ghost predicate CacheCoherent(st: Store) {
    st.cache.None? || st.cache.value == SettingsOf(ReadDraft(st.slot))
  }

  /** `emitSettingsChange`: clears the cache, then calls every listener in
      subscription order. Returns the listeners called. */
  function EmitSettingsChange(st: Store): (r: (Store, seq<nat>))
    ensures r.0 == st.(cache := None)
    ensures r.1 == st.listeners
  {
    (st.(cache := None), st.listeners)
  }

  /** `subscribeSettings`: appends the listener. */
  function Subscribe(st: Store, l: nat): (r: Store)
    ensures r.listeners == st.listeners + [l]
    ensures r.slot == st.slot && r.cache == st.cache && r.pending == st.pending
  {
    st.(listeners := st.listeners + [l])
  }

  function Other(l: nat): nat -> bool {
    (x: nat) => x != l
  }

  /** The unsubscribe function `subscribeSettings` returns: removes every
      subscription of the listener and keeps every subscription of the
      others, as many times as each was made. */
  function Unsubscribe(st: Store, l: nat): (r: Store)
    ensures l !in r.listeners
    ensures forall i :: 0 <= i < |st.listeners| && st.listeners[i] != l ==> st.listeners[i] in r.listeners
    ensures forall i :: 0 <= i < |r.listeners| ==> r.listeners[i] in st.listeners
    ensures multiset(r.listeners) == multiset(st.listeners)[l := 0]
    ensures r.slot == st.slot && r.cache == st.cache && r.pending == st.pending
  {
    FilterOtherCounts(st.listeners, l);
    st.(listeners := SeqUtil.Filter(st.listeners, Other(l)))
  }

  /** Filtering out one listener drops all its copies and keeps every copy
      of the others. */
  lemma {:induction false} FilterOtherCounts(s: seq<nat>, l: nat)
    ensures multiset(SeqUtil.Filter(s, Other(l))) == multiset(s)[l := 0]
    decreases |s|
  {
    if |s| > 0 {
      assert s == [s[0]] + s[1..];
      FilterOtherCounts(s[1..], l);
      assert multiset(s) == multiset([s[0]]) + multiset(s[1..]);
    }
  }

  /** Subscribing and then unsubscribing a listener not yet subscribed
      restores the listener list. */
  lemma SubscribeUnsubscribe(st: Store, l: nat)
    requires l !in st.listeners
    ensures Unsubscribe(Subscribe(st, l), l) == st
  {
    SeqUtil.FilterSnoc(st.listeners, l, Other(l));
    SeqUtil.FilterAll(st.listeners, Other(l));
  }

  /** `getSettingsSnapshot`: the cached settings, or the settings read from
      storage, which are then cached. */
  function GetSettingsSnapshot(st: Store): (r: (Store, Settings))
    ensures r.0.cache == Some(r.1)
    ensures r.0.slot == st.slot && r.0.listeners == st.listeners && r.0.pending == st.pending
    ensures st.cache.Some? ==> r.1 == st.cache.value && r.0 == st
  {
    match st.cache
    case Some(s) => (st, s)
    case None =>
      var s := SettingsOf(ReadDraft(st.slot));
      (st.(cache := Some(s)), s)
  }

  /** With a coherent cache the snapshot is the stored settings, and the
      cache stays coherent. */
  lemma SnapshotReadsStorage(st: Store)
    requires CacheCoherent(st)
    ensures GetSettingsSnapshot(st).1 == SettingsOf(ReadDraft(st.slot))
    ensures CacheCoherent(GetSettingsSnapshot(st).0)
  {
  }

  /** Between invalidations the snapshot is the same value, and taking it
      again changes nothing. */
  lemma SnapshotStable(st: Store)
    ensures var (st1, s1) := GetSettingsSnapshot(st);
      GetSettingsSnapshot(st1) == (st1, s1)
  {
  }

  /** `getSettingsServerSnapshot`: the defaults, whatever is stored. */
  function ServerSnapshot(): (s: Settings)
    ensures s.modelId == Models.DEFAULT_MODEL_ID && !s.webSearchEnabled
    ensures Models.IsKnownModel(s.modelId)
  {
    Models.DefaultModelIsKnown();
    SettingsOf(DEFAULT_DRAFT)
  }

  /** `debouncedSetText`: replaces any pending write with this text;
      storage is not touched yet. */
  function DebouncedSetText(st: Store, text: string): (r: Store)
    ensures r.pending == Some(text)
    ensures r.slot == st.slot && r.cache == st.cache && r.listeners == st.listeners
  {
    st.(pending := Some(text))
  }

  /** The debounce timer fires: the pending text is written over the draft
      as stored now. No pending write means no timer. */
  function FireTimer(st: Store): (r: Store)
    ensures r.pending.None?
    ensures st.pending.Some? ==> ReadDraft(r.slot) == ReadDraft(st.slot).(text := st.pending.value)
    ensures st.pending.None? ==> r == st
    ensures r.cache == st.cache && r.listeners == st.listeners
  {
    match st.pending
    case None => st
    case Some(text) => st.(slot := PersistDraft(st.slot, NO_CHANGE.(text := Some(text))).0, pending := None)
  }

  /** `flushText`: cancels the pending write without performing it. */
  function FlushText(st: Store): (r: Store)
    ensures r.pending.None?
    ensures r.slot == st.slot && r.cache == st.cache && r.listeners == st.listeners
  {
    st.(pending := None)
  }

  /** Last write wins: of several keystrokes before the timer fires, only the
      last text reaches storage. */
  lemma LastWriteWins(st: Store, texts: seq<string>)
    requires |texts| > 0
    ensures var typed := TypeAll(st, texts);
      typed.pending == Some(texts[|texts| - 1])
      && ReadDraft(FireTimer(typed).slot) == ReadDraft(st.slot).(text := texts[|texts| - 1])
  {
    TypeAllKeepsSlot(st, texts);
  }

  /** A run of `debouncedSetText` calls. */
  function TypeAll(st: Store, texts: seq<string>): Store
    decreases |texts|
  {
    if |texts| == 0 then st else TypeAll(DebouncedSetText(st, texts[0]), texts[1..])
  }

  lemma {:induction false} TypeAllKeepsSlot(st: Store, texts: seq<string>)
    ensures TypeAll(st, texts).slot == st.slot
    ensures TypeAll(st, texts).cache == st.cache
    ensures |texts| > 0 ==> TypeAll(st, texts).pending == Some(texts[|texts| - 1])
    ensures |texts| == 0 ==> TypeAll(st, texts) == st
    decreases |texts|
  {
    if |texts| > 0 {
      TypeAllKeepsSlot(DebouncedSetText(st, texts[0]), texts[1..]);
    }
  }

  /** `setModelId`: writes the model id, then busts the cache and notifies
      every listener. Returns the listeners called. */
  function SetModelId(st: Store, modelId: string): (r: (Store, seq<nat>))
    ensures ReadDraft(r.0.slot) == ReadDraft(st.slot).(modelId := modelId)
    ensures r.0.cache.None? && r.1 == st.listeners
    ensures r.0.listeners == st.listeners && r.0.pending == st.pending
  {
    var slot := PersistDraft(st.slot, NO_CHANGE.(modelId := Some(modelId))).0;
    EmitSettingsChange(st.(slot := slot))
  }

  /** `setWebSearchEnabled`: writes the flag, then busts the cache and
      notifies every listener. */
  function SetWebSearchEnabled(st: Store, enabled: bool): (r: (Store, seq<nat>))
    ensures ReadDraft(r.0.slot) == ReadDraft(st.slot).(webSearchEnabled := enabled)
    ensures r.0.cache.None? && r.1 == st.listeners
    ensures r.0.listeners == st.listeners && r.0.pending == st.pending
  {
    var slot := PersistDraft(st.slot, NO_CHANGE.(webSearchEnabled := Some(enabled))).0;
    EmitSettingsChange(st.(slot := slot))
  }

  /** `clear`: cancels the pending write and stores the empty text. The
      settings are not part of the change, so no listener is called and the
      cache is kept. */
  function Clear(st: Store): (r: Store)
    ensures r.pending.None?
    ensures ReadDraft(r.slot) == ReadDraft(st.slot).(text := "")
    ensures r.cache == st.cache && r.listeners == st.listeners
  {
    var flushed := FlushText(st);
    flushed.(slot := PersistDraft(flushed.slot, NO_CHANGE.(text := Some(""))).0)
  }

  /** The text the composer starts from, read once. */
  function InitialText(st: Store): (t: string)
    ensures st.slot.Stored? ==> t == st.slot.draft.text
    ensures !st.slot.Stored? ==> t == ""
  {
    ReadDraft(st.slot).text
  }

  /** Every operation keeps the cache coherent with storage: the ones that
      change settings bust it, the ones that change only text leave the
      cached settings true. */
  lemma OperationsKeepCacheCoherent(st: Store, l: nat, text: string, modelId: string, enabled: bool)
    requires CacheCoherent(st)
    ensures CacheCoherent(EmitSettingsChange(st).0)
    ensures CacheCoherent(Subscribe(st, l)) && CacheCoherent(Unsubscribe(st, l))
    ensures CacheCoherent(GetSettingsSnapshot(st).0)
    ensures CacheCoherent(DebouncedSetText(st, text)) && CacheCoherent(FireTimer(st))
    ensures CacheCoherent(FlushText(st)) && CacheCoherent(Clear(st))
    ensures CacheCoherent(SetModelId(st, modelId).0) && CacheCoherent(SetWebSearchEnabled(st, enabled).0)
  {
  }

  /** Writing settings without the cache bust would leave the snapshot
      stale: the bust in `setModelId` is needed. */
  lemma PersistWithoutEmitIsStale()
    ensures var st := Store(Absent, Some(SettingsOf(DEFAULT_DRAFT)), [], None);
      var slot := PersistDraft(st.slot, NO_CHANGE.(modelId := Some("other"))).0;
      CacheCoherent(st) && !CacheCoherent(st.(slot := slot))
  {
  }

  /** After a model change the next snapshot shows it. */
  lemma SetModelIdIsVisible(st: Store, modelId: string)
    ensures GetSettingsSnapshot(SetModelId(st, modelId).0).1.modelId == modelId
  {
  }

  /** `clear` keeps the settings: a snapshot taken after it equals one taken
      before. */
  lemma ClearKeepsSettings(st: Store)
    requires CacheCoherent(st)
    ensures GetSettingsSnapshot(Clear(st)).1 == GetSettingsSnapshot(st).1
    ensures SettingsOf(ReadDraft(Clear(st).slot)) == SettingsOf(ReadDraft(st.slot))
  {
  }
}
