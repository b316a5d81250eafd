/** The in-memory mirror of the history (src/hooks/useWallpaperHistory.ts): a
    `history` state that every operation updates after writing through to the
    persisted store. */
module WallpaperHistory {
  import opened Wrappers
  import opened Types
  import Lists
  import opened HistoryStorage

  /** `[saved, ...prev.slice(0, 19)]`: the mirror's own way of keeping the latest 20. */
  function KeepLatest(saved: SavedWallpaper, prev: seq<SavedWallpaper>): (r: seq<SavedWallpaper>)
  {
    [saved] + prev[..Min(19, |prev|)]
  }

  /** The mirror's save computes exactly what the store saves: prepending and
      then keeping 20 equals keeping 19 and then prepending, for every list. */
  lemma KeepLatestIsSaveList(saved: SavedWallpaper, prev: seq<SavedWallpaper>)
    ensures KeepLatest(saved, prev) == SaveList(saved, prev)
    ensures |KeepLatest(saved, prev)| <= MAX_HISTORY_ITEMS
  {
    var a := KeepLatest(saved, prev);
    var b := SaveList(saved, prev);
    assert |a| == |b|;
    forall i | 0 <= i < |a| ensures a[i] == b[i] {
      if i > 0 {
        assert a[i] == prev[i - 1];
      }
    }
  }

  /** `history.filter(item => item.isFavorite)`. */
  function FavoritesOf(history: seq<SavedWallpaper>): (r: seq<SavedWallpaper>)
    ensures forall w | w in r :: w in history && w.IsFavorite()
    ensures forall i | 0 <= i < |history| && history[i].IsFavorite() :: history[i] in r
  {
    Lists.Filter(history, (w: SavedWallpaper) => w.IsFavorite())
  }

  /** `history.filter(item => item.mood === mood)`, the mood given as a string. */
  function WithMood(history: seq<SavedWallpaper>, mood: string): (r: seq<SavedWallpaper>)
    ensures forall w | w in r :: w in history && w.mood.Name() == mood
    ensures forall i | 0 <= i < |history| && history[i].mood.Name() == mood :: history[i] in r
  {
    Lists.Filter(history, (w: SavedWallpaper) => w.mood.Name() == mood)
  }

  /** Both filters keep the order of the history: filtering a concatenation
      filters each part. */
  lemma FiltersPreserveOrder(a: seq<SavedWallpaper>, b: seq<SavedWallpaper>, mood: string)
    ensures FavoritesOf(a + b) == FavoritesOf(a) + FavoritesOf(b)
    ensures WithMood(a + b, mood) == WithMood(a, mood) + WithMood(b, mood)
  {
    Lists.FilterAppend(a, b, (w: SavedWallpaper) => w.IsFavorite());
    Lists.FilterAppend(a, b, (w: SavedWallpaper) => w.mood.Name() == mood);
  }

  /** Asking by a mood's name returns exactly the entries of that mood. */
  lemma WithMoodByName(history: seq<SavedWallpaper>, m: Mood)
    ensures forall w | w in WithMood(history, m.Name()) :: w.mood == m
    ensures forall i | 0 <= i < |history| && history[i].mood == m :: history[i] in WithMood(history, m.Name())
  {
    forall w | w in WithMood(history, m.Name()) ensures w.mood == m {
      MoodNameInjective(w.mood, m);
    }
  }

  /** The state of one `useWallpaperHistory` hook, next to the store it writes through to. */
  class WallpaperHistoryHook {
    const store: HistoryStore
    var history: seq<SavedWallpaper>
    var isLoading: bool

    /** The mirror holds what a load from the store would return. */
    predicate InSync()
      reads this, store
    {
      history == Load(store.slot)
    }

    /** The initial state: an empty history, still loading. */
    constructor (store: HistoryStore)
      ensures this.store == store
      ensures history == [] && isLoading
    {
      this.store := store;
      history := [];
      isLoading := true;
    }

    /** The mount effect: history becomes the loaded list and loading ends. The
        load cannot throw (it catches its own errors), so the hook's own catch
        branch is never taken. */
    method LoadHistory()
      modifies this
      ensures history == Load(store.slot) && InSync()
      ensures !isLoading
    {
      var saved := store.GetWallpaperHistory();
      history := saved;
      isLoading := false;
    }

    /** `saveWallpaper`: writes through to the store, then puts the record in
        front of the mirror and keeps at most 19 earlier entries. */
    method SaveWallpaper(data: WallpaperData, now: nat, suffix: string, createdAt: string)
      returns (saved: SavedWallpaper)
      modifies this, store
      ensures saved == NewRecord(data, now, suffix, createdAt)
      ensures history == KeepLatest(saved, old(history))
      ensures store.slot == Holds(SaveList(saved, Load(old(store.slot))))
      ensures TotalCount() <= MAX_HISTORY_ITEMS
      ensures old(InSync()) ==> InSync()
      ensures isLoading == old(isLoading)
    {
      saved := store.SaveWallpaperToHistory(data, now, suffix, createdAt);
      history := [saved] + history[..Min(19, |history|)];
      KeepLatestIsSaveList(saved, old(history));
    }

    /** `removeWallpaper`: removes every entry with that id from store and mirror. */
    method RemoveWallpaper(id: string)
      modifies this, store
      ensures history == WithoutId(old(history), id)
      ensures store.slot == Holds(WithoutId(Load(old(store.slot)), id))
      ensures old(InSync()) ==> InSync()
      ensures isLoading == old(isLoading)
    {
      store.RemoveWallpaperFromHistory(id);
      history := WithoutId(history, id);
    }

    /** `clearHistory`: empties both; the mirror is in step with the store afterwards. */
    method ClearHistory()
      modifies this, store
      ensures history == [] && TotalCount() == 0
      ensures store.slot == Empty
      ensures InSync()
      ensures isLoading == old(isLoading)
    {
      store.ClearWallpaperHistory();
      history := [];
    }

    /** `toggleFavorite`: negates the flag of the entries with that id in store and mirror. */
    method ToggleFavorite(id: string)
      modifies this, store
      ensures history == ToggleFavoriteIn(old(history), id)
      ensures store.slot == Holds(ToggleFavoriteIn(Load(old(store.slot)), id))
      ensures old(InSync()) ==> InSync()
      ensures isLoading == old(isLoading)
    {
      store.ToggleWallpaperFavorite(id);
      history := ToggleFavoriteIn(history, id);
    }

    /** `getFavorites()`. */
    function GetFavorites(): (r: seq<SavedWallpaper>)
      reads this
      ensures forall w | w in r :: w in history && w.IsFavorite()
      ensures forall i | 0 <= i < |history| && history[i].IsFavorite() :: history[i] in r
    {
      FavoritesOf(history)
    }

    /** `getByMood(mood)`. */
    function GetByMood(mood: string): (r: seq<SavedWallpaper>)
      reads this
      ensures forall w | w in r :: w in history && w.mood.Name() == mood
      ensures forall i | 0 <= i < |history| && history[i].mood.Name() == mood :: history[i] in r
    {
      WithMood(history, mood)
    }

    /** `totalCount`. */
    function TotalCount(): nat
      reads this
    {
      |history|
    }

    /** `favoritesCount`: the number of favourites, never more than the total. */
    function FavoritesCount(): (n: nat)
      reads this
      ensures n <= TotalCount()
    {
      |FavoritesOf(history)|
    }
  }
}
