/** The persisted wallpaper history (src/utils/historyStorage.ts): a
    most-recent-first list of at most 20 saved wallpapers, kept as JSON in the
    browser storage slot "mood-wallpaper-history". */
module HistoryStorage {
  import opened Wrappers
  import opened Types
  import opened Text
  import Lists

  const STORAGE_KEY: string := "mood-wallpaper-history"
  const MAX_HISTORY_ITEMS: nat := 20

  function Min(a: int, b: int): int {
    if a <= b then a else b
  }

  /** The id of a new record, `wallpaper-<milliseconds>-<random suffix>`; the
      clock reading and the random suffix are inputs. */
  function WallpaperId(now: nat, suffix: string): (id: string)
    ensures StartsWith(id, "wallpaper-")
  {
    "wallpaper-" + NatToString(now) + "-" + suffix
  }

  /** The title of a new record: the mood's name, " - ", the first 30
      characters of the quote and "...". */
  function Title(data: WallpaperData): (title: string)
  {
    data.mood.Name() + " - " + data.quote.text[..Min(30, |data.quote.text|)] + "..."
  }

  /** A title names the mood, and what follows is the start of the quote (all of
      it when the quote is at most 30 characters long) followed by "...". */
  lemma TitleShape(data: WallpaperData)
    ensures var head := data.mood.Name() + " - ";
      var title := Title(data);
      var text := data.quote.text;
      && StartsWith(title, head)
      && |title| == |head| + Min(30, |text|) + 3
      && title[|head|..|title| - 3] == text[..Min(30, |text|)]
      && title[|title| - 3..] == "..."
      && (|text| <= 30 ==> title[|head|..|title| - 3] == text)
  {
    var head := data.mood.Name() + " - ";
    var text := data.quote.text;
    var title := Title(data);
    assert title == head + text[..Min(30, |text|)] + "...";
    assert title[..|head|] == head;
  }

  /** The record `saveWallpaperToHistory` builds: the wallpaper unchanged, a
      fresh id and creation time, a title and no favourite flag. */
  function NewRecord(data: WallpaperData, now: nat, suffix: string, createdAt: string): (w: SavedWallpaper)
    ensures w.Data() == data
    ensures w.id == WallpaperId(now, suffix) && w.createdAt == createdAt
    ensures w.title == Some(Title(data)) && w.isFavorite == None
  {
    SavedWallpaper(data.image, data.quote, data.mood, WallpaperId(now, suffix), createdAt, Some(Title(data)), None)
  }

  /** `[saved, ...history].slice(0, 20)`. */
  function SaveList(saved: SavedWallpaper, history: seq<SavedWallpaper>): (r: seq<SavedWallpaper>)
    ensures |r| == Min(MAX_HISTORY_ITEMS, |history| + 1)
    ensures r[0] == saved
    ensures forall i | 1 <= i < |r| :: r[i] == history[i - 1]
  {
    ([saved] + history)[..Min(MAX_HISTORY_ITEMS, |history| + 1)]
  }

  /** Saving onto fewer than 20 records drops nothing; saving onto exactly 20
      drops exactly the oldest (last) one. */
  lemma SaveDropsOnlyOldest(saved: SavedWallpaper, history: seq<SavedWallpaper>)
    ensures |history| < MAX_HISTORY_ITEMS ==> SaveList(saved, history) == [saved] + history
    ensures |history| == MAX_HISTORY_ITEMS ==>
      SaveList(saved, history) == [saved] + history[..19] &&
      SaveList(saved, history) + [history[19]] == [saved] + history
  {
    var r := SaveList(saved, history);
    if |history| == MAX_HISTORY_ITEMS {
      assert r == [saved] + history[..19];
      assert history == history[..19] + [history[19]];
    }
  }

  /** What `getWallpaperHistory` returns for a slot: the stored list, or the
      empty list when nothing is stored or the stored text does not parse. */
  function Load(slot: Slot<seq<SavedWallpaper>>): (history: seq<SavedWallpaper>)
  {
    match slot
    case Holds(h) => h
    case _ => []
  }

  /** `history.filter(item => item.id !== id)`. */
  function WithoutId(history: seq<SavedWallpaper>, id: string): (r: seq<SavedWallpaper>)
    ensures forall w | w in r :: w in history && w.id != id
    ensures forall i | 0 <= i < |history| && history[i].id != id :: history[i] in r
  {
    Lists.Filter(history, (w: SavedWallpaper) => w.id != id)
  }

  /** Removal keeps the order: removing from a concatenation removes from each part. */
  lemma WithoutIdAppend(a: seq<SavedWallpaper>, b: seq<SavedWallpaper>, id: string)
    ensures WithoutId(a + b, id) == WithoutId(a, id) + WithoutId(b, id)
  {
    Lists.FilterAppend(a, b, (w: SavedWallpaper) => w.id != id);
  }

  /** Removing an id that no record has leaves the list unchanged. */
  lemma WithoutUnknownId(history: seq<SavedWallpaper>, id: string)
    requires forall i | 0 <= i < |history| :: history[i].id != id
    ensures WithoutId(history, id) == history
  {
    Lists.FilterKeepsAll(history, (w: SavedWallpaper) => w.id != id);
  }

  /** `{ ...item, isFavorite: !item.isFavorite }`. */
  function Toggled(w: SavedWallpaper): (t: SavedWallpaper)
  {
    w.(isFavorite := Some(!w.IsFavorite()))
  }

  /** `history.map(item => item.id === id ? toggled : item)`: the records with that
      id get the negated flag (unset counts as false); nothing else changes. */
  function ToggleFavoriteIn(history: seq<SavedWallpaper>, id: string): (r: seq<SavedWallpaper>)
    ensures |r| == |history|
    ensures forall i | 0 <= i < |r| :: r[i].(isFavorite := history[i].isFavorite) == history[i]
    ensures forall i | 0 <= i < |r| && history[i].id == id ::
      r[i].isFavorite.Some? && (r[i].IsFavorite() <==> !history[i].IsFavorite())
    ensures forall i | 0 <= i < |r| && history[i].id != id :: r[i] == history[i]
  {
    seq(|history|, i requires 0 <= i < |history| => if history[i].id == id then Toggled(history[i]) else history[i])
  }

  /** Toggling the same id twice restores every flag that was set, and turns an
      unset flag of a matching record into `false` rather than back into unset. */
  lemma ToggleTwice(history: seq<SavedWallpaper>, id: string)
    ensures var twice := ToggleFavoriteIn(ToggleFavoriteIn(history, id), id);
      forall i | 0 <= i < |history| ::
        twice[i] == if history[i].id == id && history[i].isFavorite == None
                    then history[i].(isFavorite := Some(false))
                    else history[i]
  {
    var once := ToggleFavoriteIn(history, id);
    var twice := ToggleFavoriteIn(once, id);
    forall i | 0 <= i < |history|
      ensures twice[i] == if history[i].id == id && history[i].isFavorite == None
                          then history[i].(isFavorite := Some(false))
                          else history[i]
    {
      if history[i].id == id {
        assert once[i] == Toggled(history[i]);
        assert once[i].id == id;
        assert twice[i] == Toggled(once[i]);
        assert twice[i] == history[i].(isFavorite := Some(history[i].IsFavorite()));
        match history[i].isFavorite {
          case None =>
          case Some(b) => assert history[i].(isFavorite := Some(b)) == history[i];
        }
      }
    }
  }

  /** So toggling twice is the identity when no record with that id has an unset flag. */
  lemma ToggleTwiceRestores(history: seq<SavedWallpaper>, id: string)
    requires forall i | 0 <= i < |history| && history[i].id == id :: history[i].isFavorite.Some?
    ensures ToggleFavoriteIn(ToggleFavoriteIn(history, id), id) == history
  {
    ToggleTwice(history, id);
  }

  /** The browser storage slot "mood-wallpaper-history" and the functions of
      historyStorage.ts that read and rewrite it. */
  class HistoryStore {
    var slot: Slot<seq<SavedWallpaper>>

    constructor (initial: Slot<seq<SavedWallpaper>>)
      ensures slot == initial
    {
      slot := initial;
    }

    /** `getWallpaperHistory`: the stored list, or [] when nothing is stored or the
        stored text does not parse. */
    method GetWallpaperHistory() returns (history: seq<SavedWallpaper>)
      ensures slot.Holds? ==> history == slot.value
      ensures !slot.Holds? ==> history == []
    {
      match slot {
        case Holds(h) => history := h;
        case Empty => history := [];
        case Unparsable => history := [];
      }
    }

    /** `saveWallpaperToHistory`: builds the record, puts it in front of the
        loaded list and stores the first 20. */
    method SaveWallpaperToHistory(data: WallpaperData, now: nat, suffix: string, createdAt: string)
      returns (saved: SavedWallpaper)
      modifies this
      ensures saved == NewRecord(data, now, suffix, createdAt)
      ensures slot == Holds(SaveList(saved, Load(old(slot))))
    {
      saved := NewRecord(data, now, suffix, createdAt);
      var history := GetWallpaperHistory();
      slot := Holds(([saved] + history)[..Min(MAX_HISTORY_ITEMS, |history| + 1)]);
    }

    /** `removeWallpaperFromHistory`: stores the loaded list without the records with that id. */
    method RemoveWallpaperFromHistory(id: string)
      modifies this
      ensures slot == Holds(WithoutId(Load(old(slot)), id))
    {
      var history := GetWallpaperHistory();
      slot := Holds(WithoutId(history, id));
    }

    /** `clearWallpaperHistory`: removes the stored entry, so the next load gives []. */
    method ClearWallpaperHistory()
      modifies this
      ensures slot == Empty && Load(slot) == []
    {
      slot := Empty;
    }

    /** `toggleWallpaperFavorite`: stores the loaded list with the flag of the
        records with that id negated. */
    method ToggleWallpaperFavorite(id: string)
      modifies this
      ensures slot == Holds(ToggleFavoriteIn(Load(old(slot)), id))
    {
      var history := GetWallpaperHistory();
      slot := Holds(ToggleFavoriteIn(history, id));
    }
  }
}
