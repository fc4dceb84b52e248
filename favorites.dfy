/** The favorites store of the main process: a list of track records kept in
    one file, toggled by title. */
module Favorites {
  import opened JsValues
  import opened Tracks

  /** `favs.findIndex(f => f.title === title)`: the first position holding
      that title, or -1. */
  function FindByTitle(favs: seq<Track>, title: Option<string>): (i: int)
    ensures -1 <= i < |favs|
    ensures i == -1 <==> forall k :: 0 <= k < |favs| ==> favs[k].title != title
    ensures i >= 0 ==> favs[i].title == title && forall k :: 0 <= k < i ==> favs[k].title != title
  {
    if favs == [] then -1
    else if favs[0].title == title then 0
    else
      var j := FindByTitle(favs[1..], title);
      if j == -1 then -1 else j + 1
  }

  /** Some favorite carries `title`; this is `isFavorite` in the renderers. */
  predicate HasTitle(favs: seq<Track>, title: Option<string>) {
    exists k :: 0 <= k < |favs| && favs[k].title == title
  }

  /** The list `toggle-favorite` saves and returns: the first entry with the
      song's title is spliced out, or the song is pushed at the end. */
  function Toggled(favs: seq<Track>, song: Track): seq<Track> {
    var index := FindByTitle(favs, song.title);
    if index >= 0 then favs[..index] + favs[index + 1..] else favs + [song]
  }

  /** No two favorites share a title. */
  predicate UniqueTitles(favs: seq<Track>) {
    forall i, j :: 0 <= i < j < |favs| ==> favs[i].title != favs[j].title
  }

  /** Toggling a song whose title is absent appends it at the end. */
  lemma ToggleAbsentAppends(favs: seq<Track>, song: Track)
    requires !HasTitle(favs, song.title)
    ensures Toggled(favs, song) == favs + [song]
  {
  }

  /** Toggling a song whose title is present removes exactly the first entry
      with that title; every other entry keeps its relative order. */
  lemma TogglePresentRemovesFirst(favs: seq<Track>, song: Track)
    requires HasTitle(favs, song.title)
    ensures var i := FindByTitle(favs, song.title);
      0 <= i < |favs| && favs[i].title == song.title
      && (forall k :: 0 <= k < i ==> favs[k].title != song.title)
      && Toggled(favs, song) == favs[..i] + favs[i + 1..]
  {
  }

  /** Toggling an absent song twice gives back the original list. */
  lemma ToggleTwiceRestores(favs: seq<Track>, song: Track)
    requires !HasTitle(favs, song.title)
    ensures Toggled(Toggled(favs, song), song) == favs
  {
    var once := favs + [song];
    assert Toggled(favs, song) == once;
    assert once[|favs|].title == song.title;
    assert FindByTitle(once, song.title) == |favs|;
    assert once[..|favs|] == favs;
  }

  /** With unique titles, a toggle flips whether the song's title is a
      favorite and keeps the titles unique. */
  lemma ToggleFlipsMembership(favs: seq<Track>, song: Track)
    requires UniqueTitles(favs)
    ensures HasTitle(Toggled(favs, song), song.title) <==> !HasTitle(favs, song.title)
    ensures UniqueTitles(Toggled(favs, song))
  {
    var r := Toggled(favs, song);
    var i := FindByTitle(favs, song.title);
    if i >= 0 {
      assert forall k :: 0 <= k < |r| ==> r[k] == (if k < i then favs[k] else favs[k + 1]);
      forall k | 0 <= k < |r| ensures r[k].title != song.title {
        var k' := if k < i then k else k + 1;
        assert r[k] == favs[k'] && k' != i;
      }
      forall a, b | 0 <= a < b < |r| ensures r[a].title != r[b].title {
        var a' := if a < i then a else a + 1;
        var b' := if b < i then b else b + 1;
        assert r[a] == favs[a'] && r[b] == favs[b'];
      }
    } else {
      assert r[|favs|] == song;
    }
  }

  /** What the favorites file holds. */
  datatype StoredFile = Missing | Unreadable | Saved(list: seq<Track>)

  /** `getFavorites`: a missing or unreadable file reads as the empty list. */
  function Load(file: StoredFile): seq<Track> {
    if file.Saved? then file.list else []
  }

  class FavoritesStore {
    var file: StoredFile

    constructor (file: StoredFile)
      ensures this.file == file
    {
      this.file := file;
    }

    /** The `get-favorites` handler: the saved list, or the empty list when
        the file is missing or cannot be read. */
    method GetFavorites() returns (favs: seq<Track>)
      ensures file.Saved? ==> favs == file.list
      ensures !file.Saved? ==> favs == []
    {
      if file.Saved? {
        favs := file.list;
      } else {
        favs := [];
      }
    }

    /** The `toggle-favorite` handler: read, splice or push, save, and return
      the list. `written` is false when saving throws, which leaves the file
      as it was. */
    method ToggleFavorite(song: Track, written: bool) returns (favs: seq<Track>)
      modifies this
      ensures favs == Toggled(Load(old(file)), song)
      ensures file == if written then Saved(favs) else old(file)
    {
      favs := GetFavorites();
      assert favs == Load(file);
      var index := FindByTitle(favs, song.title);
      if index >= 0 {
        favs := favs[..index] + favs[index + 1..];
      } else {
        favs := favs + [song];
      }
      if written {
        file := Saved(favs);
      }
    }
  }
}
