/** The song catalogue page's filter: a text search over title and artist combined with a difficulty filter. */
module SongCatalogue {
  import Seqs
  import Text

  datatype Song = Song(id: nat, title: string, artist: string, difficulty: string, cover: string)

  /** The difficulty filter value that accepts every song. */
  const AllLevels: string := "All"

  predicate MatchesSearch(song: Song, search: string) {
    Text.Contains(Text.ToLower(song.title), Text.ToLower(search))
    || Text.Contains(Text.ToLower(song.artist), Text.ToLower(search))
  }

  predicate MatchesLevel(song: Song, filter: string) {
    filter == AllLevels || song.difficulty == filter
  }

  predicate Shown(song: Song, search: string, filter: string) {
    MatchesSearch(song, search) && MatchesLevel(song, filter)
  }

  /** The songs the page shows for the given search text and difficulty filter, in catalogue order. */
  function FilteredSongs(songs: seq<Song>, search: string, filter: string): (r: seq<Song>)
    ensures Seqs.IsSubsequence(r, songs)
    ensures forall i :: 0 <= i < |r| ==> r[i] in songs && Shown(r[i], search, filter)
    ensures forall i :: 0 <= i < |songs| ==> (songs[i] in r <==> Shown(songs[i], search, filter))
  {
    Seqs.Filter(s => Shown(s, search, filter), songs)
  }

  /** An empty search with every level selected shows the whole catalogue. */
  lemma EmptySearchShowsAll(songs: seq<Song>)
    ensures FilteredSongs(songs, "", AllLevels) == songs
  {
    forall i | 0 <= i < |songs|
      ensures Shown(songs[i], "", AllLevels)
    {
      Text.ContainsEmpty(Text.ToLower(songs[i].title));
    }
    Seqs.FilterKeepsAll(s => Shown(s, "", AllLevels), songs);
  }

  /** Choosing one difficulty shows a subsequence of what "All" shows for the same search. */
  lemma LevelNarrowsAll(songs: seq<Song>, search: string, filter: string)
    ensures Seqs.IsSubsequence(FilteredSongs(songs, search, filter), FilteredSongs(songs, search, AllLevels))
  {
    Seqs.FilterStronger(s => Shown(s, search, filter), s => Shown(s, search, AllLevels), songs);
  }

  /** A difficulty no song has shows nothing, whatever the search. */
  lemma UnknownLevelShowsNothing(songs: seq<Song>, search: string, filter: string)
    requires filter != AllLevels
    requires forall i :: 0 <= i < |songs| ==> songs[i].difficulty != filter
    ensures FilteredSongs(songs, search, filter) == []
  {
    Seqs.FilterDropsAll(s => Shown(s, search, filter), songs);
  }

  /** The search ignores the case of the query. */
  lemma SearchIgnoresCase(songs: seq<Song>, search: string, filter: string)
    ensures FilteredSongs(songs, Text.ToLower(search), filter) == FilteredSongs(songs, search, filter)
  {
    Text.ToLowerIdempotent(search);
    Seqs.FilterAgreeing(s => Shown(s, Text.ToLower(search), filter), s => Shown(s, search, filter), songs);
  }

  /** The page's catalogue: twenty songs at three difficulty levels. */
  const MockSongs: seq<Song> := [
    Song(1, "As It Was", "Harry Styles", "Easy", "/covers/harry_styles_as_it_was.jpg"),
    Song(2, "Anti-Hero", "Taylor Swift", "Medium", "/covers/taylor_swift_anti_hero.jpg"),
    Song(3, "Blinding Lights", "The Weeknd", "Hard", "/covers/the_weeknd_blinding_lights.jpg"),
    Song(4, "Flowers", "Miley Cyrus", "Easy", "/covers/miley_cyrus_flowers.jpg"),
    Song(5, "Levitating", "Dua Lipa", "Medium", "/covers/dua_lipa_levitating.jpg"),
    Song(6, "Stay", "The Kid LAROI & Justin Bieber", "Hard", "/covers/stay_laroi_bieber.jpg"),
    Song(7, "Good 4 U", "Olivia Rodrigo", "Medium", "/covers/ol.jpg"),
    Song(8, "Watermelon Sugar", "Harry Styles", "Easy", "/covers/watermelon_sugar.jpg"),
    Song(9, "Peaches", "Justin Bieber", "Easy", "/covers/j.jpg"),
    Song(10, "Easy On Me", "Adele", "Medium", "/covers/adele_easy_on_me.jpg"),
    Song(11, "Positions", "Ariana Grande", "Hard", "/covers/ariana_positions.jpg"),
    Song(12, "Industry Baby", "Lil Nas X & Jack Harlow", "Hard", "/covers/industry_baby.jpg"),
    Song(13, "Shivers", "Ed Sheeran", "Medium", "/covers/ed_sheeran_shivers.jpg"),
    Song(14, "Save Your Tears", "The Weeknd", "Easy", "/covers/save_your_tears.jpg"),
    Song(15, "Unholy", "Sam Smith & Kim Petras", "Hard", "/covers/unholy_sam_kim.jpg"),
    Song(16, "Don't Start Now", "Dua Lipa", "Medium", "/covers/dont_start_now.jpg"),
    Song(17, "Drivers License", "Olivia Rodrigo", "Easy", "/covers/drivers_license.jpg"),
    Song(18, "abcdefu", "GAYLE", "Hard", "/covers/abcdefu.jpg"),
    Song(19, "Heat Waves", "Glass Animals", "Medium", "/covers/heat_waves.jpg"),
    Song(20, "Bad Habits", "Ed Sheeran", "Easy", "/covers/bad_habits.jpg")
  ]

  /** Every catalogue song has one of the three levels the filter offers. */
  lemma MockLevelsAreOffered()
    ensures forall i :: 0 <= i < |MockSongs| ==> MockSongs[i].difficulty in {"Easy", "Medium", "Hard"}
  {
  }

  /** No catalogue song is shown under a level the filter does not offer. */
  lemma MockUnofferedLevelIsEmpty(search: string, filter: string)
    requires filter !in {AllLevels, "Easy", "Medium", "Hard"}
    ensures FilteredSongs(MockSongs, search, filter) == []
  {
    MockLevelsAreOffered();
    UnknownLevelShowsNothing(MockSongs, search, filter);
  }
}
