/** What the film tab shows for a given filter state: the filter pipeline of
    LuceneGuiFilmeModelHelper written as functions, with the properties the
    pipeline promises proved about them.  The step-by-step version that
    updates the helper's fields is in module FilmeModelHelper. */
module FilmFilter {
  import opened Wrappers
  import opened Films

  /** FilmLengthSlider.UNLIMITED_VALUE: the top position of the length slider,
      meaning "no upper bound".  Its value is left open: everything below holds
      for any value. */
  const UNLIMITED_VALUE: int

  /** The filter state the helper reads from the filter panel and the search
      field at the start of a run.  Slider positions are whole minutes. */
  datatype FilterPanel = FilterPanel(
    checkedSenders: seq<string>,     // checked items of the channel list
    themaSelection: Option<string>,  // selected topic, None when nothing is selected
    searchText: string,
    lowValue: int,
    highValue: int,
    dontShowAbos: bool,
    showUnseenOnly: bool,
    showOnlyHd: bool,
    showSubtitlesOnly: bool,
    showLivestreamsOnly: bool,
    showNewOnly: bool,
    showBookMarkedOnly: bool,
    dontShowTrailers: bool,
    dontShowSignLanguage: bool,
    dontShowAudioVersions: bool
  )

  /** What searching the title index with the search text gives: the "id"
      field of every hit, or a query the parser rejects. */
  datatype SearchOutcome = Hits(ids: seq<int>) | QueryError

  /** The film numbers a search hit, as a set. */
  function HitSet(search: SearchOutcome): (s: set<int>)
    ensures search.Hits? ==> forall n :: n in s <==> n in search.ids
    ensures search.QueryError? ==> s == {}
  {
    match search
    case Hits(ids) => set n | n in ids
    case QueryError => {}
  }

  /** The selected topic, with "no selection" read as the empty topic. */
  function GetFilterThema(panel: FilterPanel): (thema: string)
    ensures panel.themaSelection.None? ==> thema == ""
    ensures panel.themaSelection.Some? ==> thema == panel.themaSelection.value
  {
    match panel.themaSelection
    case None => ""
    case Some(t) => t
  }

  /** True when the panel is in its initial state: no channel, no topic, no
      search text, the slider at 0 .. UNLIMITED_VALUE and every toggle off. */
  predicate NoFiltersAreSet(panel: FilterPanel)
  {
    && |panel.checkedSenders| == 0
    && GetFilterThema(panel) == ""
    && panel.searchText == ""
    && panel.lowValue == 0
    && panel.highValue == UNLIMITED_VALUE
    && !panel.dontShowAbos
    && !panel.showUnseenOnly
    && !panel.showOnlyHd
    && !panel.showSubtitlesOnly
    && !panel.showLivestreamsOnly
    && !panel.showNewOnly
    && !panel.showBookMarkedOnly
    && !panel.dontShowTrailers
    && !panel.dontShowSignLanguage
    && !panel.dontShowAudioVersions
  }

  // ---------------------------------------------------------------------
  // The stages of the stream and the films they let through

  /** One `filter` call on the stream of films. */
  datatype Stage =
    | InFilmNrs(filmNrSet: set<int>)
    | SenderIn(senderSet: set<string>)
    | NewOnly
    | BookmarkedOnly
    | LivestreamsOnly
    | HqOnly
    | NoTrailers
    | NoSignLanguage
    | NoAudioVersions
    | NoAbos
    | SubtitlesOnly
    | ThemaIs(thema: string)
    | ShorterThan(range: SliderRange)
    | Unseen(seenCache: set<string>)
    | NotShorterThan(range: SliderRange)

  predicate Admits(stage: Stage, film: Film)
  {
    match stage
    case InFilmNrs(filmNrSet) => film.filmNr in filmNrSet
    case SenderIn(senderSet) => film.sender in senderSet
    case NewOnly => film.isNew
    case BookmarkedOnly => film.isBookmarked
    case LivestreamsOnly => film.isLivestream
    case HqOnly => film.isHighQuality
    case NoTrailers => !film.isTrailerTeaser
    case NoSignLanguage => !film.isSignLanguage
    case NoAudioVersions => !film.isAudioVersion
    case NoAbos => !film.hasAbo
    case SubtitlesOnly => SubtitleCheck(film)
    case ThemaIs(thema) => EqualsIgnoreCase(film.thema, thema)
    case ShorterThan(range) => MaxLengthCheck(film, range)
    case Unseen(seenCache) => SeenCheck(film, seenCache)
    case NotShorterThan(range) => MinLengthCheck(film, range)
  }

  /** A stream of films as the pipeline builds it: the source list followed by
      the `filter` stages applied to it, the last one outermost. */
  datatype Chain = Source | Filter(upstream: Chain, stage: Stage)

  /** A film gets through a chain when every stage of it lets the film through. */
  predicate AdmitsAll(chain: Chain, film: Film)
  {
    match chain
    case Source => true
    case Filter(upstream, stage) => AdmitsAll(upstream, film) && Admits(stage, film)
  }

  /** `stream.filter(stage)` when `active` holds, the stream unchanged otherwise. */
  function FilterIf(chain: Chain, active: bool, stage: Stage): Chain
  {
    if active then Filter(chain, stage) else chain
  }

  lemma FilterIfAdmits(chain: Chain, active: bool, stage: Stage, film: Film)
    ensures AdmitsAll(FilterIf(chain, active, stage), film) <==> AdmitsAll(chain, film) && (active ==> Admits(stage, film))
  {
  }

  /** The chain `b` run downstream of the chain `a`. */
  function Append(a: Chain, b: Chain): Chain
  {
    match b
    case Source => a
    case Filter(upstream, stage) => Filter(Append(a, upstream), stage)
  }

  /** The films of `films` that get through `chain`, in their order: an
      order-preserving filter, as `collect(toList())` keeps encounter order. */
  function Sift(films: seq<Film>, chain: Chain): seq<Film>
  {
    if films == [] then []
    else (if AdmitsAll(chain, films[0]) then [films[0]] else []) + Sift(films[1..], chain)
  }

  /** `r` is `s` with some elements dropped and the rest kept in order. */
  predicate IsSubsequence(r: seq<Film>, s: seq<Film>)
  {
    || r == []
    || (&& s != []
        && ((r[0] == s[0] && IsSubsequence(r[1..], s[1..])) || IsSubsequence(r, s[1..])))
  }

  /** The first filters of a run: the search hits, the checked channels and
      the "only ..." toggles for new, bookmarked and livestream films. */
  function SelectionChain(panel: FilterPanel, filmNrSet: set<int>): Chain
  {
    var c := FilterIf(Source, panel.searchText != "", InFilmNrs(filmNrSet));
    var c := FilterIf(c, |panel.checkedSenders| != 0, SenderIn(set s | s in panel.checkedSenders));
    var c := FilterIf(c, panel.showNewOnly, NewOnly);
    var c := FilterIf(c, panel.showBookMarkedOnly, BookmarkedOnly);
    FilterIf(c, panel.showLivestreamsOnly, LivestreamsOnly)
  }

  /** The next filters: high quality only, then the four "hide ..." toggles. */
  function ExclusionChain(upstream: Chain, panel: FilterPanel): Chain
  {
    var c := FilterIf(upstream, panel.showOnlyHd, HqOnly);
    var c := FilterIf(c, panel.dontShowTrailers, NoTrailers);
    var c := FilterIf(c, panel.dontShowSignLanguage, NoSignLanguage);
    var c := FilterIf(c, panel.dontShowAudioVersions, NoAudioVersions);
    FilterIf(c, panel.dontShowAbos, NoAbos)
  }

  /** The last filters: subtitles, topic, maximum length, seen films, and the
      minimum length, which is always applied and always last. */
  function ContentChain(upstream: Chain, panel: FilterPanel, seenCache: set<string>): Chain
  {
    var range := SliderRangeOf(panel.lowValue, panel.highValue);
    var thema := GetFilterThema(panel);
    var c := FilterIf(upstream, panel.showSubtitlesOnly, SubtitlesOnly);
    var c := FilterIf(c, thema != "", ThemaIs(thema));
    var c := FilterIf(c, panel.highValue < UNLIMITED_VALUE, ShorterThan(range));
    var c := FilterIf(c, panel.showUnseenOnly, Unseen(seenCache));
    Filter(c, NotShorterThan(range))
  }

  /** The fixed left-to-right chain of filters of one run, given the set of
      film numbers the search hit and the contents of the seen cache. */
  function ActiveChain(panel: FilterPanel, filmNrSet: set<int>, seenCache: set<string>): Chain
  {
    ContentChain(ExclusionChain(SelectionChain(panel, filmNrSet), panel), panel, seenCache)
  }

  /** The result of performTableFiltering: the empty model when the query
      cannot be parsed, otherwise the catalog sifted through the chain. */
  function FilteringResult(catalog: seq<Film>, panel: FilterPanel, search: SearchOutcome,
                           seenCache: set<string>): seq<Film>
  {
    if panel.searchText != "" && search.QueryError? then []
    else Sift(catalog, ActiveChain(panel, HitSet(search), seenCache))
  }

  /** The reference definition of "the film matches the filter panel": every
      active criterion holds, stated directly on the panel. */
  predicate Selected(film: Film, panel: FilterPanel, filmNrSet: set<int>, seenCache: set<string>)
  {
    && (panel.searchText != "" ==> film.filmNr in filmNrSet)
    && (|panel.checkedSenders| != 0 ==> film.sender in panel.checkedSenders)
    && (panel.showNewOnly ==> film.isNew)
    && (panel.showBookMarkedOnly ==> film.isBookmarked)
    && (panel.showLivestreamsOnly ==> film.isLivestream)
    && (panel.showOnlyHd ==> film.isHighQuality)
    && (panel.dontShowTrailers ==> !film.isTrailerTeaser)
    && (panel.dontShowSignLanguage ==> !film.isSignLanguage)
    && (panel.dontShowAudioVersions ==> !film.isAudioVersion)
    && (panel.dontShowAbos ==> !film.hasAbo)
    && (panel.showSubtitlesOnly ==> film.hasSubtitle || film.hasBurnedInSubtitles)
    && (GetFilterThema(panel) != "" ==> EqualsIgnoreCase(film.thema, GetFilterThema(panel)))
    && (panel.highValue < UNLIMITED_VALUE ==> film.filmLength < panel.highValue * 60)
    && (panel.showUnseenOnly ==> film.url !in seenCache)
    && (film.filmLength == 0 || film.filmLength >= panel.lowValue * 60)
  }

  /** The result of getFilteredTableModel: nothing for an empty list, the whole
      list when no filter is set, the filtering result otherwise. */
  function FilteredTableModel(catalog: seq<Film>, panel: FilterPanel, search: SearchOutcome,
                              seenCache: set<string>): seq<Film>
  {
    if catalog == [] then []
    else if NoFiltersAreSet(panel) then catalog
    else FilteringResult(catalog, panel, search, seenCache)
  }

  // ---------------------------------------------------------------------
  // Sifting

  lemma {:induction false} SiftMembers(films: seq<Film>, chain: Chain)
    ensures forall f :: f in Sift(films, chain) <==> f in films && AdmitsAll(chain, f)
  {
    if films != [] {
      SiftMembers(films[1..], chain);
      assert forall f :: f in films <==> f == films[0] || f in films[1..];
    }
  }

  /** Every copy of an admitted film is kept, and no copy of any other. */
  lemma {:induction false} SiftMultiplicity(films: seq<Film>, chain: Chain)
    ensures forall f :: multiset(Sift(films, chain))[f] == if AdmitsAll(chain, f) then multiset(films)[f] else 0
  {
    if films != [] {
      SiftMultiplicity(films[1..], chain);
      assert films == [films[0]] + films[1..];
      assert multiset(films) == multiset{films[0]} + multiset(films[1..]);
    }
  }

  lemma {:induction false} SiftIsSubsequence(films: seq<Film>, chain: Chain)
    ensures IsSubsequence(Sift(films, chain), films)
  {
    if films != [] {
      SiftIsSubsequence(films[1..], chain);
      var r := Sift(films, chain);
      if AdmitsAll(chain, films[0]) {
        assert r[0] == films[0] && r[1..] == Sift(films[1..], chain);
      } else {
        assert r == Sift(films[1..], chain);
      }
    }
  }

  /** Sifting through a chain that lets every film through changes nothing. */
  lemma {:induction false} SiftKeepsAll(films: seq<Film>, chain: Chain)
    requires forall f :: f in films ==> AdmitsAll(chain, f)
    ensures Sift(films, chain) == films
  {
    if films != [] {
      assert films[0] in films;
      assert forall f :: f in films[1..] ==> f in films;
      SiftKeepsAll(films[1..], chain);
    }
  }

  lemma {:induction false} AdmitsAllAppend(a: Chain, b: Chain, film: Film)
    ensures AdmitsAll(Append(a, b), film) <==> AdmitsAll(a, film) && AdmitsAll(b, film)
  {
    match b
    case Source =>
    case Filter(upstream, stage) => AdmitsAllAppend(a, upstream, film);
  }

  /** Filtering in two rounds is filtering once through both chains. */
  lemma {:induction false} SiftSift(films: seq<Film>, a: Chain, b: Chain)
    ensures Sift(Sift(films, a), b) == Sift(films, Append(a, b))
  {
    if films != [] {
      var h, t := films[0], films[1..];
      SiftSift(t, a, b);
      AdmitsAllAppend(a, b, h);
      if AdmitsAll(a, h) {
        var r := Sift(films, a);
        assert r == [h] + Sift(t, a);
        assert r[0] == h && r[1..] == Sift(t, a);
        assert Sift(r, b) == (if AdmitsAll(b, h) then [h] else []) + Sift(Sift(t, a), b);
      } else {
        assert Sift(films, a) == Sift(t, a);
      }
    }
  }

  /** One more `filter` call on a sifted stream is sifting through the longer chain. */
  lemma SiftFilter(films: seq<Film>, chain: Chain, stage: Stage)
    ensures Sift(Sift(films, chain), Filter(Source, stage)) == Sift(films, Filter(chain, stage))
  {
    SiftSift(films, chain, Filter(Source, stage));
  }

  /** Applying a chain twice gives what applying it once gives. */
  lemma SiftIdempotent(films: seq<Film>, chain: Chain)
    ensures Sift(Sift(films, chain), chain) == Sift(films, chain)
  {
    SiftMembers(films, chain);
    SiftKeepsAll(Sift(films, chain), chain);
  }

  /** Two chains together let through exactly the films both let through. */
  lemma SiftConjunction(films: seq<Film>, a: Chain, b: Chain)
    ensures Sift(films, Append(a, b)) == Sift(Sift(films, a), b)
    ensures forall f :: f in Sift(films, Append(a, b)) <==> f in Sift(films, a) && f in Sift(films, b)
  {
    SiftSift(films, a, b);
    SiftMembers(films, Append(a, b));
    SiftMembers(films, a);
    SiftMembers(films, b);
    forall f
      ensures AdmitsAll(Append(a, b), f) <==> AdmitsAll(a, f) && AdmitsAll(b, f)
    {
      AdmitsAllAppend(a, b, f);
    }
  }

  // ---------------------------------------------------------------------
  // The pipeline

  lemma SelectionChainMeaning(film: Film, panel: FilterPanel, filmNrSet: set<int>)
    ensures AdmitsAll(SelectionChain(panel, filmNrSet), film) <==>
      && (panel.searchText != "" ==> film.filmNr in filmNrSet)
      && (|panel.checkedSenders| != 0 ==> film.sender in panel.checkedSenders)
      && (panel.showNewOnly ==> film.isNew)
      && (panel.showBookMarkedOnly ==> film.isBookmarked)
      && (panel.showLivestreamsOnly ==> film.isLivestream)
  {
    var senderSet := set s | s in panel.checkedSenders;
    assert film.sender in senderSet <==> film.sender in panel.checkedSenders;
    var c0 := FilterIf(Source, panel.searchText != "", InFilmNrs(filmNrSet));
    var c1 := FilterIf(c0, |panel.checkedSenders| != 0, SenderIn(senderSet));
    var c2 := FilterIf(c1, panel.showNewOnly, NewOnly);
    var c3 := FilterIf(c2, panel.showBookMarkedOnly, BookmarkedOnly);
    FilterIfAdmits(Source, panel.searchText != "", InFilmNrs(filmNrSet), film);
    FilterIfAdmits(c0, |panel.checkedSenders| != 0, SenderIn(senderSet), film);
    FilterIfAdmits(c1, panel.showNewOnly, NewOnly, film);
    FilterIfAdmits(c2, panel.showBookMarkedOnly, BookmarkedOnly, film);
    FilterIfAdmits(c3, panel.showLivestreamsOnly, LivestreamsOnly, film);
  }

  lemma ExclusionChainMeaning(upstream: Chain, film: Film, panel: FilterPanel)
    ensures AdmitsAll(ExclusionChain(upstream, panel), film) <==>
      && AdmitsAll(upstream, film)
      && (panel.showOnlyHd ==> film.isHighQuality)
      && (panel.dontShowTrailers ==> !film.isTrailerTeaser)
      && (panel.dontShowSignLanguage ==> !film.isSignLanguage)
      && (panel.dontShowAudioVersions ==> !film.isAudioVersion)
      && (panel.dontShowAbos ==> !film.hasAbo)
  {
    var c0 := FilterIf(upstream, panel.showOnlyHd, HqOnly);
    var c1 := FilterIf(c0, panel.dontShowTrailers, NoTrailers);
    var c2 := FilterIf(c1, panel.dontShowSignLanguage, NoSignLanguage);
    var c3 := FilterIf(c2, panel.dontShowAudioVersions, NoAudioVersions);
    FilterIfAdmits(upstream, panel.showOnlyHd, HqOnly, film);
    FilterIfAdmits(c0, panel.dontShowTrailers, NoTrailers, film);
    FilterIfAdmits(c1, panel.dontShowSignLanguage, NoSignLanguage, film);
    FilterIfAdmits(c2, panel.dontShowAudioVersions, NoAudioVersions, film);
    FilterIfAdmits(c3, panel.dontShowAbos, NoAbos, film);
  }

  lemma ContentChainMeaning(upstream: Chain, film: Film, panel: FilterPanel, seenCache: set<string>)
    ensures AdmitsAll(ContentChain(upstream, panel, seenCache), film) <==>
      && AdmitsAll(upstream, film)
      && (panel.showSubtitlesOnly ==> film.hasSubtitle || film.hasBurnedInSubtitles)
      && (GetFilterThema(panel) != "" ==> EqualsIgnoreCase(film.thema, GetFilterThema(panel)))
      && (panel.highValue < UNLIMITED_VALUE ==> film.filmLength < panel.highValue * 60)
      && (panel.showUnseenOnly ==> film.url !in seenCache)
      && (film.filmLength == 0 || film.filmLength >= panel.lowValue * 60)
  {
    var range := SliderRangeOf(panel.lowValue, panel.highValue);
    var thema := GetFilterThema(panel);
    var c0 := FilterIf(upstream, panel.showSubtitlesOnly, SubtitlesOnly);
    var c1 := FilterIf(c0, thema != "", ThemaIs(thema));
    var c2 := FilterIf(c1, panel.highValue < UNLIMITED_VALUE, ShorterThan(range));
    var c3 := FilterIf(c2, panel.showUnseenOnly, Unseen(seenCache));
    FilterIfAdmits(upstream, panel.showSubtitlesOnly, SubtitlesOnly, film);
    FilterIfAdmits(c0, thema != "", ThemaIs(thema), film);
    FilterIfAdmits(c1, panel.highValue < UNLIMITED_VALUE, ShorterThan(range), film);
    FilterIfAdmits(c2, panel.showUnseenOnly, Unseen(seenCache), film);
  }

  /** The chain built by ActiveChain lets a film through exactly when the
      film matches the panel. */
  lemma ActiveChainMeaning(film: Film, panel: FilterPanel, filmNrSet: set<int>, seenCache: set<string>)
    ensures AdmitsAll(ActiveChain(panel, filmNrSet, seenCache), film) <==> Selected(film, panel, filmNrSet, seenCache)
  {
    var selection := SelectionChain(panel, filmNrSet);
    SelectionChainMeaning(film, panel, filmNrSet);
    ExclusionChainMeaning(selection, film, panel);
    ContentChainMeaning(ExclusionChain(selection, panel), film, panel, seenCache);
  }

  /** The filtered list keeps catalog order, adds nothing, and holds exactly
      the catalog films that match every active criterion. */
  lemma FilteringResultMatches(catalog: seq<Film>, panel: FilterPanel, search: SearchOutcome, seenCache: set<string>)
    requires panel.searchText == "" || search.Hits?
    ensures IsSubsequence(FilteringResult(catalog, panel, search, seenCache), catalog)
    ensures forall f :: f in FilteringResult(catalog, panel, search, seenCache) <==>
                          f in catalog && Selected(f, panel, HitSet(search), seenCache)
    ensures forall f :: multiset(FilteringResult(catalog, panel, search, seenCache))[f] ==
                          if Selected(f, panel, HitSet(search), seenCache) then multiset(catalog)[f] else 0
  {
    var chain := ActiveChain(panel, HitSet(search), seenCache);
    SiftIsSubsequence(catalog, chain);
    SiftMembers(catalog, chain);
    SiftMultiplicity(catalog, chain);
    forall f
      ensures AdmitsAll(chain, f) <==> Selected(f, panel, HitSet(search), seenCache)
    {
      ActiveChainMeaning(f, panel, HitSet(search), seenCache);
    }
  }

  /** With a search text, only films whose number the search hit survive;
      a query the parser rejects leaves nothing. */
  lemma SearchNarrows(catalog: seq<Film>, panel: FilterPanel, search: SearchOutcome, seenCache: set<string>)
    requires panel.searchText != ""
    ensures search.QueryError? ==> FilteringResult(catalog, panel, search, seenCache) == []
    ensures search.Hits? ==> forall f :: f in FilteringResult(catalog, panel, search, seenCache) ==> f.filmNr in search.ids
  {
    if search.Hits? {
      FilteringResultMatches(catalog, panel, search, seenCache);
    }
  }

  /** The minimum length never removes a film of unknown length: whatever the
      lower slider position, such a film is in the result or not alike. */
  lemma UnknownLengthIgnoresMinimum(catalog: seq<Film>, panel: FilterPanel, search: SearchOutcome,
                                    seenCache: set<string>, film: Film, lowValue: int)
    requires film.filmLength == 0
    ensures film in FilteringResult(catalog, panel, search, seenCache) <==>
            film in FilteringResult(catalog, panel.(lowValue := lowValue), search, seenCache)
  {
    if panel.searchText == "" || search.Hits? {
      var other := panel.(lowValue := lowValue);
      FilteringResultMatches(catalog, panel, search, seenCache);
      FilteringResultMatches(catalog, other, search, seenCache);
      assert Selected(film, panel, HitSet(search), seenCache) <==> Selected(film, other, HitSet(search), seenCache);
    }
  }

  /** With no filter set the full pipeline returns the whole catalog: the
      fast path of getFilteredTableModel changes no result. */
  lemma FastPathAgrees(catalog: seq<Film>, panel: FilterPanel, search: SearchOutcome, seenCache: set<string>)
    requires NoFiltersAreSet(panel)
    ensures FilteringResult(catalog, panel, search, seenCache) == catalog
    ensures FilteredTableModel(catalog, panel, search, seenCache) == catalog
  {
    var chain := ActiveChain(panel, HitSet(search), seenCache);
    forall f | f in catalog
      ensures AdmitsAll(chain, f)
    {
      ActiveChainMeaning(f, panel, HitSet(search), seenCache);
    }
    SiftKeepsAll(catalog, chain);
  }

  /** getFilteredTableModel and performTableFiltering agree on every input. */
  lemma TableModelIsFilteringResult(catalog: seq<Film>, panel: FilterPanel, search: SearchOutcome, seenCache: set<string>)
    ensures FilteredTableModel(catalog, panel, search, seenCache) == FilteringResult(catalog, panel, search, seenCache)
  {
    if NoFiltersAreSet(panel) {
      FastPathAgrees(catalog, panel, search, seenCache);
    }
  }
}
