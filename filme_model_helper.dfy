/** LuceneGuiFilmeModelHelper as the object it is: it copies the toggles of
    the filter panel into its own fields, computes the slider range, and then
    narrows a stream of films one `filter` call after the other.  Each method
    is proved against the functions of module FilmFilter. */
module FilmeModelHelper {
  import opened Films
  import opened FilmFilter

  /** The part of the seen history the filter uses: the keys of the films
      seen so far, and whether the in-memory cache of them is prepared. */
  class SeenHistoryController {
    const seenUrls: set<string>
    ghost var cacheOpen: bool

    constructor (seenUrls: set<string>)
      ensures this.seenUrls == seenUrls && !cacheOpen
    {
      this.seenUrls := seenUrls;
      cacheOpen := false;
    }

    method PrepareMemoryCache()
      modifies this
      ensures cacheOpen
    {
      cacheOpen := true;
    }

    method EmptyMemoryCache()
      modifies this
      ensures !cacheOpen
    {
      cacheOpen := false;
    }

    /** Only meaningful while the cache is prepared. */
    predicate HasBeenSeenFromCache(film: Film)
      reads this
      requires cacheOpen
    {
      film.url in seenUrls
    }
  }

  /** The hit loop: the film numbers of all hits, as a set. */
  method CollectFilmNumbers(hitIds: seq<int>) returns (filmNrSet: set<int>)
    ensures forall n :: n in filmNrSet <==> n in hitIds
  {
    filmNrSet := {};
    var i := 0;
    while i < |hitIds|
      invariant 0 <= i <= |hitIds|
      invariant forall n :: n in filmNrSet <==> n in hitIds[..i]
    {
      assert hitIds[..i + 1] == hitIds[..i] + [hitIds[i]];
      filmNrSet := filmNrSet + {hitIds[i]};
      i := i + 1;
    }
    assert hitIds[..i] == hitIds;
  }

  /** One `stream = stream.filter(...)` of the pipeline, done when `active`
      holds: on a stream that is the catalog sifted through `chain`, it gives
      the catalog sifted through the chain one filter longer. */
  method FilterStream(stream: seq<Film>, ghost catalog: seq<Film>, ghost chain: Chain, active: bool, stage: Stage)
    returns (filtered: seq<Film>)
    requires stream == Sift(catalog, chain)
    ensures filtered == Sift(catalog, FilterIf(chain, active, stage))
  {
    filtered := stream;
    if active {
      SiftFilter(catalog, chain, stage);
      filtered := Sift(stream, Filter(Source, stage));
    }
  }

  /** The ten toggle fields of the helper, copied from the panel at the start
      of a run.  They are kept together in one record field. */
  datatype FilterVars = FilterVars(
    showNewOnly: bool,
    showBookmarkedOnly: bool,
    showSubtitlesOnly: bool,
    showHqOnly: bool,
    dontShowSeen: bool,
    dontShowAbos: bool,
    showLivestreamsOnly: bool,
    dontShowTrailers: bool,
    dontShowGebaerdensprache: bool,
    dontShowAudioVersions: bool
  )

  /** The toggles of a panel, as updateFilterVars copies them. */
  function FilterVarsOf(panel: FilterPanel): (v: FilterVars)
  {
    FilterVars(panel.showNewOnly, panel.showBookMarkedOnly, panel.showSubtitlesOnly, panel.showOnlyHd,
               panel.showUnseenOnly, panel.dontShowAbos, panel.showLivestreamsOnly, panel.dontShowTrailers,
               panel.dontShowSignLanguage, panel.dontShowAudioVersions)
  }

  /** The sender, "new", bookmark and livestream filters, which follow the search. */
  method SelectionFilters(stream: seq<Film>, ghost catalog: seq<Film>, panel: FilterPanel,
                          ghost filmNrSet: set<int>, vars: FilterVars)
    returns (filtered: seq<Film>)
    requires vars == FilterVarsOf(panel)
    requires stream == Sift(catalog, FilterIf(Source, panel.searchText != "", InFilmNrs(filmNrSet)))
    ensures filtered == Sift(catalog, SelectionChain(panel, filmNrSet))
  {
    ghost var chain := FilterIf(Source, panel.searchText != "", InFilmNrs(filmNrSet));
    var selectedSenders := panel.checkedSenders;
    var senderSet := set s | s in selectedSenders;
    filtered := FilterStream(stream, catalog, chain, |selectedSenders| != 0, SenderIn(senderSet));
    chain := FilterIf(chain, |selectedSenders| != 0, SenderIn(senderSet));
    filtered := FilterStream(filtered, catalog, chain, vars.showNewOnly, NewOnly);
    chain := FilterIf(chain, vars.showNewOnly, NewOnly);
    filtered := FilterStream(filtered, catalog, chain, vars.showBookmarkedOnly, BookmarkedOnly);
    chain := FilterIf(chain, vars.showBookmarkedOnly, BookmarkedOnly);
    filtered := FilterStream(filtered, catalog, chain, vars.showLivestreamsOnly, LivestreamsOnly);
  }

  /** The high-quality filter and the four "hide ..." toggles. */
  method ExclusionFilters(stream: seq<Film>, ghost catalog: seq<Film>, ghost upstream: Chain,
                          ghost panel: FilterPanel, vars: FilterVars)
    returns (filtered: seq<Film>)
    requires vars == FilterVarsOf(panel)
    requires stream == Sift(catalog, upstream)
    ensures filtered == Sift(catalog, ExclusionChain(upstream, panel))
  {
    ghost var chain := upstream;
    filtered := FilterStream(stream, catalog, chain, vars.showHqOnly, HqOnly);
    chain := FilterIf(chain, vars.showHqOnly, HqOnly);
    filtered := FilterStream(filtered, catalog, chain, vars.dontShowTrailers, NoTrailers);
    chain := FilterIf(chain, vars.dontShowTrailers, NoTrailers);
    filtered := FilterStream(filtered, catalog, chain, vars.dontShowGebaerdensprache, NoSignLanguage);
    chain := FilterIf(chain, vars.dontShowGebaerdensprache, NoSignLanguage);
    filtered := FilterStream(filtered, catalog, chain, vars.dontShowAudioVersions, NoAudioVersions);
    chain := FilterIf(chain, vars.dontShowAudioVersions, NoAudioVersions);
    filtered := FilterStream(filtered, catalog, chain, vars.dontShowAbos, NoAbos);
  }

  /** Subtitles, topic, maximum length, seen films, and last the minimum
      length, which is applied on every run. */
  method ContentFilters(stream: seq<Film>, ghost catalog: seq<Film>, ghost upstream: Chain,
                        panel: FilterPanel, vars: FilterVars, range: SliderRange, maxLength: int,
                        seenCache: set<string>)
    returns (filtered: seq<Film>)
    requires vars == FilterVarsOf(panel)
    requires range == SliderRangeOf(panel.lowValue, panel.highValue) && maxLength == panel.highValue
    requires stream == Sift(catalog, upstream)
    ensures filtered == Sift(catalog, ContentChain(upstream, panel, seenCache))
  {
    ghost var chain := upstream;
    filtered := FilterStream(stream, catalog, chain, vars.showSubtitlesOnly, SubtitlesOnly);
    chain := FilterIf(chain, vars.showSubtitlesOnly, SubtitlesOnly);
    var filterThema := GetFilterThema(panel);
    filtered := FilterStream(filtered, catalog, chain, filterThema != "", ThemaIs(filterThema));
    chain := FilterIf(chain, filterThema != "", ThemaIs(filterThema));
    filtered := FilterStream(filtered, catalog, chain, maxLength < UNLIMITED_VALUE, ShorterThan(range));
    chain := FilterIf(chain, maxLength < UNLIMITED_VALUE, ShorterThan(range));
    filtered := FilterStream(filtered, catalog, chain, vars.dontShowSeen, Unseen(seenCache));
    chain := FilterIf(chain, vars.dontShowSeen, Unseen(seenCache));
    filtered := FilterStream(filtered, catalog, chain, true, NotShorterThan(range));
  }

  class LuceneGuiFilmeModelHelper {
    const historyController: SeenHistoryController
    var filterVars: FilterVars
    var maxLength: int
    var sliderRange: SliderRange

    constructor (historyController: SeenHistoryController)
      ensures this.historyController == historyController
      ensures filterVars == FilterVars(false, false, false, false, false, false, false, false, false, false)
      ensures maxLength == 0 && sliderRange == SliderRange(0, 0)
    {
      this.historyController := historyController;
      filterVars := FilterVars(false, false, false, false, false, false, false, false, false, false);
      maxLength := 0;
      sliderRange := SliderRange(0, 0);
    }

    method UpdateFilterVars(panel: FilterPanel)
      modifies this`filterVars
      ensures filterVars == FilterVarsOf(panel)
    {
      filterVars := FilterVars(
        showNewOnly := panel.showNewOnly,
        showBookmarkedOnly := panel.showBookMarkedOnly,
        showSubtitlesOnly := panel.showSubtitlesOnly,
        showHqOnly := panel.showOnlyHd,
        dontShowSeen := panel.showUnseenOnly,
        dontShowAbos := panel.dontShowAbos,
        showLivestreamsOnly := panel.showLivestreamsOnly,
        dontShowTrailers := panel.dontShowTrailers,
        dontShowGebaerdensprache := panel.dontShowSignLanguage,
        dontShowAudioVersions := panel.dontShowAudioVersions);
    }

    /** The slider's upper position in minutes, and both positions in seconds. */
    method CalculateFilmLengthSliderValues(panel: FilterPanel)
      modifies this`maxLength, this`sliderRange
      ensures maxLength == panel.highValue
      ensures sliderRange.minLengthInSeconds == 60 * panel.lowValue
      ensures sliderRange.maxLengthInSeconds == 60 * panel.highValue
    {
      var minLength := panel.lowValue;
      maxLength := panel.highValue;
      var minLengthInSeconds := MinutesToSeconds(minLength);
      var maxLengthInSeconds := MinutesToSeconds(maxLength);
      sliderRange := SliderRange(minLengthInSeconds, maxLengthInSeconds);
    }

    /** The full pipeline.  A query the parser rejects ends the run with an
        empty model and leaves a prepared seen cache prepared; otherwise the
        cache is emptied again at the end. */
    method PerformTableFiltering(catalog: seq<Film>, panel: FilterPanel, search: SearchOutcome)
      returns (model: seq<Film>)
      modifies this, historyController
      ensures model == FilteringResult(catalog, panel, search, historyController.seenUrls)
      ensures filterVars == FilterVarsOf(panel) && maxLength == panel.highValue
      ensures sliderRange == SliderRangeOf(panel.lowValue, panel.highValue)
      ensures historyController.cacheOpen ==
                if panel.showUnseenOnly then panel.searchText != "" && search.QueryError?
                else old(historyController.cacheOpen)
    {
      UpdateFilterVars(panel);
      CalculateFilmLengthSliderValues(panel);
      // the fields do not change during the rest of the run
      var vars, range, maxLen := filterVars, sliderRange, maxLength;

      if vars.dontShowSeen {
        historyController.PrepareMemoryCache();
      }

      var searchText := panel.searchText;
      var stream: seq<Film>;
      // the stream is the catalog sifted through the filters applied so far
      SiftKeepsAll(catalog, Source);

      if searchText == "" {
        stream := catalog;
      } else {
        match search
        case QueryError =>
          model := [];
          return;
        case Hits(ids) =>
          var filmNrSet := CollectFilmNumbers(ids);
          assert forall n :: n in filmNrSet <==> n in HitSet(search);
          assert filmNrSet == HitSet(search);
          stream := FilterStream(catalog, catalog, Source, true, InFilmNrs(filmNrSet));
      }

      stream := SelectionFilters(stream, catalog, panel, HitSet(search), vars);
      ghost var chain := SelectionChain(panel, HitSet(search));
      stream := ExclusionFilters(stream, catalog, chain, panel, vars);
      chain := ExclusionChain(chain, panel);
      if vars.dontShowSeen {
        // the seen filter consults the cache, which is prepared at this point
        assert forall f :: SeenCheck(f, historyController.seenUrls) <==> !historyController.HasBeenSeenFromCache(f);
      }
      stream := ContentFilters(stream, catalog, chain, panel, vars, range, maxLen, historyController.seenUrls);

      model := stream;

      if vars.dontShowSeen {
        historyController.EmptyMemoryCache();
      }
    }

    /** The table model for the current filter state: the whole list, without
        touching any state, when it is empty or no filter is set; the full
        pipeline otherwise.  Both paths give the result of the pipeline. */
    method GetFilteredTableModel(catalog: seq<Film>, panel: FilterPanel, search: SearchOutcome)
      returns (model: seq<Film>)
      modifies this, historyController
      ensures model == FilteredTableModel(catalog, panel, search, historyController.seenUrls)
      ensures model == FilteringResult(catalog, panel, search, historyController.seenUrls)
      ensures catalog == [] || NoFiltersAreSet(panel) ==>
                unchanged(this) && historyController.cacheOpen == old(historyController.cacheOpen)
      ensures catalog != [] && !NoFiltersAreSet(panel) ==>
                && filterVars == FilterVarsOf(panel) && maxLength == panel.highValue
                && sliderRange == SliderRangeOf(panel.lowValue, panel.highValue)
                && historyController.cacheOpen ==
                     if panel.showUnseenOnly then panel.searchText != "" && search.QueryError?
                     else old(historyController.cacheOpen)
    {
      TableModelIsFilteringResult(catalog, panel, search, historyController.seenUrls);
      if catalog != [] {
        if NoFiltersAreSet(panel) {
          model := catalog;
        } else {
          model := PerformTableFiltering(catalog, panel, search);
        }
      } else {
        return [];
      }
    }
  }
}
