# MediathekView film tab filter and film size, in Dafny

This project models two parts of MediathekView, the desktop client for the
media libraries of the German public broadcasters.

**The film tab filter.** `LuceneGuiFilmeModelHelper` turns the film list
(after the blacklist) and the state of the filter panel into the table model
of the film tab. `getFilteredTableModel` has two short cuts:

- an empty list gives an empty model;
- a panel with no filter set gives the whole list.

Otherwise `performTableFiltering` runs the full pipeline:

1. It copies the panel's toggles into its own fields.
2. It converts the length slider's positions from minutes to seconds.
3. It prepares the seen-history cache when seen films are hidden.
4. With a search text, it narrows the list to the film numbers the title index
   returns.
5. It reassigns a stream of films through up to fifteen `filter` calls, in a
   fixed order.
6. It collects the stream into the model and empties the cache again.

A query the parser rejects ends the run with an empty model.

**The film size.** `MVFilmSize` holds three fields:

- the size of a film in bytes;
- the bytes downloaded so far (-1 while no download runs);
- the text the tables show.

Sizes come from the film list as megabytes in text form. The text is the size
in whole megabytes, at least "1" for any positive size. While a download runs,
the text is "progress von total".

Modules:

- `Wrappers` (wrappers.dfy): the optional value.
- `Films` (films.dfy): the film record, the slider range, the per-film checks,
  and `String.equalsIgnoreCase`.
- `FilmFilter` (film_filter.dfy): the pipeline as functions.
  - A stream is a `Chain` of `filter` stages over the catalog.
  - `Sift` is the order-preserving filter that `collect(toList())` yields.
  - `Selected` is an independent, direct statement of "the film matches the
    panel".
  - The lemmas connect the two.
- `FilmeModelHelper` (filme_model_helper.dfy): the helper as a class.
  - Its fields are the toggles, `maxLength` and `sliderRange`.
  - A seen-history controller class holds the cache state.
  - The methods reassign the stream step by step. Each is proved to compute
    what `FilmFilter` specifies.
- `FilmSize` (film_size.dfy):
  - Java `long` arithmetic with wrap-around;
  - `Long.valueOf` and `String.valueOf` for decimal text;
  - `getGroesse`;
  - the `MVFilmSize` class with its setters.

## Model

| member | source | states |
|---|---|---|
| Films.EqualsIgnoreCaseIsUpperCaseEquality | src/main/java/mediathek/gui/tabs/tab_film/helpers/LuceneGuiFilmeModelHelper.java:174-176 | The topic comparison ignoring case holds exactly when the upper-case forms of the two topics are equal, in both directions. |
| Films.EqualsIgnoreCaseIsEquivalence | src/main/java/mediathek/gui/tabs/tab_film/helpers/LuceneGuiFilmeModelHelper.java:174-176 | Comparing topics ignoring case is reflexive, symmetric and transitive. |
| FilmFilter.HitSet | src/main/java/mediathek/gui/tabs/tab_film/helpers/LuceneGuiFilmeModelHelper.java:135-139 | The film-number set holds exactly the numbers of the hits; a rejected query hits nothing. |
| FilmFilter.GetFilterThema | src/main/java/mediathek/gui/tabs/tab_film/helpers/LuceneGuiFilmeModelHelper.java:59-66 | No topic selection reads as the empty topic; a selection reads as itself. |
| FilmFilter.FilterIfAdmits | src/main/java/mediathek/gui/tabs/tab_film/helpers/LuceneGuiFilmeModelHelper.java:147-182 | A conditional `filter` call lets a film through iff the upstream does and, when the toggle is on, the stage does too. |
| FilmFilter.SiftMembers | src/main/java/mediathek/gui/tabs/tab_film/helpers/LuceneGuiFilmeModelHelper.java:141-186 | A film is in the filtered stream iff it is in the list and passes every stage of the chain. |
| FilmFilter.SiftMultiplicity | src/main/java/mediathek/gui/tabs/tab_film/helpers/LuceneGuiFilmeModelHelper.java:141-186 | The filtered stream holds each film exactly as often as the list does when the chain lets it through, and not at all otherwise. |
| FilmFilter.SiftIsSubsequence | src/main/java/mediathek/gui/tabs/tab_film/helpers/LuceneGuiFilmeModelHelper.java:186 | The collected stream keeps the order of the list and adds nothing. |
| FilmFilter.SiftKeepsAll | src/main/java/mediathek/gui/tabs/tab_film/helpers/LuceneGuiFilmeModelHelper.java:120-122 | A chain every film of the list passes leaves the list unchanged, same order and length. |
| FilmFilter.AdmitsAllAppend | src/main/java/mediathek/gui/tabs/tab_film/helpers/LuceneGuiFilmeModelHelper.java:141-184 | Running one chain downstream of another lets a film through iff both chains do. |
| FilmFilter.SiftSift | src/main/java/mediathek/gui/tabs/tab_film/helpers/LuceneGuiFilmeModelHelper.java:141-184 | Filtering a filtered stream again is filtering once through the two chains joined. |
| FilmFilter.SiftFilter | src/main/java/mediathek/gui/tabs/tab_film/helpers/LuceneGuiFilmeModelHelper.java:151 | One more `stream = stream.filter(p)` on a filtered stream gives the list filtered through the chain one stage longer. |
| FilmFilter.SiftIdempotent | src/main/java/mediathek/gui/tabs/tab_film/helpers/LuceneGuiFilmeModelHelper.java:141-184 | Applying the same filters twice gives what applying them once gives. |
| FilmFilter.SiftConjunction | src/main/java/mediathek/gui/tabs/tab_film/helpers/LuceneGuiFilmeModelHelper.java:141-184 | Two chains together keep exactly the films each of them keeps. |
| FilmFilter.SelectionChainMeaning | src/main/java/mediathek/gui/tabs/tab_film/helpers/LuceneGuiFilmeModelHelper.java:141-158 | The search, channel, new, bookmark and livestream filters let a film through iff each active one holds of it; a channel filter only applies when a channel is checked. |
| FilmFilter.ExclusionChainMeaning | src/main/java/mediathek/gui/tabs/tab_film/helpers/LuceneGuiFilmeModelHelper.java:159-168 | The HQ, trailer, sign-language, audio-version and subscription filters let a film through iff each active one holds of it. |
| FilmFilter.ContentChainMeaning | src/main/java/mediathek/gui/tabs/tab_film/helpers/LuceneGuiFilmeModelHelper.java:169-228 | The subtitle, topic, maximum-length, seen and minimum-length filters let a film through iff each active one holds. The checks `subtitleCheck`, `maxLengthCheck`, `seenCheck` and `minLengthCheck` are stated on the film: a subtitle track or burned-in subtitles; a length strictly below the maximum, applied only below UNLIMITED_VALUE; a URL not in the seen cache; a length of 0 or at least the minimum, always applied. |
| FilmFilter.ActiveChainMeaning | src/main/java/mediathek/gui/tabs/tab_film/helpers/LuceneGuiFilmeModelHelper.java:141-184 | The whole chain of a run lets a film through iff the film matches the panel (`Selected`). |
| FilmFilter.FilteringResultMatches | src/main/java/mediathek/gui/tabs/tab_film/helpers/LuceneGuiFilmeModelHelper.java:107-208 | For every query the parser accepts, the result is an order-preserving sublist of the catalog holding exactly the catalog films that match every active criterion. Every copy of a matching catalog film is kept, and no copy of any other. |
| FilmFilter.SearchNarrows | src/main/java/mediathek/gui/tabs/tab_film/helpers/LuceneGuiFilmeModelHelper.java:120-143 | With a search text only films whose number was hit survive; a rejected query gives the empty model. |
| FilmFilter.UnknownLengthIgnoresMinimum | src/main/java/mediathek/gui/tabs/tab_film/helpers/LuceneGuiFilmeModelHelper.java:222-228 | Whatever the lower slider position, a film of length 0 is in the result or not alike. |
| FilmFilter.FastPathAgrees | src/main/java/mediathek/gui/tabs/tab_film/helpers/LuceneGuiFilmeModelHelper.java:68-84 | `FilmFilter.NoFiltersAreSet` holds exactly when no channel is checked, the topic and the search text are empty, the slider is at 0 .. UNLIMITED_VALUE and all ten toggles are off. Under it the full pipeline returns the whole catalog, so the short cut of getFilteredTableModel gives the same result. |
| FilmFilter.TableModelIsFilteringResult | src/main/java/mediathek/gui/tabs/tab_film/helpers/LuceneGuiFilmeModelHelper.java:235-251 | getFilteredTableModel and performTableFiltering give the same model on every input, the empty list included. |
| FilmeModelHelper.SeenHistoryController.PrepareMemoryCache | src/main/java/mediathek/gui/tabs/tab_film/helpers/LuceneGuiFilmeModelHelper.java:113-114 | After preparing, the cache is open. |
| FilmeModelHelper.SeenHistoryController.EmptyMemoryCache | src/main/java/mediathek/gui/tabs/tab_film/helpers/LuceneGuiFilmeModelHelper.java:196-197 | After emptying, the cache is closed. |
| FilmeModelHelper.CollectFilmNumbers | src/main/java/mediathek/gui/tabs/tab_film/helpers/LuceneGuiFilmeModelHelper.java:135-139 | The hit loop collects a set that holds exactly the film numbers of the hits. |
| FilmeModelHelper.FilterStream | src/main/java/mediathek/gui/tabs/tab_film/helpers/LuceneGuiFilmeModelHelper.java:147-151 | A conditional `stream = stream.filter(p)` on the catalog filtered through a chain gives the catalog filtered through that chain plus the stage, or the unchanged stream when the condition is off. |
| FilmeModelHelper.SelectionFilters | src/main/java/mediathek/gui/tabs/tab_film/helpers/LuceneGuiFilmeModelHelper.java:146-158 | The channel, new, bookmark and livestream steps turn the searched stream into the catalog filtered through the selection chain. |
| FilmeModelHelper.ExclusionFilters | src/main/java/mediathek/gui/tabs/tab_film/helpers/LuceneGuiFilmeModelHelper.java:159-168 | The HQ and "hide ..." steps extend the stream by the exclusion chain. |
| FilmeModelHelper.ContentFilters | src/main/java/mediathek/gui/tabs/tab_film/helpers/LuceneGuiFilmeModelHelper.java:169-184 | The subtitle, topic, maximum-length, seen and final minimum-length steps extend the stream by the content chain. |
| FilmeModelHelper.LuceneGuiFilmeModelHelper.constructor | src/main/java/mediathek/gui/tabs/tab_film/helpers/LuceneGuiFilmeModelHelper.java:51-57 | The helper keeps its seen-history controller; the toggle fields start false and the lengths at 0. |
| FilmeModelHelper.LuceneGuiFilmeModelHelper.UpdateFilterVars | src/main/java/mediathek/gui/tabs/tab_film/helpers/LuceneGuiFilmeModelHelper.java:86-97 | The toggle fields become the panel's toggles, hide-seen taken from "show unseen only"; nothing else changes. |
| FilmeModelHelper.LuceneGuiFilmeModelHelper.CalculateFilmLengthSliderValues | src/main/java/mediathek/gui/tabs/tab_film/helpers/LuceneGuiFilmeModelHelper.java:99-105 | maxLength becomes the upper slider position; the slider range becomes both positions times 60 seconds. |
| FilmeModelHelper.LuceneGuiFilmeModelHelper.PerformTableFiltering | src/main/java/mediathek/gui/tabs/tab_film/helpers/LuceneGuiFilmeModelHelper.java:107-220 | The model is the filtering result of the catalog under the panel. The seen filter asks `FilmeModelHelper.SeenHistoryController.HasBeenSeenFromCache`, which may only be called while the cache is open and reports whether the film's URL is in the seen set. The fields reflect the panel. With hide-seen on, the cache is open afterwards only when the query was rejected; otherwise its state is unchanged. |
| FilmeModelHelper.LuceneGuiFilmeModelHelper.GetFilteredTableModel | src/main/java/mediathek/gui/tabs/tab_film/helpers/LuceneGuiFilmeModelHelper.java:235-251 | The model is the table model of the catalog and also the filtering result. An empty list or an unfiltered panel touches no state; otherwise the state is as after a pipeline run. |
| FilmSize.WrapLong | src/mediathek/tool/MVFilmSize.java:81-84 | Wrap-around leaves every value inside the `long` range unchanged. |
| FilmSize.WrapLongShift | src/mediathek/tool/MVFilmSize.java:81-84 | Adding a multiple of 2^64 does not change the wrapped value. |
| FilmSize.WrapLongMultiply | src/mediathek/tool/MVFilmSize.java:52 | Two wrapping multiplications give the wrapped full product, so `v * 1000 * 1000` is v times a million, wrapped once. |
| FilmSize.NatToString | src/mediathek/tool/MVFilmSize.java:106 | The decimal text of a number is a non-empty digit string without leading zeros. |
| FilmSize.NatToStringValue | src/mediathek/tool/MVFilmSize.java:106 | The decimal text of n reads back as n. |
| FilmSize.ParseLong | src/mediathek/tool/MVFilmSize.java:50-57 | Only a non-empty text of digits, with at most a leading sign, is accepted; a bare "-" or "+" is rejected. A digit text, leading zeros included, is accepted with its decimal value exactly when that value fits a `long`; so is a "-" followed by digits, with the negated value. Out-of-range text is rejected. |
| FilmSize.LongToStringParses | src/mediathek/tool/MVFilmSize.java:51 | Every `long` parses back from its decimal text, negative values included. |
| FilmSize.SignedParse | src/mediathek/tool/MVFilmSize.java:51 | A leading "+" does not change the parsed value; a leading "-" negates it. |
| FilmSize.GetGroesse | src/mediathek/tool/MVFilmSize.java:102-111 | The text is empty exactly for sizes that are not positive; otherwise it is canonical decimal digits, with no sign and no leading zero, that read back as the whole megabytes, at least 1. |
| FilmSize.RenderedShape | src/mediathek/tool/MVFilmSize.java:90-100 | The text is empty iff there is no progress and the total is not positive. Without progress it is the total in megabytes. With progress it is the progress in megabytes, then " von " and the total. |
| FilmSize.CompareLongs | src/mediathek/tool/MVFilmSize.java:35 | The comparison is -1, 0 or 1 as the first size is smaller, equal or larger. |
| FilmSize.MVFilmSize.CompareTo | src/mediathek/tool/MVFilmSize.java:33-36 | Sizes compare by their total alone, as -1, 0 or 1. |
| FilmSize.CompareToIsTotalOrder | src/mediathek/tool/MVFilmSize.java:33-36 | The comparison is antisymmetric and transitive. |
| FilmSize.MVFilmSize.ToString | src/mediathek/tool/MVFilmSize.java:38-41 | The text form is the cached text. |
| FilmSize.MVFilmSize.constructor | src/mediathek/tool/MVFilmSize.java:26-31 | A new size has no progress (-1), total 0 and empty text. |
| FilmSize.MVFilmSize.SetString | src/mediathek/tool/MVFilmSize.java:90-100 | The text becomes the rendering of the progress and total; the sizes do not change. |
| FilmSize.MVFilmSize.SetSizeText | src/mediathek/tool/MVFilmSize.java:43-60 | Empty text clears everything. A number n sets the total to n megabytes, wrapped, and keeps the text as given. Any other text clears the total and the text. Only empty text touches the progress. |
| FilmSize.MVFilmSize.Reset | src/mediathek/tool/MVFilmSize.java:62-65 | Progress becomes -1, the total stays, and the text is re-rendered. |
| FilmSize.MVFilmSize.SetSize | src/mediathek/tool/MVFilmSize.java:67-70 | Only the total changes, and the text is re-rendered. |
| FilmSize.MVFilmSize.SetAktSize | src/mediathek/tool/MVFilmSize.java:76-79 | Only the progress changes, to the given value, and the text is re-rendered. |
| FilmSize.MVFilmSize.AddAktSize | src/mediathek/tool/MVFilmSize.java:81-84 | The progress grows by exactly the amount, wrapping like `long`; the text is re-rendered. |
| FilmSize.MegabytesFit | src/mediathek/tool/MVFilmSize.java:52 | Up to 9223372036854 megabytes, in either direction, the byte count is exact, with no wrap-around. |
| FilmSize.KeptTextMatchesRendering | src/mediathek/tool/MVFilmSize.java:50-53 | For a canonical positive megabyte count without progress, the text setSize(String) keeps is the text setString would render. |

## Left out

- The title-index search itself is not modelled: the Lucene directory, the analyzer, the `QueryParser` and the `IndexSearcher`.
  - A search is a parameter: the parsed "id" fields of the hits, or a query that is rejected.
  - The `catch (Exception)` branch is modelled for that rejection. Other exceptions, such as an index that cannot be read, are not modelled.
- `parallelStream` is modelled as a sequential filter. `collect(toList())` keeps encounter order, so the result is the same.
- The film list comes from the `Daten` singleton and is a parameter here. The result is a sequence of films, not a `TModelFilm`.
- The filter panel and the search field are a record read at the start of a run. In Swing they can change concurrently; that is not modelled.
- The following are I/O and are left out:
  - logging;
  - the `Stopwatch`;
  - the error dialog;
  - `Log.fehlerMeldung` in MVFilmSize.
- The slider positions are modelled as whole minutes. The `double`-to-`long` casts of the slider values are not modelled.
- `TimeUnit.SECONDS.convert` is modelled as multiplication by 60. Its saturation at the `long` bounds is not modelled.
- `FilmLengthSlider.UNLIMITED_VALUE` is a constant whose value is left open. Every property holds for any value.
- Film lengths are modelled as non-negative. FilmFilter.FastPathAgrees depends on this. In Java, a film with a negative length would be shown by the short cut of getFilteredTableModel but dropped by `minLengthCheck` with minimum 0. So for such a film the two paths would disagree.
- Of `SeenHistoryController`, only three things are modelled:
  - the set of seen URLs;
  - whether the in-memory cache is prepared;
  - the membership test.

  Its storage is not part of this model.
- FilmeModelHelper.LuceneGuiFilmeModelHelper: the ten boolean toggle fields are held in one record field, `filterVars`. Each field keeps the source's name and is assigned as in `updateFilterVars`.
- Films.EqualsIgnoreCase: case is folded for ASCII letters only. Java also folds non-ASCII letters.
- FilmSize.ParseLong: accepts ASCII digits only. `Long.valueOf` also accepts other Unicode decimal digits.
- The boxed `Long` field `sizeL` is never null in this model.
- The getters `getSize` and `getAktSize` are not modelled, because they only return a field.
- The helper's `sliderRange` is null until the first run; in this model it starts as the range 0 .. 0.
