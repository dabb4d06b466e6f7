/** The film records of the catalog and the per-film tests the filter pipeline
    of the film tab applies to them. */
module Films {

  /** One entry of the (blacklist-filtered) film list.  Only the attributes the
      filter pipeline reads are kept. */
  datatype Film = Film(
    filmNr: int,              // catalog-unique number, also stored as "id" in the title index
    sender: string,           // channel
    thema: string,            // topic
    filmLength: nat,          // duration in seconds, 0 = unknown
    isNew: bool,
    isBookmarked: bool,
    isLivestream: bool,
    isHighQuality: bool,
    isTrailerTeaser: bool,
    isSignLanguage: bool,
    isAudioVersion: bool,
    hasAbo: bool,             // getAbo() != null: a subscription matches this film
    hasSubtitle: bool,
    hasBurnedInSubtitles: bool,
    url: string               // identity key of the seen history
  )

  /** The length window of the slider, converted to seconds. */
  datatype SliderRange = SliderRange(minLengthInSeconds: int, maxLengthInSeconds: int)

  /** Minutes of the length slider to seconds (TimeUnit.SECONDS.convert from MINUTES). */
  function MinutesToSeconds(minutes: int): int
  {
    minutes * 60
  }

  function SliderRangeOf(lowMinutes: int, highMinutes: int): SliderRange
  {
    SliderRange(MinutesToSeconds(lowMinutes), MinutesToSeconds(highMinutes))
  }

  /** A film passes the subtitle filter when it has a subtitle track or
      burned-in subtitles. */
  predicate SubtitleCheck(film: Film)
  {
    film.hasSubtitle || film.hasBurnedInSubtitles
  }

  /** The maximum-length test is strict. */
  predicate MaxLengthCheck(film: Film, range: SliderRange)
  {
    film.filmLength < range.maxLengthInSeconds
  }

  /** Length 0 means "no length known"; such films always pass. */
  predicate MinLengthCheck(film: Film, range: SliderRange)
  {
    film.filmLength == 0 || film.filmLength >= range.minLengthInSeconds
  }

  /** A film passes the seen filter when its key is not in the (prepared) seen cache. */
  predicate SeenCheck(film: Film, seenCache: set<string>)
  {
    film.url !in seenCache
  }

  // ---------------------------------------------------------------------
  // String.equalsIgnoreCase, for the characters that have a case in ASCII.

  function ToUpper(c: char): (u: char)
    ensures 'a' <= c <= 'z' ==> 'A' <= u <= 'Z'
    ensures !('a' <= c <= 'z') ==> u == c
  {
    if 'a' <= c <= 'z' then (c as int - 32) as char else c
  }

  predicate CharEqualsIgnoreCase(a: char, b: char)
  {
    a == b || ToUpper(a) == ToUpper(b)
  }

  /** Java's String.equalsIgnoreCase: same length and pairwise equal up to case. */
  predicate EqualsIgnoreCase(a: string, b: string)
  {
    |a| == |b| && forall i :: 0 <= i < |a| ==> CharEqualsIgnoreCase(a[i], b[i])
  }

  /** The upper-case form of a string, the reference for case-insensitive comparison. */
  function UpperCase(s: string): (u: string)
    ensures |u| == |s|
    ensures forall i :: 0 <= i < |s| ==> u[i] == ToUpper(s[i])
  {
    if s == [] then [] else [ToUpper(s[0])] + UpperCase(s[1..])
  }

  /** Comparing ignoring case is comparing the upper-case forms. */
  lemma EqualsIgnoreCaseIsUpperCaseEquality(a: string, b: string)
    ensures EqualsIgnoreCase(a, b) <==> UpperCase(a) == UpperCase(b)
  {
    if UpperCase(a) == UpperCase(b) {
      assert |a| == |b|;
      forall i | 0 <= i < |a|
        ensures CharEqualsIgnoreCase(a[i], b[i])
      {
        assert UpperCase(a)[i] == UpperCase(b)[i];
      }
    }
    if EqualsIgnoreCase(a, b) {
      assert forall i :: 0 <= i < |a| ==> UpperCase(a)[i] == UpperCase(b)[i];
    }
  }

  lemma EqualsIgnoreCaseIsEquivalence(a: string, b: string, c: string)
    ensures EqualsIgnoreCase(a, a)
    ensures EqualsIgnoreCase(a, b) ==> EqualsIgnoreCase(b, a)
    ensures EqualsIgnoreCase(a, b) && EqualsIgnoreCase(b, c) ==> EqualsIgnoreCase(a, c)
  {
    EqualsIgnoreCaseIsUpperCaseEquality(a, b);
    EqualsIgnoreCaseIsUpperCaseEquality(b, c);
    EqualsIgnoreCaseIsUpperCaseEquality(a, c);
    EqualsIgnoreCaseIsUpperCaseEquality(a, a);
    EqualsIgnoreCaseIsUpperCaseEquality(b, a);
  }
}
