/** The "Book now" button of client/src/components/LocationDetailModal.jsx:
    the slug taken from the location (or made from its name), the booking
    path built from it, and the order of the two effects. */
module LocationDetail {
  import opened Wrappers
  import opened Text
  import BookingPage

  /** The fields of a location card the button reads. */
  datatype Location = Location(name: string, slug: string)

  /** Drops a leading run of white space. */
  function DropSpaces(s: string): (r: string)
    ensures |r| <= |s| && r == s[|s| - |r|..]
    ensures r == [] || !IsSpace(r[0])
    ensures forall i :: 0 <= i < |s| - |r| ==> IsSpace(s[i])
  {
    if s != [] && IsSpace(s[0]) then DropSpaces(s[1..]) else s
  }

  /** `.replace(/\s+/g, '-')`: every maximal run of white space becomes a
      single `-`; every other character is kept. */
  function DashRuns(s: string): (r: string)
    ensures NoSpace(r)
    ensures |r| <= |s|
    ensures forall i :: 0 <= i < |r| ==> r[i] == '-' || r[i] in s
    decreases |s|
  {
    if s == [] then []
    else if IsSpace(s[0]) then
      var rest := DropSpaces(s[1..]);
      var t := DashRuns(rest);
      assert forall c :: c in rest ==> c in s by {
        assert rest == s[|s| - |rest|..];
      }
      "-" + t
    else
      [s[0]] + DashRuns(s[1..])
  }

  /** A string without white space is left as it is. */
  lemma {:induction false} DashRunsKeepsWords(s: string)
    requires NoSpace(s)
    ensures DashRuns(s) == s
  {
    if s != [] {
      assert !IsSpace(s[0]);
      DashRunsKeepsWords(s[1..]);
    }
  }

  /** Dropping a run of white space in front of a word leaves the word. */
  lemma {:induction false} DropSpacesBeforeWord(run: string, word: string)
    requires Blank(run)
    requires word == [] || !IsSpace(word[0])
    ensures DropSpaces(run + word) == word
  {
    if run != [] {
      assert (run + word)[1..] == run[1..] + word;
      DropSpacesBeforeWord(run[1..], word);
    } else {
      assert run + word == word;
    }
  }

  /** Two words around one run of white space, however long, are joined by
      exactly one `-`. */
  lemma {:induction false} RunBecomesOneDash(first: string, run: string, second: string)
    requires NoSpace(first) && NoSpace(second)
    requires run != [] && Blank(run)
    ensures DashRuns(first + run + second) == first + "-" + second
  {
    var s := first + run + second;
    if first == [] {
      assert s == run + second;
      assert s[1..] == run[1..] + second;
      DropSpacesBeforeWord(run[1..], second);
      DashRunsKeepsWords(second);
    } else {
      assert s[0] == first[0] && !IsSpace(s[0]);
      assert s[1..] == first[1..] + run + second;
      RunBecomesOneDash(first[1..], run, second);
    }
  }

  /** The fallback slug: the name lower-cased, runs of white space made
      into dashes. */
  function Slugify(name: string): (slug: string)
    ensures NoSpace(slug)
    ensures forall i :: 0 <= i < |slug| ==> IsLowerChar(slug[i])
  {
    var lowered := Lower(name);
    var slug := DashRuns(lowered);
    assert forall i :: 0 <= i < |slug| ==> slug[i] == '-' || slug[i] in lowered;
    slug
  }

  /** Slugging a slug changes nothing. */
  lemma SlugifyIdempotent(name: string)
    ensures Slugify(Slugify(name)) == Slugify(name)
  {
    var slug := Slugify(name);
    assert Lower(slug) == slug;
    DashRunsKeepsWords(slug);
  }

  /** `location.slug || <fallback>`: a set slug is used verbatim. */
  function SlugFor(location: Location): (slug: string)
    ensures location.slug != "" ==> slug == location.slug
    ensures location.slug == "" ==> NoSpace(slug) && slug == Slugify(location.name)
  {
    if location.slug != "" then location.slug else Slugify(location.name)
  }

  const BookPrefix := "/book/"

  function TargetPath(location: Location): (path: string)
    ensures |path| >= |BookPrefix| && path[..|BookPrefix|] == BookPrefix
    ensures path[|BookPrefix|..] == SlugFor(location)
  {
    BookPrefix + SlugFor(location)
  }

  /** What the button does, in order. */
  datatype Effect = Close | Navigate(path: string)

  /** `handleBookNow`: the modal is closed first, then the booking page is
      opened. */
  function HandleBookNow(location: Location): (effects: seq<Effect>)
    ensures |effects| == 2 && effects[0] == Close && effects[1].Navigate?
    ensures effects[1].path == BookPrefix + SlugFor(location)
  {
    [Close, Navigate(TargetPath(location))]
  }

  /** The two cards of the landing page's location list. */
  const Tagpopongan := Location("Golden - Tagpopongan", "Tagpopongan")
  const Calinan := Location("Goldies - Calinan", "calinan")

  /** The link a landing-page card carries: `/book/` and the card's slug
      as it is, with no fallback. */
  function CardLink(location: Location): (link: string)
    ensures |link| == |BookPrefix| + |location.slug|
    ensures link[..|BookPrefix|] == BookPrefix && link[|BookPrefix|..] == location.slug
  {
    BookPrefix + location.slug
  }

  /** The landing-page cards link to `/book/<slug>` themselves; since both
      carry a slug, that is the path "Book now" would open for them too, and
      the booking page finds the card's location from it: the capitalised
      `Tagpopongan` slug is lower-cased by the page. */
  lemma {:induction false} BookNowReachesBookingPage()
    ensures CardLink(Tagpopongan) == HandleBookNow(Tagpopongan)[1].path
    ensures CardLink(Calinan) == HandleBookNow(Calinan)[1].path
    ensures BookingPage.LookupSlug(Some(CardLink(Tagpopongan)[6..]))
         == Some(BookingPage.AllLocationsData["tagpopongan"])
    ensures BookingPage.LookupSlug(Some(CardLink(Calinan)[6..]))
         == Some(BookingPage.AllLocationsData["calinan"])
  {
    assert Lower("Tagpopongan") == "tagpopongan";
    assert Lower("calinan") == "calinan";
  }
}
