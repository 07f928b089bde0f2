/**
 * The page metadata helpers of `useVolleyballSeo`: title, description and keyword
 * string for a division page, the home page, a conference page and a team page.
 */
module Seo {
  import opened Wrappers

  /** The `{ title, description, keywords }` object every helper returns. */
  datatype SeoMeta = SeoMeta(title: string, description: string, keywords: string)

  /** `xs.join(sep)`. */
  function Join(xs: seq<string>, sep: string): (r: string)
    ensures xs == [] ==> r == ""
    ensures |xs| == 1 ==> r == xs[0]
  {
    if xs == [] then ""
    else if |xs| == 1 then xs[0]
    else xs[0] + sep + Join(xs[1..], sep)
  }

  /** `lists.flat()`: the lists one after another. */
  function Flatten(lists: seq<seq<string>>): seq<string>
  {
    if lists == [] then [] else lists[0] + Flatten(lists[1..])
  }

  /** The flattened list holds exactly the keywords of the lists, and is as long as all of them together. */
  lemma {:induction false} FlattenMembers(lists: seq<seq<string>>)
    ensures forall x :: x in Flatten(lists) <==> exists i :: 0 <= i < |lists| && x in lists[i]
    ensures forall i :: 0 <= i < |lists| ==> |lists[i]| <= |Flatten(lists)|
  {
    if lists != [] {
      FlattenMembers(lists[1..]);
      forall x ensures x in Flatten(lists) <==> exists i :: 0 <= i < |lists| && x in lists[i] {
        if x in lists[0] {
        } else if x in Flatten(lists[1..]) {
          var i :| 0 <= i < |lists[1..]| && x in lists[1..][i];
          assert x in lists[i + 1];
        }
      }
      forall i | 0 < i < |lists| ensures |lists[i]| <= |Flatten(lists)| {
        assert lists[1..][i - 1] == lists[i];
      }
    }
  }

  /** Joining two non-empty lists back to back puts one separator between their joins. */
  lemma {:induction false} JoinAppend(a: seq<string>, b: seq<string>, sep: string)
    requires a != [] && b != []
    ensures Join(a + b, sep) == Join(a, sep) + sep + Join(b, sep)
  {
    if |a| == 1 {
      assert (a + b)[1..] == b;
    } else {
      assert (a + b)[1..] == a[1..] + b;
      JoinAppend(a[1..], b, sep);
    }
  }

  /** Joining puts the separator after the first element when more follow. */
  lemma JoinCons(x: string, xs: seq<string>, sep: string)
    requires xs != []
    ensures Join([x] + xs, sep) == x + sep + Join(xs, sep)
  {
    assert ([x] + xs)[1..] == xs;
  }

  /** Five keywords joined by `", "` read left to right. */
  lemma JoinFive(a: string, b: string, c: string, d: string, e: string)
    ensures Join([a, b, c, d, e], ", ") == a + ", " + b + ", " + c + ", " + d + ", " + e
  {
    JoinCons(d, [e], ", ");
    JoinCons(c, [d, e], ", ");
    JoinCons(b, [c, d, e], ", ");
    JoinCons(a, [b, c, d, e], ", ");
  }

  /** Six keywords joined by `", "` read left to right. */
  lemma JoinSix(a: string, b: string, c: string, d: string, e: string, f: string)
    ensures Join([a, b, c, d, e, f], ", ") == a + ", " + b + ", " + c + ", " + d + ", " + e + ", " + f
  {
    JoinFive(b, c, d, e, f);
    JoinCons(a, [b, c, d, e, f], ", ");
  }

  /** Each list joined on its own. */
  function JoinEach(lists: seq<seq<string>>, sep: string): (r: seq<string>)
    ensures |r| == |lists|
    ensures forall i :: 0 <= i < |lists| ==> r[i] == Join(lists[i], sep)
  {
    if lists == [] then [] else [Join(lists[0], sep)] + JoinEach(lists[1..], sep)
  }

  /** Joining the flattened lists equals joining the joins of the lists, when no list is empty. */
  lemma {:induction false} JoinFlatten(lists: seq<seq<string>>, sep: string)
    requires forall i :: 0 <= i < |lists| ==> lists[i] != []
    ensures Join(Flatten(lists), sep) == Join(JoinEach(lists, sep), sep)
    ensures lists != [] ==> Flatten(lists) != []
  {
    if |lists| == 1 {
      assert Flatten(lists) == lists[0] + Flatten([]);
      assert lists[0] + [] == lists[0];
    } else if |lists| > 1 {
      JoinFlatten(lists[1..], sep);
      JoinAppend(lists[0], Flatten(lists[1..]), sep);
    }
  }

  /** The division keyword table of the source, in declaration order (the order of `Object.values`). */
  const DivisionKeywords: seq<(string, seq<string>)> := [
    ("D-I", ["NCAA Division I Women's Volleyball", "NCAA Division I Volleyball", "D1 Women's Volleyball",
             "D1 Volleyball", "NCAA DI Women's Volleyball", "NCAA DI Volleyball"]),
    ("D-II", ["NCAA Division II Women's Volleyball", "NCAA Division II Volleyball", "D2 Women's Volleyball",
              "D2 Volleyball", "NCAA DII Women's Volleyball", "NCAA DII Volleyball"]),
    ("D-III", ["NCAA Division III Women's Volleyball", "NCAA Division III Volleyball", "D3 Women's Volleyball",
               "D3 Volleyball", "NCAA DIII Women's Volleyball", "NCAA DIII Volleyball"]),
    ("NAIA", ["NAIA Women's Volleyball", "NAIA Volleyball", "NAIA College Volleyball"]),
    ("CCCAA", ["CCCAA Women's Volleyball", "CCCAA Volleyball", "California Community College Women's Volleyball",
               "California Community College Volleyball"]),
    ("NJCAA D-1", ["NJCAA Division I Women's Volleyball", "NJCAA Division I Volleyball",
                   "NJCAA DI Women's Volleyball", "NJCAA DI Volleyball"]),
    ("NJCAA D-2", ["NJCAA Division II Women's Volleyball", "NJCAA Division II Volleyball",
                   "NJCAA DII Women's Volleyball", "NJCAA DII Volleyball"]),
    ("NJCAA D-3", ["NJCAA Division III Women's Volleyball", "NJCAA Division III Volleyball",
                   "NJCAA DIII Women's Volleyball", "NJCAA DIII Volleyball"])]

  const BaseKeywords: seq<string> := [
    "Women's College Volleyball", "College Volleyball", "Girls College Volleyball", "College Volleyball Scores",
    "College Volleyball Schedule", "College Volleyball Teams", "Live College Volleyball"]

  const NewsKeywords: seq<string> := [
    "College Volleyball News", "NCAA Volleyball News", "NAIA Volleyball News", "NJCAA Volleyball News",
    "College Volleyball Updates", "Volleyball Rankings", "College Volleyball Power Rankings"]

  /** What a division page calls itself the source for when its division has no keywords. */
  const DefaultSubject := "college volleyball"

  /** The description of a division page naming `subject` as what the site covers. */
  function DivisionDescription(division: string, subject: string): string
  {
    "Complete " + division + " volleyball coverage including live scores, schedules, team stats, and standings. Your source for "
      + subject + "."
  }

  /** The fixed end of a conference page title. */
  const ConferenceTitleTail := "Volleyball - Teams, Scores & Schedule"

  /** The keyword list stored under `key` in `table`, first entry first. */
  function Lookup(table: seq<(string, seq<string>)>, key: string): (r: Option<seq<string>>)
    ensures r.None? <==> forall i :: 0 <= i < |table| ==> table[i].0 != key
  {
    if table == [] then None
    else if table[0].0 == key then Some(table[0].1)
    else Lookup(table[1..], key)
  }

  /** No key occurs twice in `table`. */
  ghost predicate DistinctKeys(table: seq<(string, seq<string>)>)
  {
    forall i, j :: 0 <= i < j < |table| ==> table[i].0 != table[j].0
  }

  /** In a table without repeated keys, each key finds its own list. */
  lemma {:induction false} LookupFindsEntry(table: seq<(string, seq<string>)>, i: nat)
    requires DistinctKeys(table) && i < |table|
    ensures Lookup(table, table[i].0) == Some(table[i].1)
  {
    if i > 0 {
      assert table[0].0 != table[i].0;
      assert table[1..][i - 1] == table[i];
      LookupFindsEntry(table[1..], i - 1);
    }
  }

  /** `Object.values(table)`. */
  function Values(table: seq<(string, seq<string>)>): (r: seq<seq<string>>)
    ensures |r| == |table|
    ensures forall i :: 0 <= i < |table| ==> r[i] == table[i].1
  {
    if table == [] then [] else [table[0].1] + Values(table[1..])
  }

  /**
   * What `useVolleyballSeo()` holds and returns: its division keyword table and its base
   * keywords, with the four page helpers over them.
   */
  datatype VolleyballSeo = VolleyballSeo(divisionKeywords: seq<(string, seq<string>)>, baseKeywords: seq<string>)
  {
    /** Every keyword list is non-empty and starts with a non-empty keyword, and no key repeats. */
    ghost predicate Valid()
    {
      && DistinctKeys(divisionKeywords)
      && baseKeywords != []
      && forall i :: 0 <= i < |divisionKeywords| ==> divisionKeywords[i].1 != [] && divisionKeywords[i].1[0] != ""
    }

    /** `divisionKeywords[division] || []`. */
    function KeywordsFor(division: string): (r: seq<string>)
      ensures (forall i :: 0 <= i < |divisionKeywords| ==> divisionKeywords[i].0 != division) ==> r == []
    {
      match Lookup(divisionKeywords, division)
      case Some(keywords) => keywords
      case None => []
    }

    /** `getDivisionSeo`; a division without keywords is described with `DefaultSubject`. */
    function GetDivisionSeo(division: string): (r: SeoMeta)
      ensures r.title == division + " Volleyball - Scores, Schedule & Teams"
    {
      var keywords := KeywordsFor(division);
      SeoMeta(
        division + " Volleyball - Scores, Schedule & Teams",
        DivisionDescription(division, if |keywords| > 0 && keywords[0] != "" then keywords[0] else DefaultSubject),
        Join(keywords + baseKeywords, ", "))
    }

    /** A division in the table: its own keywords come first, then the base keywords, and its first keyword is the subject. */
    lemma DivisionSeoKnown(i: nat)
      requires Valid() && i < |divisionKeywords|
      ensures GetDivisionSeo(divisionKeywords[i].0).keywords
           == Join(divisionKeywords[i].1, ", ") + ", " + Join(baseKeywords, ", ")
      ensures GetDivisionSeo(divisionKeywords[i].0).description
           == DivisionDescription(divisionKeywords[i].0, divisionKeywords[i].1[0])
    {
      LookupFindsEntry(divisionKeywords, i);
      JoinAppend(divisionKeywords[i].1, baseKeywords, ", ");
    }

    /** A division not in the table: only the base keywords, and the default subject. */
    lemma DivisionSeoUnknown(division: string)
      requires forall i :: 0 <= i < |divisionKeywords| ==> divisionKeywords[i].0 != division
      ensures GetDivisionSeo(division).keywords == Join(baseKeywords, ", ")
      ensures GetDivisionSeo(division).description == DivisionDescription(division, DefaultSubject)
    {
      assert KeywordsFor(division) + baseKeywords == baseKeywords;
    }

    /** `getHomeSeo`. */
    function GetHomeSeo(): (r: SeoMeta)
      ensures Valid() ==>
        r.keywords == Join(JoinEach(Values(divisionKeywords), ", ") + [Join(baseKeywords, ", "), Join(NewsKeywords, ", ")], ", ")
    {
      var all := Flatten(Values(divisionKeywords));
      assert Valid() ==>
        Join(all + baseKeywords + NewsKeywords, ", ")
          == Join(JoinEach(Values(divisionKeywords), ", ") + [Join(baseKeywords, ", "), Join(NewsKeywords, ", ")], ", ") by {
        if Valid() {
          HomeKeywordsSegments(Values(divisionKeywords), baseKeywords, NewsKeywords);
        }
      }
      SeoMeta(
        "College Volleyball Database - NCAA, NAIA, NJCAA & CCCAA Scores & News",
        "Your complete source for college volleyball scores, schedules, team information, and latest news across NCAA D-I, D-II, D-III, NAIA, NJCAA, and CCCAA divisions.",
        Join(all + baseKeywords + NewsKeywords, ", "))
    }

    /** `getConferenceSeo`; `division` is the optional second argument. */
    function GetConferenceSeo(conference: string, division: Option<string>): (r: SeoMeta)
      ensures !Truthy(division) ==>
        && r.title == conference + " " + ConferenceTitleTail
        && r.description == "Complete " + conference + " " + "volleyball coverage including teams, scores, schedules, and standings. Your source for " + conference + " volleyball."
      ensures Truthy(division) ==>
        r.title == conference + " " + division.value + " " + ConferenceTitleTail
    {
      var divisionText := if Truthy(division) then division.value + " " else "";
      var c := conference;
      SeoMeta(
        conference + " " + divisionText + ConferenceTitleTail,
        "Complete " + conference + " " + divisionText + "volleyball coverage including teams, scores, schedules, and standings. Your source for " + conference + " volleyball.",
        c + ", " + (c + " volleyball") + ", " + (c + " women's volleyball") + ", " + (c + " teams") + ", "
          + (c + " scores") + ", " + (c + " schedule"))
    }

    /** The conference keywords are six keywords built from the conference name, joined by `", "`. */
    lemma ConferenceSeoKeywords(conference: string, division: Option<string>)
      ensures GetConferenceSeo(conference, division).keywords
           == Join([conference, conference + " volleyball", conference + " women's volleyball",
                    conference + " teams", conference + " scores", conference + " schedule"], ", ")
    {
      var c := conference;
      JoinSix(c, c + " volleyball", c + " women's volleyball", c + " teams", c + " scores", c + " schedule");
    }

    /** `getTeamSeo`. */
    function GetTeamSeo(teamName: string, division: string, conference: string): (r: SeoMeta)
      ensures r.keywords == Join([teamName, teamName + " volleyball", teamName + " women's volleyball", division, conference], ", ")
      ensures teamName <= r.title && teamName <= r.description && teamName <= r.keywords
    {
      var t := teamName;
      JoinFive(t, t + " volleyball", t + " women's volleyball", division, conference);
      SeoMeta(
        teamName + " Volleyball - " + division + " " + conference,
        teamName + " volleyball team information, roster, schedule, and scores. Member of " + conference + " in " + division + ".",
        t + ", " + (t + " volleyball") + ", " + (t + " women's volleyball") + ", " + division + ", " + conference)
    }
  }

  /** The home page keywords: each division's keywords joined, in table order, then the base and news keywords. */
  lemma HomeKeywordsSegments(lists: seq<seq<string>>, base: seq<string>, news: seq<string>)
    requires forall i :: 0 <= i < |lists| ==> lists[i] != []
    requires base != [] && news != []
    ensures Join(Flatten(lists) + base + news, ", ")
         == Join(JoinEach(lists, ", ") + [Join(base, ", "), Join(news, ", ")], ", ")
  {
    var tail := [Join(base, ", "), Join(news, ", ")];
    var each := JoinEach(lists, ", ");
    TwoSegments(base, news);
    assert Flatten(lists) + base + news == Flatten(lists) + (base + news);
    if lists == [] {
      assert Flatten(lists) + (base + news) == base + news;
      assert each + tail == tail;
    } else {
      JoinFlatten(lists, ", ");
      LeadingSegments(Flatten(lists), base + news, each, tail);
    }
  }

  /** Two non-empty keyword lists back to back join like their two joins. */
  lemma TwoSegments(a: seq<string>, b: seq<string>)
    requires a != [] && b != []
    ensures Join(a + b, ", ") == Join([Join(a, ", "), Join(b, ", ")], ", ")
  {
    JoinAppend(a, b, ", ");
    JoinCons(Join(a, ", "), [Join(b, ", ")], ", ");
  }

  /** Joins that agree on two prefixes and two suffixes agree on the concatenations. */
  lemma LeadingSegments(a: seq<string>, b: seq<string>, c: seq<string>, d: seq<string>)
    requires a != [] && b != [] && c != [] && d != []
    requires Join(a, ", ") == Join(c, ", ") && Join(b, ", ") == Join(d, ", ")
    ensures Join(a + b, ", ") == Join(c + d, ", ")
  {
    JoinAppend(a, b, ", ");
    JoinAppend(c, d, ", ");
  }

  /** The helper as the source builds it. */
  const SourceSeo := VolleyballSeo(DivisionKeywords, BaseKeywords)

  /** The source's tables meet `Valid`, so the division and home contracts above apply to them. */
  lemma SourceSeoValid()
    ensures SourceSeo.Valid()
  {
  }
}
