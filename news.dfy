/**
 * The news feed: articles of one division, and the fixed label and logo tables
 * for the division keys the news feed uses.
 */
module News {
  import opened Wrappers
  import opened Filtering

  /** A record of the news feed. */
  datatype NewsArticle = NewsArticle(title: string, link: string, division: string, pubDate: Option<string>, img: string)

  /** `getNewsByDivision`: exactly the articles of `division`, in order. */
  function GetNewsByDivision(news: Option<seq<NewsArticle>>, division: string): (r: seq<NewsArticle>)
    ensures news.None? ==> r == []
    ensures news.Some? ==> Keeps(r, news.value, (a: NewsArticle) => a.division == division)
    ensures forall a :: a in r <==> news.Some? && a in news.value && a.division == division
  {
    match news
    case None => []
    case Some(all) => Filter(all, (a: NewsArticle) => a.division == division)
  }

  const DivisionLabels: map<string, string> := map[
    "1" := "NCAA Division I",
    "2" := "NCAA Division II",
    "3" := "NCAA Division III",
    "naia" := "NAIA",
    "njcaa" := "NJCAA",
    "3c2asports" := "CCCAA"]

  /** `labels[division] || division`: a missing or empty label falls back to the key itself. */
  function GetDivisionLabel(division: string): (r: string)
    ensures division in DivisionLabels ==> r == DivisionLabels[division]
    ensures division !in DivisionLabels ==> r == division
    ensures r != "" || division == ""
  {
    if division in DivisionLabels && DivisionLabels[division] != "" then DivisionLabels[division] else division
  }

  /** The six keys of the label table and their labels. */
  lemma KnownDivisionLabels()
    ensures GetDivisionLabel("1") == "NCAA Division I"
    ensures GetDivisionLabel("2") == "NCAA Division II"
    ensures GetDivisionLabel("3") == "NCAA Division III"
    ensures GetDivisionLabel("naia") == "NAIA"
    ensures GetDivisionLabel("njcaa") == "NJCAA"
    ensures GetDivisionLabel("3c2asports") == "CCCAA"
  {
  }

  /** The logo object of a division: an image address and a display width. */
  datatype Logo = Logo(url: string, width: int)

  const NcaaLogoUrl := "https://content.sportslogos.net/logos/85/5463/full/national_collegiate_athletic_association_logo_secondary_2021_sportslogosnet-4441.png"

  const DivisionLogos: map<string, Logo> := map[
    "1" := Logo(NcaaLogoUrl, 120),
    "2" := Logo(NcaaLogoUrl, 120),
    "3" := Logo(NcaaLogoUrl, 120),
    "naia" := Logo("https://naiastats.prestosports.com/assets/images/NAIA_Bridge_logo_whiteR.png", 120),
    "njcaa" := Logo("https://www.njcaa.org/images/setup/footer-logo-njcaa.png?max_width=auto&max_height=auto&crop=false", 120),
    "3c2asports" := Logo("https://www.cccaasports.org/assets/Alternative_Logo.png", 120)]

  /** The value `getDivisionLogo` falls back to for an unknown key. */
  const FallbackLogo := Logo("", 40)

  /** `logos[division] || { url: "", width: 40 }`: every table entry is an object, hence truthy. */
  function GetDivisionLogo(division: string): (r: Logo)
    ensures division in DivisionLogos ==> r == DivisionLogos[division] && r.width == 120 && r.url != ""
    ensures division !in DivisionLogos ==> r == FallbackLogo
    ensures r.width == 120 <==> division in DivisionLabels
  {
    if division in DivisionLogos then DivisionLogos[division] else FallbackLogo
  }
}
