/**
  The stored records the core reads and writes: ads with the category and
  company they are joined with, per-day metrics rows and impressions.
*/
module Entities {
  import opened Common

  /** Campaign status; archived is terminal for the campaign card's own buttons. */
  datatype AdStatus = Active | Paused | Archived

  /** The status as the API and the filters spell it. */
  function StatusName(s: AdStatus): (r: string)
    ensures r != "all"
  {
    match s
    case Active => "active"
    case Paused => "paused"
    case Archived => "archived"
  }

  /**
    An ad as `findMany({ include: { company: true, category: true } })` returns it:
    its own columns plus the names and slug of its category and the name of its company.
  */
  datatype Ad = Ad(
    id: string,
    headline: string,
    ctaText: string,
    ctaUrl: string,
    imageUrl: string,
    status: AdStatus,
    budget: Option<real>,
    spendCap: Option<real>,
    startDate: Option<Time>,
    endDate: Option<Time>,
    categoryId: string,
    categoryName: string,
    categorySlug: string,
    companyId: string,
    companyName: string)

  /** One metrics row; the store keys rows by `(adId, date)`, `date` being a day's midnight. */
  datatype AdMetrics = AdMetrics(
    adId: string,
    date: Time,
    impressions: nat,
    clicks: nat,
    ctr: real,
    spend: real)

  /** One shown ad. `timestamp` is set at creation and never changed. */
  datatype Impression = Impression(
    id: string,
    adId: string,
    question: string,
    timestamp: Time,
    clicked: bool,
    sessionId: Option<string>,
    userId: Option<string>)

  /** An impression joined with its ad's company and category, as the report queries include them. */
  datatype JoinedImpression = JoinedImpression(
    imp: Impression,
    companyId: string,
    companyName: string,
    categoryId: string,
    categoryName: string)
}
