/** The regular expressions of the retrieval and synthesis parsers that are not written out in
    this model. Each stands for the result of one `match`/`split` call on the text it is given
    (`None` when the pattern does not match); they are parameters, so every property proved
    about the parsers holds whatever these patterns return. */
module Patterns {
  import opened Wrappers

  datatype Matchers = Matchers(
    /** `/\$[\d.]+\s*(billion|million|B|M)/i`, whole match. */
    marketSize: string -> Option<string>,
    /** `/(\d+(?:\.\d+)?)\s*%\s*(?:CAGR|growth|annually)/i`, the number. */
    growthRate: string -> Option<string>,
    /** `/(?:trend|development|shift)[s]?[:\s]+([^\n]+)/gi`, all whole matches in order. */
    trendMatches: string -> seq<string>,
    /** `/(?:recent|2024|2025|January|February)[^\n.]+[.]/gi`, all whole matches in order. */
    newsMatches: string -> seq<string>,
    /** `split(/(?:\d+\.|#{1,3}|\*\*[^*]+\*\*)/)`: the competitor sections. */
    competitorSections: string -> seq<string>,
    /** The company name group at the start of a competitor section. */
    competitorName: string -> Option<string>,
    /** `/\$[\d.]+\s*(?:billion|million|B|M)/i`, whole match. */
    funding: string -> Option<string>,
    /** `/https?:\/\/[^\s)]+/`, whole match. */
    website: string -> Option<string>,
    /** `/(?:is|provides|offers|builds)\s+([^.]+)/i`, the description group. */
    competitorDescription: string -> Option<string>,
    /** `.{0,100}<pattern>.{0,200}` for the regulation table row with the given name. */
    regulationContext: (string, string) -> string,
    /** The compliance-cost pattern, whole match. */
    costToken: string -> Option<string>,
    /** `split(/(?:\d+\.|#{1,3}\s)/)`: the failure-mode sections. */
    failureSections: string -> seq<string>,
    /** `/\*\*([^*]+)\*\*|^([A-Z][^:\n]+)/`, whichever group matched. */
    failureName: string -> Option<string>,
    /** `/(\d+)\s*%/`, the digits read by `parseInt`. */
    percent: string -> Option<nat>,
    /** `/(\d+[-\u2013]\d+\s*(?:months?|years?))/i`, the group. */
    timeframe: string -> Option<string>)
}
