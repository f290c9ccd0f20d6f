/** The `{ data, timings }` object both crawl strategies resolve with
    (src/services/staticCrawler.js, src/services/dynamicCrawler.js). */
module Crawled {
  import opened Errors
  import opened OgExtractor

  datatype Crawled = Crawled(data: OgData, timings: Timings)
}
