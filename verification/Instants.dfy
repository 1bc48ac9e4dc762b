// Spans of time in milliseconds.

module Instants {
  const MINUTE_MS := 60000
  const HOUR_MS := 3600000
  const WEEK_MS := 7 * 24 * 3600000
}
