/**
 * The values that flow through the pipeline: data points before and after
 * `format_data`, HTTP replies, and an adapter's view of its data folder.
 * Every share is an integer number of hundredths of a percent.
 */
module Points {
  import opened Wrappers

  /**
   * A value in a point's `details` dictionary: a share in hundredths of a
   * percent, a plain count (respondents), or text.
   */
  datatype Detail = Num(n: int) | Count(count: int) | Label(s: string)

  type Details = map<string, Detail>

  /**
   * A point as an adapter builds it, before `format_data`: each key of the
   * Python dictionary may be present or absent.
   */
  datatype RawPoint = RawPoint(
    date: Option<string>,
    linux: Option<int>,
    windows: Option<int>,
    mac: Option<int>,
    chromeos: Option<int>,
    other: Option<int>,
    details: Option<Details>)

  /** A point carrying a date, the Linux share and details; the other shares are absent. */
  function LinuxPoint(date: string, linux: int, details: Details): (p: RawPoint)
    ensures p.date == Some(date) && p.linux == Some(linux) && p.details == Some(details)
  {
    RawPoint(Some(date), Some(linux), None, None, None, None, Some(details))
  }

  /**
   * A point as `format_data` emits it and the storage keeps it.  The store
   * reads only `source` and `date` (either may be missing from a stored
   * dictionary); `linux` and `details` are carried along.
   */
  datatype Point = Point(source: Option<string>, date: Option<string>, linux: int, details: Details)

  /** The outcome of one `requests.get`: a status and the decoded body, or an exception. */
  datatype Reply<B> = Response(status: int, body: B) | ConnectionError

  /** An adapter's own data folder (`data/<source>`): file name to size in bytes. */
  type Listing = map<string, nat>
}
