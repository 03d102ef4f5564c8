/** The library behaviour the pipeline depends on but does not implement:
    JSON decoding, the date parsers, and the Python exceptions that escape
    the pipeline's own handlers. Each library call is an oracle: a total
    function from its input to what the call returns (`None` when it raises
    one of the errors the caller catches). */
module External {
  import opened Common
  import opened Json

  /** Time zones the pipeline attaches or meets. */
  datatype Zone = Tokyo | Utc | FixedOffset(minutes: int)

  /** A `datetime`: an abstract point on the clock and an optional zone
      (`None` is a naive datetime). */
  datatype DateTime = DateTime(stamp: int, zone: Option<Zone>)

  predicate IsNaive(d: DateTime) { d.zone.None? }

  datatype Lib = Lib(
    /** `json.loads(text, strict=…)`; `None` when it raises `JSONDecodeError`. */
    jsonLoads: (string, bool) -> Option<Json>,
    /** `dateutil.parser.parse(text)`; `None` when it raises or returns `None`. */
    dateutilParse: string -> Option<DateTime>,
    /** `datetime.fromisoformat(text)`; `None` when it raises `ValueError`. */
    fromIsoFormat: string -> Option<DateTime>,
    /** `datetime.strptime(text, "%Y年%m月%d日 %H:%M")`: a naive stamp, or
        `None` when the text does not match the format. */
    strptimeMeta: string -> Option<int>
  )

  /** An exception that no handler of the pipeline catches: it aborts the
      request, and the uncommitted database session is discarded. */
  datatype PyError =
    | TypeError(detail: string)
    | AttributeError(detail: string)
    | ValueError(detail: string)
    | IntegrityError(detail: string)
}
