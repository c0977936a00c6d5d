/** Python's `None`-or-value and raise-or-return, as values. */
module Wrappers {

  /** A value that may be Python's `None` (or, for a dictionary key, absent). */
  datatype Option<+T> = None | Some(value: T)

  /** The exceptions the modelled code raises or catches (DownloadError is yt-dlp's). */
  datatype Exception = KeyError | ValueError | TypeError | IndexError | RuntimeError | DownloadError

  /** The outcome of a Python call: it returns a value or raises. */
  datatype Outcome<+T> = Returns(value: T) | Raises(error: Exception)
}
