/** Optional values, results, and the Python exception kinds that the
    scraper's code can raise. */
module Wrappers {

  datatype Option<+T> = None | Some(value: T)

  /** The exceptions the modelled code raises, by their Python class. */
  datatype Error =
    | ValueError      // ConstructQueryURL with a non-string search URL; list.index miss
    | TypeError       // wrong argument types; ','.join over integers
    | KeyError(key: string)  // dict or markup-attribute lookup of a missing key
    | RuntimeError    // a set changed size while it was being iterated
    | NameError       // use of an undefined name
    | AttributeError  // reading a field that does not exist, or a field of None
    | NetworkError    // the transport failed for one request

  datatype Result<+T> = Ok(value: T) | Err(error: Error)
}
