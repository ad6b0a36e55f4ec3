/**
 * Key escaping. The url package that does the percent-escaping is foreign
 * code; it is supplied from outside as plain functions and only the
 * post-processing the agent adds on top of it is modelled.
 */
module Escaping {
  import opened Text

  /** `url.Unescape`'s two results: the text it returns and whether it returned no error. */
  datatype Unescaped = Unescaped(text: string, ok: bool)

  /** The foreign url package and request signer. */
  datatype UrlPackage = UrlPackage(
    escape: string -> string,
    unescape: string -> Unescaped,
    sign: string -> string)

  /**
   * `editLog.escape`: `url.Escape`, then every `:` forced to `%3A`, so that an
   * escaped key never holds the separator of the key ledger.
   */
  function Escape(url: UrlPackage, text: string): (r: string)
    ensures ':' !in r
  {
    ReplaceAll(url.escape(text), ':', "%3A")
  }
}
