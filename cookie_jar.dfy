// The cookie store that `fetch` reads from and writes to. Cookie matching itself
// (domains, paths, expiry) belongs to the cookie library and is a parameter here.

module CookieJar {
  import opened Url

  /** One `setCookie(raw, url, { ignoreError })` call. */
  datatype StoredCookie = StoredCookie(raw: string, url: Ref, ignoreError: bool)

  class Jar {
    /** Every cookie handed to the jar, oldest first. */
    var stored: seq<StoredCookie>
    /** `getCookieString(url)` as a function of what was stored. */
    const lookup: (seq<StoredCookie>, Ref) -> string

    constructor (lookup: (seq<StoredCookie>, Ref) -> string)
      ensures stored == [] && this.lookup == lookup
    {
      stored := [];
      this.lookup := lookup;
    }

    method SetCookie(c: StoredCookie)
      modifies this
      ensures stored == old(stored) + [c]
    {
      stored := stored + [c];
    }
  }
}
