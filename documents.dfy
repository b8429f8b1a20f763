/** Values shared by the upload page and the chat page. */
module Documents {

  /** Python's `None`-or-value, as a datatype. */
  datatype Option<+T> = None | Some(value: T)

  /**
   * A LangChain `Document`: the text of one page or chunk plus its metadata
   * dictionary. Each metadata value is held as the text that Python's `str()`
   * gives for it, which is what an f-string interpolates.
   */
  datatype Document = Document(pageContent: string, metadata: map<string, string>)

  /** `dict.get(key, default)`. */
  function Get(m: map<string, string>, key: string, default: string): string
  {
    if key in m then m[key] else default
  }

  /** `s.startswith(prefix)`. */
  predicate HasPrefix(s: string, prefix: string)
  {
    |prefix| <= |s| && s[..|prefix|] == prefix
  }
}
