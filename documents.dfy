/** LangChain's `Document`: a text plus a metadata dictionary. Loaded source
    documents and the chunks split from them have this same shape. */
module Documents {

  /** Metadata values are kept as the text an f-string would render for them. */
  datatype Document = Document(pageContent: string, metadata: map<string, string>)

  /** `metadata.get(key, default)`. */
  function Get(metadata: map<string, string>, key: string, default: string): (v: string)
    ensures key in metadata ==> v == metadata[key]
    ensures key !in metadata ==> v == default
  {
    if key in metadata then metadata[key] else default
  }
}
