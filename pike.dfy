/**
 * The part of an opened PDF document that the secure and compress
 * services touch: its XMP metadata, edited in place inside
 * `with pdf.open_metadata() as meta:`.  Pages, streams and the saved
 * bytes belong to the PDF library and are not modelled.
 */
module PikePdf {
  /** An opened document.  `metadataLocked` stands for `open_metadata` raising. */
  class Document {
    var metadata: map<string, string>
    const metadataLocked: bool

    constructor(metadata: map<string, string>, metadataLocked: bool)
      ensures this.metadata == metadata && this.metadataLocked == metadataLocked
    {
      this.metadata := metadata;
      this.metadataLocked := metadataLocked;
    }

    /**
     * One `with pdf.open_metadata() as meta:` block running `edit`: the
     * metadata is replaced by the edited one, or, when opening it raises,
     * left as it was and the error reported.
     */
    method EditMetadata(edit: map<string, string> -> map<string, string>) returns (raised: bool)
      modifies this
      ensures raised == metadataLocked
      ensures metadata == if raised then old(metadata) else edit(old(metadata))
    {
      if metadataLocked {
        return true;
      }
      metadata := edit(metadata);
      raised := false;
    }
  }
}
