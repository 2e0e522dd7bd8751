/**
 * `BsonOptionalExtension` merges one document into another in place. A Go map
 * is a reference, so a document is an object whose `fields` the merge
 * reassigns; the caller sees the change through its own reference.
 */
module BsonUtils {
  import opened Bson

  class Document {
    var fields: map<string, Value>

    constructor (fields: map<string, Value>)
      ensures this.fields == fields
    {
      this.fields := fields;
    }
  }

  /**
   * The fields after the merge: unchanged when `extend` is false; otherwise
   * every key of `extension` takes the extension's value and the other keys
   * of `orig` keep theirs.
   */
  function Extended(extend: bool, orig: map<string, Value>, extension: map<string, Value>): (r: map<string, Value>)
    ensures !extend ==> r == orig
    ensures extend ==> r.Keys == orig.Keys + extension.Keys
    ensures extend ==> forall k :: k in extension ==> r[k] == extension[k]
    ensures extend ==> forall k :: k in orig && k !in extension ==> r[k] == orig[k]
  {
    if extend then orig + extension else orig
  }

  /** Merging the same extension a second time changes nothing more. */
  lemma ExtendedIdempotent(extend: bool, orig: map<string, Value>, extension: map<string, Value>)
    ensures Extended(extend, Extended(extend, orig, extension), extension) == Extended(extend, orig, extension)
  {
  }

  /**
   * Writes every pair of `extension` into `orig` when `extend` holds and returns
   * `orig` itself. `extension` may even be the same document as `orig`.
   */
  method BsonOptionalExtension(extend: bool, orig: Document, extension: Document) returns (r: Document)
    modifies orig
    ensures r == orig
    ensures orig.fields == Extended(extend, old(orig.fields), old(extension.fields))
    ensures extension.fields == old(extension.fields)
  {
    if extend {
      var ext := extension.fields;
      var todo := ext.Keys;
      while todo != {}
        invariant todo <= ext.Keys
        invariant orig.fields == old(orig.fields) + (map k | k in ext.Keys - todo :: ext[k])
        invariant extension.fields == ext
        decreases todo
      {
        var k :| k in todo;
        orig.fields := orig.fields[k := ext[k]];
        todo := todo - {k};
      }
      assert (map k | k in ext.Keys - todo :: ext[k]) == ext;
    }
    return orig;
  }
}
