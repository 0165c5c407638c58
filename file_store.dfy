/** The local file system as the pipeline uses it: JSON documents written with
    `write_file_to_local`, and the replies of `read_file_from_local`. */
module FileStore {
  import opened PyJson

  /** The reply of `read_file_from_local(path)`: `{"content": text}` when the
      file could be read as UTF-8 text, `{"error": message}` otherwise. */
  datatype ReadReply = ReadOk(content: string) | ReadErr(message: string)

  /** The documents the pipeline has written, by path. A write replaces what was
      at the path, so writing the same document twice leaves one copy. */
  class Store {
    var docs: map<string, Json>

    constructor (initial: map<string, Json>)
      ensures docs == initial
    {
      docs := initial;
    }

    /** `write_file_to_local(path, json.dumps(doc))`. */
    method Write(path: string, doc: Json)
      modifies this
      ensures docs == old(docs)[path := doc]
    {
      docs := docs[path := doc];
    }
  }

  /** The effect of a sequence of writes, applied in order. */
  function ApplyWrites(docs: map<string, Json>, writes: seq<(string, Json)>): (r: map<string, Json>)
    ensures r.Keys == docs.Keys + set w | w in writes :: w.0
    decreases |writes|
  {
    if writes == [] then docs
    else ApplyWrites(docs[writes[0].0 := writes[0].1], writes[1..])
  }

  /** Writing the same document twice to the same path is the same as writing
      it once: the artifact is overwritten, never duplicated. */
  lemma WriteTwiceOverwrites(docs: map<string, Json>, path: string, doc: Json)
    ensures ApplyWrites(docs, [(path, doc), (path, doc)]) == ApplyWrites(docs, [(path, doc)])
    ensures ApplyWrites(docs, [(path, doc)])[path] == doc
  {
    assert [(path, doc), (path, doc)][1..] == [(path, doc)];
    assert [(path, doc)][1..] == [];
    assert docs[path := doc][path := doc] == docs[path := doc];
  }

  /** Writes split at any point compose. */
  lemma {:induction false} ApplyWritesAppend(docs: map<string, Json>, a: seq<(string, Json)>, b: seq<(string, Json)>)
    ensures ApplyWrites(docs, a + b) == ApplyWrites(ApplyWrites(docs, a), b)
    decreases |a|
  {
    if a == [] {
      assert a + b == b;
    } else {
      assert (a + b)[0] == a[0];
      assert (a + b)[1..] == a[1..] + b;
      var next := docs[a[0].0 := a[0].1];
      ApplyWritesAppend(next, a[1..], b);
      assert ApplyWrites(docs, a + b) == ApplyWrites(next, a[1..] + b);
      assert ApplyWrites(docs, a) == ApplyWrites(next, a[1..]);
    }
  }

  /** A path no write names keeps what it held, and stays absent if it was. */
  lemma {:induction false} UntouchedPath(docs: map<string, Json>, writes: seq<(string, Json)>, path: string)
    requires forall k :: 0 <= k < |writes| ==> writes[k].0 != path
    ensures path in ApplyWrites(docs, writes) <==> path in docs
    ensures path in docs ==> ApplyWrites(docs, writes)[path] == docs[path]
    decreases |writes|
  {
    if writes != [] {
      var next := docs[writes[0].0 := writes[0].1];
      assert forall k :: 0 <= k < |writes[1..]| ==> writes[1..][k] == writes[k + 1];
      UntouchedPath(next, writes[1..], path);
    }
  }
}
