/**
 * The change-feed data model of the driver package: one change entry and the
 * `ChangedRevs` list of leaf revisions, together with the decoder that turns
 * the entry's "changes" field (a JSON array of `{"rev": ...}` records) into
 * a flat, ordered list of revision strings.
 *
 * The JSON parser itself is a foreign library: its outcome (a decode error,
 * or the ordered list of records it produced) is an input of the model.
 */
module Changes {
  import opened Wrappers

  type Byte = bv8

  /** One record of the "changes" array; a record without a "rev" member has `rev == ""`. */
  datatype RevRecord = RevRecord(rev: string)

  /** The error the JSON parser reports for input it cannot decode. */
  datatype DecodeError = DecodeError(message: string)

  /** What the JSON parser produced from the raw bytes of the "changes" field. */
  type Decoded = Result<seq<RevRecord>, DecodeError>

  /**
   * One entry of a change feed. `seq` is a reserved word in Dafny, so the
   * update-sequence field is called `updateSeq`. `changes` is `None` while the entry's
   * revision list is Go's nil slice, `Some(revs)` once one has been decoded.
   */
  datatype Change = Change(
    id: string,
    updateSeq: string,
    deleted: bool,
    changes: Option<seq<string>>,
    doc: seq<Byte>)

  /**
   * The revision list a sequence of records stands for: exactly one entry per
   * record, at the record's own position, holding the record's `rev`.
   */
  function Revs(records: seq<RevRecord>): (revs: seq<string>)
    ensures |revs| == |records|
    ensures forall i :: 0 <= i < |records| ==> revs[i] == records[i].rev
  {
    if records == [] then [] else [records[0].rev] + Revs(records[1..])
  }

  /**
   * A reference inverse of `Revs`, defined only to state the round-trip
   * lemmas below: it rebuilds one `{"rev": r}` record per entry. The driver
   * has no such encoder (a `ChangedRevs` marshals as a plain string array).
   */
  function Records(revs: seq<string>): seq<RevRecord>
  {
    if revs == [] then [] else [RevRecord(revs[0])] + Records(revs[1..])
  }

  /** Decoding is lossless: encoding a revision list and decoding it gives the list back. */
  lemma {:induction false} RevsOfRecords(revs: seq<string>)
    ensures Revs(Records(revs)) == revs
  {
    if revs != [] {
      RevsOfRecords(revs[1..]);
    }
  }

  /**
   * Since a record carries nothing but its `rev`, decoding a record list and
   * re-encoding the revisions gives the records back.
   */
  lemma {:induction false} RecordsOfRevs(records: seq<RevRecord>)
    ensures Records(Revs(records)) == records
  {
    if records != [] {
      RecordsOfRevs(records[1..]);
      assert Revs(records)[1..] == Revs(records[1..]);
    }
  }

  /**
   * Decoding commutes with concatenation: the revisions of the first records
   * come first, those of the remaining records after them, nothing is merged
   * or dropped at the seam.
   */
  lemma RevsAppend(front: seq<RevRecord>, back: seq<RevRecord>)
    ensures Revs(front + back) == Revs(front) + Revs(back)
  {
    // Follows element by element from the contract of Revs.
  }

  /**
   * The receiver of `UnmarshalJSON`: a slice of revision strings. A `null`
   * array is Go's nil slice; a non-null array of length 0 is an empty,
   * allocated slice.
   */
  class ChangedRevs {
    var revs: array?<string>

    /** The slice as a value: `None` for nil, otherwise its elements in order. */
    function Contents(): Option<seq<string>>
      reads this, revs
    {
      if revs == null then None else Some(revs[..])
    }

    /** The zero value of the slice type: nil. */
    constructor ()
      ensures Contents() == None
    {
      revs := null;
    }

    /**
     * Decode the "changes" field. On a parser error, return that error and
     * leave the receiver as it was. Otherwise allocate a new slice with one
     * element per record, copy each record's `rev` to its own index, replace
     * the receiver with the new slice and return no error.
     */
    method UnmarshalJSON(decoded: Decoded) returns (err: Option<DecodeError>)
      modifies this
      ensures decoded.Failure? ==> err == Some(decoded.error) && revs == old(revs)
      ensures decoded.Success? ==>
        err == None && revs != null && fresh(revs) && Contents() == Some(Revs(decoded.value))
    {
      if decoded.Failure? {
        return Some(decoded.error);
      }
      var records := decoded.value;
      var fresh_revs := new string[|records|];
      for i := 0 to |records|
        invariant forall k :: 0 <= k < i ==> fresh_revs[k] == records[k].rev
      {
        fresh_revs[i] := records[i].rev;
      }
      assert fresh_revs[..] == Revs(records);
      revs := fresh_revs;
      return None;
    }
  }

  /**
   * Sample decodings: two records kept in order, a parser error that keeps
   * the previous slice, a blank `rev` kept at its position, and an empty list
   * giving an empty, non-nil slice that then fills a change entry.
   */
  method DecodeExamples()
  {
    var c := new ChangedRevs();
    var first := [RevRecord("1-a"), RevRecord("2-b")];
    var err := c.UnmarshalJSON(Success(first));
    assert Revs(first)[0] == "1-a" && Revs(first)[1] == "2-b";
    assert Revs(first) == ["1-a", "2-b"];
    assert err == None && c.Contents() == Some(["1-a", "2-b"]);

    err := c.UnmarshalJSON(Failure(DecodeError("unexpected end of JSON input")));
    assert err.Some? && c.Contents() == Some(["1-a", "2-b"]);

    var blank := [RevRecord(""), RevRecord("3-c")];
    err := c.UnmarshalJSON(Success(blank));
    assert Revs(blank)[0] == "" && Revs(blank)[1] == "3-c";
    assert Revs(blank) == ["", "3-c"];
    assert c.Contents() == Some(["", "3-c"]);

    err := c.UnmarshalJSON(Success([]));
    assert err == None && c.Contents() == Some([]);

    var change := Change("doc1", "7-g1AAAA", false, c.Contents(), []);
    assert change.changes.Some? && change.changes.value == [];
  }
}
