/**
 * The R2 bucket binding as the worker uses it. The bucket's own storage is
 * not modelled: what the model keeps is the sequence of calls the worker
 * makes on it, in order, and the objects the bucket returns are supplied by
 * the caller.
 */
module R2 {
  import opened Wrappers
  import opened Values

  /** The metadata of a stored object; `hasBody` tells an `R2ObjectBody` from a bare `R2Object`. */
  datatype R2Object = R2Object(key: string, hasBody: bool)

  /** A call the worker makes on the bucket binding. */
  datatype BucketCall =
    | Put(key: Option<string>, data: seq<byte>)
    | CreateMultipartUpload(startKey: Value)
    | ResumeMultipartUpload(key: Option<string>, uploadId: string)
    | UploadPart(part: Option<string>, data: seq<byte>)
    | Complete(parts: Value)

  class Bucket {
    var calls: seq<BucketCall>

    constructor ()
      ensures calls == []
    {
      calls := [];
    }

    /** Issue one call; the bucket answers with `answer`. */
    method Call(c: BucketCall, answer: Value) returns (r: Value)
      modifies this
      ensures calls == old(calls) + [c]
      ensures r == answer
    {
      calls := calls + [c];
      r := answer;
    }
  }
}
