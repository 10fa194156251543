/** Cloud file storage, reached through the files usecase (`UploadToGCP`, `DeleteFileGCP`). The
    usecase's implementation is not part of this model: each call is recorded, and its answer is
    an input. */
module Storage {
  import opened Wrappers
  import opened Models

  /** One delete request per image, each naming `prefix + fileName`, in the images' order. */
  function ImageDestinations(prefix: string, images: seq<Image>): (r: seq<DeleteFileReq>)
    ensures |r| == |images|
  {
    if images == [] then []
    else ImageDestinations(prefix, images[..|images| - 1]) +
         [DeleteFileReq(prefix + images[|images| - 1].fileName)]
  }

  /** Request i names image i's file under the prefix. */
  lemma {:induction false} DestinationNames(prefix: string, images: seq<Image>)
    ensures forall i :: 0 <= i < |images| ==>
      ImageDestinations(prefix, images)[i] == DeleteFileReq(prefix + images[i].fileName)
  {
    if images != [] {
      DestinationNames(prefix, images[..|images| - 1]);
    }
  }

  /** The loop that builds the delete requests for a product's images, one per image in order;
      the product handler and the update builder each run it before calling the storage. */
  method DeleteRequests(prefix: string, images: seq<Image>) returns (reqs: seq<DeleteFileReq>)
    ensures reqs == ImageDestinations(prefix, images)
  {
    reqs := [];
    for i := 0 to |images|
      invariant reqs == ImageDestinations(prefix, images[..i])
    {
      assert images[..i + 1][..i] == images[..i];
      reqs := reqs + [DeleteFileReq(prefix + images[i].fileName)];
    }
    assert images[..|images|] == images;
  }

  class FileStorage {
    /** Every delete call made, in order, with its requests. */
    var deletions: seq<seq<DeleteFileReq>>
    /** Every upload call made, in order, with its requests. */
    var uploads: seq<seq<FileReq>>

    constructor ()
      ensures deletions == [] && uploads == []
    {
      deletions := [];
      uploads := [];
    }

    /** `DeleteFileGCP(reqs)`; `answer` is the error it returns, if any. */
    method DeleteFiles(reqs: seq<DeleteFileReq>, answer: Option<string>) returns (err: Option<string>)
      modifies this
      ensures deletions == old(deletions) + [reqs] && uploads == old(uploads)
      ensures err == answer
    {
      deletions := deletions + [reqs];
      err := answer;
    }

    /** `UploadToGCP(reqs)`; `answer` is what it returns. */
    method Upload(reqs: seq<FileReq>, answer: Result<seq<FileRes>, string>)
      returns (r: Result<seq<FileRes>, string>)
      modifies this
      ensures uploads == old(uploads) + [reqs] && deletions == old(deletions)
      ensures r == answer
    {
      uploads := uploads + [reqs];
      r := answer;
    }
  }
}
