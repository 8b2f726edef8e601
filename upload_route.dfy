// The `POST /api/upload` handler (app/api/upload/route.ts): a presence
// check, a size limit chosen by the MIME type, then one Pinata request
// whose non-OK status is passed through.

module UploadRoute {
  import opened Wrappers
  import Strings
  import Ipfs

  const IMAGE_LIMIT: nat := 15 * Ipfs.MIB
  const VIDEO_LIMIT: nat := 30 * Ipfs.MIB

  /** A JSON response body: an error message or the pinned CID. */
  datatype Body = ErrorBody(message: string) | CidBody(cid: string)

  datatype Response = Response(status: nat, body: Body) {
    /** `response.ok` on the client. */
    predicate Ok() {
      200 <= status <= 299
    }
  }

  function IsVideo(mimeType: string): bool {
    Strings.StartsWith(mimeType, "video/")
  }

  /** 30 MiB for a video type, 15 MiB for anything else: no type is refused here. */
  function SizeLimit(mimeType: string): (limit: nat)
    ensures limit == if IsVideo(mimeType) then VIDEO_LIMIT else IMAGE_LIMIT
    ensures IMAGE_LIMIT <= limit <= VIDEO_LIMIT
  {
    if IsVideo(mimeType) then 30 * Ipfs.MIB else 15 * Ipfs.MIB
  }

  /**
   * `POST`: `formOk` is whether the body parses as a form, `file` its
   * `file` entry. A body that does not parse and a fetch that throws both
   * end in the catch-all 500.
   */
  function Post(formOk: bool, file: Option<Ipfs.File>,
                reply: Ipfs.PinataReply): (r: Response)
    ensures !formOk ==> r.status == 500
    ensures formOk && file.None? ==> r == Response(400, ErrorBody("No file provided"))
    ensures formOk && file.Some? && file.value.size > SizeLimit(file.value.mimeType) ==>
      r.status == 400 && r.body.ErrorBody?
    ensures r.Ok() <==>
      formOk && file.Some? && file.value.size <= SizeLimit(file.value.mimeType)
      && reply.Ok()
    ensures r.Ok() ==> r == Response(200, CidBody(reply.ipfsHash))
    ensures (formOk && file.Some? && file.value.size <= SizeLimit(file.value.mimeType)
             && reply.Reply? && !reply.Ok()) ==> r.status == reply.status
  {
    if !formOk then Response(500, ErrorBody("Internal server error"))
    else if file.None? then Response(400, ErrorBody("No file provided"))
    else if file.value.size > SizeLimit(file.value.mimeType) then
      Response(400, ErrorBody("File size exceeds " + (if IsVideo(file.value.mimeType) then "30" else "15") + "MB limit"))
    else match reply
      case Unreachable => Response(500, ErrorBody("Internal server error"))
      case Reply(status, hash) =>
        if 200 <= status <= 299 then Response(200, CidBody(hash))
        else Response(status, ErrorBody("Failed to upload to IPFS"))
  }

  /**
   * The size test is strict: a file of exactly the limit reaches Pinata,
   * one byte more is refused with 400 whatever Pinata would say. Any type
   * reaches Pinata; only the limit depends on it.
   */
  lemma LimitIsInclusive(name: string, mimeType: string, reply: Ipfs.PinataReply)
    ensures Post(true, Some(Ipfs.File(name, mimeType, SizeLimit(mimeType))), reply).Ok()
            <==> reply.Ok()
    ensures Post(true, Some(Ipfs.File(name, mimeType, SizeLimit(mimeType) + 1)), reply).status == 400
  {
  }
}
