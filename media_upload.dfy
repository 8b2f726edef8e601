// The drag-and-drop media picker (components/media-upload-area.tsx): the
// client-side type and size check, and what one pick or drop does to the
// component's state. Uploads go to `POST /api/upload`; its response, or a
// fetch that throws, is a parameter.

module MediaUpload {
  import opened Wrappers
  import Strings
  import Ipfs
  import UploadRoute

  const DEFAULT_MAX_IMAGE_MB: real := 15.0
  const DEFAULT_MAX_VIDEO_MB: real := 30.0

  function IsImage(mimeType: string): bool {
    Strings.StartsWith(mimeType, "image/")
  }

  /** Both components accept exactly the image and video MIME types. */
  predicate IsMediaType(mimeType: string) {
    IsImage(mimeType) || UploadRoute.IsVideo(mimeType)
  }

  /** No type is both. */
  lemma ImageIsNotVideo(mimeType: string)
    ensures !(IsImage(mimeType) && UploadRoute.IsVideo(mimeType))
  {
  }

  /** `size / (1024 * 1024)`: exact, since dividing by a power of two loses nothing. */
  function SizeInMB(size: nat): real {
    (size as real) / (Ipfs.MIB as real)
  }

  lemma MBComparison(size: nat, maxMB: real)
    ensures SizeInMB(size) > maxMB <==> (size as real) > maxMB * (Ipfs.MIB as real)
  {
  }

  /**
   * `validateFile`: a type that is neither image nor video is refused; an
   * image is held to `maxImageMB`, a video to `maxVideoMB`, both in MiB and
   * inclusive.
   */
  function ValidateFile(file: Ipfs.File, maxImageMB: real, maxVideoMB: real): (valid: bool)
    ensures valid <==>
      IsMediaType(file.mimeType)
      && (file.size as real) <= (if IsImage(file.mimeType) then maxImageMB else maxVideoMB)
                                * (Ipfs.MIB as real)
  {
    var isImage := IsImage(file.mimeType);
    var isVideo := UploadRoute.IsVideo(file.mimeType);
    if !isImage && !isVideo then false
    else
      var maxSize := if isImage then maxImageMB else maxVideoMB;
      MBComparison(file.size, maxSize);
      !(SizeInMB(file.size) > maxSize)
  }

  /** With the default limits, exactly 15 MiB of image passes and one byte more does not. */
  lemma DefaultImageLimitIsInclusive(name: string, mimeType: string)
    requires IsImage(mimeType)
    ensures ValidateFile(Ipfs.File(name, mimeType, 15 * Ipfs.MIB), DEFAULT_MAX_IMAGE_MB, DEFAULT_MAX_VIDEO_MB)
    ensures !ValidateFile(Ipfs.File(name, mimeType, 15 * Ipfs.MIB + 1), DEFAULT_MAX_IMAGE_MB, DEFAULT_MAX_VIDEO_MB)
  {
  }

  /**
   * With the default limits, the client check and the upload route's size
   * check agree on every image or video: the client refuses nothing the
   * route would forward, and forwards nothing the route would refuse.
   */
  lemma DefaultsAgreeWithRoute(file: Ipfs.File)
    requires IsMediaType(file.mimeType)
    ensures ValidateFile(file, DEFAULT_MAX_IMAGE_MB, DEFAULT_MAX_VIDEO_MB)
            <==> file.size <= UploadRoute.SizeLimit(file.mimeType)
  {
    ImageIsNotVideo(file.mimeType);
  }

  /** What the browser's fetch of `/api/upload` returns. */
  datatype ClientReply = NoResponse | Got(response: UploadRoute.Response)

  /** An `onUpload(cid, filename)` call; `None` stands for an `undefined` cid. */
  datatype Upload = Upload(cid: Option<string>, filename: string)

  /** The CID the client destructures from a response body. */
  function CidIn(body: UploadRoute.Body): (cid: Option<string>)
    ensures cid.Some? <==> body.CidBody?
    ensures body.CidBody? ==> cid == Some(body.cid)
  {
    match body
    case CidBody(c) => Some(c)
    case ErrorBody(_) => None
  }

  /** Whatever the route answers with a 2xx status names a CID. */
  lemma RouteSuccessCarriesCid(formOk: bool, file: Option<Ipfs.File>, reply: Ipfs.PinataReply)
    ensures UploadRoute.Post(formOk, file, reply).Ok() ==>
      CidIn(UploadRoute.Post(formOk, file, reply).body) == Some(reply.ipfsHash)
  {
  }

  class MediaUploadArea {
    const maxImageMB: real
    const maxVideoMB: real
    var uploading: bool
    var dragActive: bool
    /** The file input's `value`. */
    var inputValue: string
    /** The `onUpload` calls made so far, oldest first. */
    var uploads: seq<Upload>

    constructor (maxImage: Option<real>, maxVideo: Option<real>)
      ensures maxImageMB == maxImage.GetOr(DEFAULT_MAX_IMAGE_MB)
      ensures maxVideoMB == maxVideo.GetOr(DEFAULT_MAX_VIDEO_MB)
      ensures !uploading && !dragActive && inputValue == "" && uploads == []
    {
      maxImageMB := maxImage.GetOr(DEFAULT_MAX_IMAGE_MB);
      maxVideoMB := maxVideo.GetOr(DEFAULT_MAX_VIDEO_MB);
      uploading := false;
      dragActive := false;
      inputValue := "";
      uploads := [];
    }

    /**
     * `handleFile`: an invalid file returns at once, before the upload
     * request and before the `finally` that resets the component. A valid
     * one is posted; only a 2xx response leads to `onUpload`, and every
     * outcome ends with the flag cleared and the input emptied.
     */
    method HandleFile(file: Ipfs.File, reply: ClientReply)
      modifies this`uploading, this`inputValue, this`uploads
      ensures !ValidateFile(file, maxImageMB, maxVideoMB) ==>
        uploading == old(uploading) && inputValue == old(inputValue) && uploads == old(uploads)
      ensures ValidateFile(file, maxImageMB, maxVideoMB) ==>
        && !uploading && inputValue == ""
        && uploads == old(uploads) + (if reply.Got? && reply.response.Ok()
                                      then [Upload(CidIn(reply.response.body), file.name)]
                                      else [])
    {
      if !ValidateFile(file, maxImageMB, maxVideoMB) {
        return;
      }
      uploading := true;
      if reply.Got? && reply.response.Ok() {
        uploads := uploads + [Upload(CidIn(reply.response.body), file.name)];
      }
      uploading := false;
      inputValue := "";
    }

    /** `handleFileChange`: no selected file is a no-op. */
    method HandleFileChange(file: Option<Ipfs.File>, reply: ClientReply)
      modifies this`uploading, this`inputValue, this`uploads
      ensures file.None? ==>
        uploading == old(uploading) && inputValue == old(inputValue) && uploads == old(uploads)
      ensures file.Some? && ValidateFile(file.value, maxImageMB, maxVideoMB) ==>
        && !uploading && inputValue == ""
        && uploads == old(uploads) + (if reply.Got? && reply.response.Ok()
                                      then [Upload(CidIn(reply.response.body), file.value.name)]
                                      else [])
      ensures file.Some? && !ValidateFile(file.value, maxImageMB, maxVideoMB) ==>
        uploading == old(uploading) && inputValue == old(inputValue) && uploads == old(uploads)
    {
      if file.None? {
        return;
      }
      HandleFile(file.value, reply);
    }

    /** `handleDrop`: the drag highlight goes off, then the dropped file, if any, is handled. */
    method HandleDrop(file: Option<Ipfs.File>, reply: ClientReply)
      modifies this`dragActive, this`uploading, this`inputValue, this`uploads
      ensures !dragActive
      ensures file.None? ==>
        uploading == old(uploading) && inputValue == old(inputValue) && uploads == old(uploads)
      ensures file.Some? && ValidateFile(file.value, maxImageMB, maxVideoMB) ==>
        && !uploading && inputValue == ""
        && uploads == old(uploads) + (if reply.Got? && reply.response.Ok()
                                      then [Upload(CidIn(reply.response.body), file.value.name)]
                                      else [])
      ensures file.Some? && !ValidateFile(file.value, maxImageMB, maxVideoMB) ==>
        uploading == old(uploading) && inputValue == old(inputValue) && uploads == old(uploads)
    {
      dragActive := false;
      if file.None? {
        return;
      }
      HandleFile(file.value, reply);
    }
  }
}
