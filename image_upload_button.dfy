// The small upload button (components/image-upload-button.tsx): a type
// check and a 5 MiB limit in the component, then `uploadFile` straight to
// Pinata.

module ImageUploadButton {
  import opened Wrappers
  import Ipfs
  import MediaUpload

  const BUTTON_LIMIT: nat := 5 * 1024 * 1024

  /** The button's own guards: an image or video type, at most 5 MiB. */
  function Accepts(file: Ipfs.File): (accepted: bool)
    ensures accepted <==> MediaUpload.IsMediaType(file.mimeType) && file.size <= Ipfs.FILE_LIMIT
  {
    MediaUpload.IsMediaType(file.mimeType) && !(file.size > BUTTON_LIMIT)
  }

  /**
   * The button's size guard is the one `uploadFile` applies, so once the
   * button has accepted a file `uploadFile` never refuses it for its size,
   * and it succeeds exactly when Pinata answers with a 2xx status.
   */
  lemma AcceptedFilesAreNeverTooLarge(file: Ipfs.File, reply: Ipfs.PinataReply)
    requires Accepts(file)
    ensures Ipfs.UploadFile(file, reply) != Err(Ipfs.TooLarge)
    ensures Ipfs.UploadFile(file, reply).Ok? <==> reply.Ok()
  {
  }

  class UploadButton {
    var uploading: bool
    /** The file input's `value`. */
    var inputValue: string
    /** The `onUpload(cid, filename)` calls made so far, oldest first. */
    var uploads: seq<(string, string)>

    constructor ()
      ensures !uploading && inputValue == "" && uploads == []
    {
      uploading := false;
      inputValue := "";
      uploads := [];
    }

    /**
     * `handleFileChange`: no file, a refused type or a file above 5 MiB
     * returns before anything changes; otherwise the file is uploaded,
     * `onUpload` is called only on success, and every outcome ends with
     * the flag cleared and the input emptied.
     */
    method HandleFileChange(file: Option<Ipfs.File>, reply: Ipfs.PinataReply)
      modifies this
      ensures file.None? || !Accepts(file.value) ==>
        uploading == old(uploading) && inputValue == old(inputValue) && uploads == old(uploads)
      ensures file.Some? && Accepts(file.value) ==>
        && !uploading && inputValue == ""
        && uploads == old(uploads) + (if reply.Ok() then [(reply.ipfsHash, file.value.name)] else [])
    {
      if file.None? {
        return;
      }
      var f := file.value;
      if !MediaUpload.IsMediaType(f.mimeType) {
        return;
      }
      if f.size > BUTTON_LIMIT {
        return;
      }
      uploading := true;
      var cid := Ipfs.UploadFile(f, reply);
      if cid.Ok? {
        uploads := uploads + [(cid.value, f.name)];
      }
      uploading := false;
      inputValue := "";
    }
  }
}
