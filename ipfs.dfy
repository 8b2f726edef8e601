// Pinata uploads (lib/ipfs.ts): the size guards that run before any
// request, the handling of a non-OK reply, and the gateway URL. The request
// itself is a parameter: Pinata's reply, or a fetch that throws.

module Ipfs {
  import opened Wrappers
  import Strings

  const MIB: nat := 1024 * 1024

  /** `uploadFile` refuses files above 5 MiB. */
  const FILE_LIMIT: nat := 5 * MIB

  /** `uploadSnapshot` refuses snapshots whose JSON text is above 1 MiB of UTF-8. */
  const SNAPSHOT_LIMIT: nat := MIB

  const GATEWAY: string := "https://ipfs.io/ipfs/"

  /** A browser `File`: its name, MIME type and size in bytes. */
  datatype File = File(name: string, mimeType: string, size: nat)

  /** What a request to Pinata comes back with. */
  datatype PinataReply =
    | Unreachable                          // `fetch` throws
    | Reply(status: nat, ipfsHash: string)  // the status and the JSON's `IpfsHash`
  {
    /** `response.ok`: a 2xx status. */
    predicate Ok() {
      Reply? && 200 <= status <= 299
    }
  }

  datatype UploadError = TooLarge | FetchFailed | NotOk(status: nat)

  /** How every upload ends once its request is made: a non-OK status throws, success returns the hash. */
  function Settle(reply: PinataReply): (r: Result<string, UploadError>)
    ensures r.Ok? <==> reply.Ok()
    ensures r.Ok? ==> r.value == reply.ipfsHash
    ensures reply.Reply? && !reply.Ok() ==> r == Err(NotOk(reply.status))
  {
    match reply
    case Unreachable => Err(FetchFailed)
    case Reply(status, hash) => if 200 <= status <= 299 then Ok(hash) else Err(NotOk(status))
  }

  /** `uploadText`: no guard; the reply decides. */
  function UploadText(text: string, reply: PinataReply): (r: Result<string, UploadError>)
    ensures r != Err(TooLarge)
    ensures r.Ok? <==> reply.Ok()
    ensures r.Ok? ==> r.value == reply.ipfsHash
  {
    Settle(reply)
  }

  /**
   * `uploadFile`: a file above 5 MiB is refused whatever Pinata would have
   * said, so no request is made; exactly 5 MiB is sent.
   */
  function UploadFile(file: File, reply: PinataReply): (r: Result<string, UploadError>)
    ensures file.size > FILE_LIMIT ==> r == Err(TooLarge)
    ensures file.size <= FILE_LIMIT ==> r != Err(TooLarge) && (r.Ok? <==> reply.Ok())
    ensures r.Ok? ==> r.value == reply.ipfsHash
  {
    if file.size > FILE_LIMIT then Err(TooLarge) else Settle(reply)
  }

  // ----- UTF-8 size of a string -----

  /** Bytes of one code point in UTF-8. */
  function Utf8Width(c: char): (n: nat)
    ensures 1 <= n <= 4
    ensures (n == 1) <==> (c as int) < 0x80
  {
    if (c as int) < 0x80 then 1
    else if (c as int) < 0x800 then 2
    else if (c as int) < 0x1_0000 then 3
    else 4
  }

  /** `new Blob([s]).size`: the UTF-8 length of `s`. */
  function Utf8Length(s: string): nat {
    if s == [] then 0 else Utf8Width(s[0]) + Utf8Length(s[1..])
  }

  /** Between one and four bytes per character. */
  lemma {:induction false} Utf8LengthBounds(s: string)
    ensures |s| <= Utf8Length(s) <= 4 * |s|
  {
    if s != [] {
      Utf8LengthBounds(s[1..]);
    }
  }

  /** Pure ASCII text is one byte per character. */
  lemma {:induction false} AsciiUtf8Length(s: string)
    requires forall i :: 0 <= i < |s| ==> (s[i] as int) < 0x80
    ensures Utf8Length(s) == |s|
  {
    if s != [] {
      AsciiUtf8Length(s[1..]);
    }
  }

  /**
   * `uploadSnapshot` on the snapshot's JSON text: above 1 MiB of UTF-8 it
   * is refused before any request. JSON serialisation is not part of this
   * model.
   */
  function UploadSnapshot(json: string, reply: PinataReply): (r: Result<string, UploadError>)
    ensures Utf8Length(json) > SNAPSHOT_LIMIT ==> r == Err(TooLarge)
    ensures Utf8Length(json) <= SNAPSHOT_LIMIT ==> r != Err(TooLarge) && (r.Ok? <==> reply.Ok())
    ensures r.Ok? ==> r.value == reply.ipfsHash
  {
    if Utf8Length(json) > SNAPSHOT_LIMIT then Err(TooLarge) else Settle(reply)
  }

  /**
   * The limit is on bytes, not characters: a text of at most 256 Ki
   * characters always fits, one of more than 1 Mi characters never does.
   */
  lemma SnapshotLimitInCharacters(json: string, reply: PinataReply)
    ensures |json| <= SNAPSHOT_LIMIT / 4 ==> UploadSnapshot(json, reply) != Err(TooLarge)
    ensures |json| > SNAPSHOT_LIMIT ==> UploadSnapshot(json, reply) == Err(TooLarge)
  {
    Utf8LengthBounds(json);
  }

  /** For pure ASCII text, such as JSON with escaped content, the byte limit is a character limit. */
  lemma AsciiSnapshotLimit(json: string, reply: PinataReply)
    requires forall i :: 0 <= i < |json| ==> (json[i] as int) < 0x80
    ensures UploadSnapshot(json, reply) == Err(TooLarge) <==> |json| > SNAPSHOT_LIMIT
  {
    AsciiUtf8Length(json);
  }

  // ----- Gateway URLs -----

  /** `getIPFSUrl`. */
  function GetIPFSUrl(cid: string): (url: string)
    ensures Strings.StartsWith(url, GATEWAY)
    ensures |url| == |GATEWAY| + |cid| && url[|GATEWAY|..] == cid
  {
    GATEWAY + cid
  }

  /** The CID a gateway URL points at, if it is one. */
  function CidOf(url: string): (cid: Option<string>)
    ensures cid.Some? <==> Strings.StartsWith(url, GATEWAY)
    ensures cid.Some? ==> url == GATEWAY + cid.value
  {
    if Strings.StartsWith(url, GATEWAY) then Some(url[|GATEWAY|..]) else None
  }

  /** Every CID can be read back from its URL, so distinct CIDs give distinct URLs. */
  lemma UrlRoundTrip(cid: string, other: string)
    ensures CidOf(GetIPFSUrl(cid)) == Some(cid)
    ensures GetIPFSUrl(cid) == GetIPFSUrl(other) ==> cid == other
  {
    var url := GetIPFSUrl(cid);
    assert CidOf(url) == Some(url[|GATEWAY|..]);
    if GetIPFSUrl(cid) == GetIPFSUrl(other) {
      assert GetIPFSUrl(other)[|GATEWAY|..] == other;
    }
  }
}
