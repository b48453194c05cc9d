/** StorageController: the checks and object keys behind the presigned S3
    URLs. The presigner's URL, the random UUID, today's date and the S3
    delete call's outcome are parameters. */
module Storage {
  import opened Wrappers
  import opened Text

  datatype Visibility = Public | Private

  /** The content types makePutUrl accepts. */
  const ContentTypes: set<string> := {"image/jpeg", "image/png", "image/webp", "image/heic", "image/heif"}

  /** The file extensions every presign endpoint accepts. */
  const Extensions: set<string> := {"jpg", "jpeg", "png", "webp", "heic", "heif"}

  /** safeExt: the lower-cased text after the last '.', or "" when there is
      no '.' after the first character. */
  function SafeExt(filename: string): (ext: string)
    ensures '.' !in ext
    ensures forall i :: 0 <= i < |ext| ==> !IsUpperAscii(ext[i])
    ensures (forall k :: 0 < k < |filename| ==> filename[k] != '.') ==> ext == ""
    ensures (exists k :: 0 < k < |filename| && filename[k] == '.') ==>
      exists k :: 0 < k < |filename| && filename[k] == '.' && '.' !in filename[k + 1..]
        && ext == ToLower(filename[k + 1..])
  {
    var dot := LastIndexOf(filename, '.');
    if dot > 0 then
      var tail := filename[dot + 1..];
      assert '.' !in tail by {
        forall i | 0 <= i < |tail| ensures tail[i] != '.' {
          assert tail[i] == filename[dot + 1 + i];
        }
      }
      ToLower(tail)
    else
      ""
  }

  /** parseVisibility: "PRIVATE" in any letter case is private; null and
      every other value are public. */
  function ParseVisibility(v: Option<string>): (vis: Visibility)
    ensures vis == Private <==> v.Some? && ToUpper(v.value) == "PRIVATE"
  {
    match v
    case None => Public
    case Some(s) =>
      var upper := ToUpper(s);
      if upper == "PUBLIC" then Public
      else if upper == "PRIVATE" then Private
      else Public
  }

  function PrefixFor(v: Visibility): (p: string)
    ensures p == "public" || p == "private"
  {
    if v == Public then "public" else "private"
  }

  /** The prefix of a visibility parses back to that visibility. */
  lemma PrefixRoundTrip(v: Visibility)
    ensures ParseVisibility(Some(PrefixFor(v))) == v
  {
    if v == Private {
      assert ToUpper("private") == "PRIVATE";
    } else {
      assert ToUpper("public") != "PRIVATE" by {
        assert |ToUpper("public")| == 6;
      }
    }
  }

  /** The letter case of the parameter never matters. */
  lemma ParseVisibilityIgnoresCase(s: string)
    ensures ParseVisibility(Some(ToLower(s))) == ParseVisibility(Some(s))
    ensures ParseVisibility(Some(ToUpper(s))) == ParseVisibility(Some(s))
  {
    var p := "PRIVATE";
    assert ToUpper(ToLower(s)) == ToUpper(s) by {
      forall i | 0 <= i < |s| ensures ToUpper(ToLower(s))[i] == ToUpper(s)[i] {
        assert ToLower(s)[i] == LowerChar(s[i]);
      }
    }
    assert ToUpper(ToUpper(s)) == ToUpper(s) by {
      forall i | 0 <= i < |s| ensures ToUpper(ToUpper(s))[i] == ToUpper(s)[i] {
        assert ToUpper(s)[i] == UpperChar(s[i]);
      }
    }
  }

  /** What an endpoint answers: 400 with its message, or 200 with the
      presigned upload URL, the object key and the lifetime in seconds. */
  datatype PutResponse = BadRequest(error: string) | PutUrl(uploadUrl: string, key: string, expiresIn: string)

  const UnsupportedContentType := "unsupported contentType"
  const UnsupportedExtension := "ext must be jpg/jpeg/png/webp/heic/heif"

  /** makePutUrl: 400 unless the lower-cased content type is an image type;
      otherwise the URL the presigner signed for `key`, valid `expMin`
      minutes. */
  function MakePutUrl(key: string, contentType: string, expMin: int, signedUrl: string): (r: PutResponse)
    ensures r.BadRequest? <==> ToLower(contentType) !in ContentTypes
    ensures r.BadRequest? ==> r.error == UnsupportedContentType
    ensures r.PutUrl? ==> r.key == key && r.uploadUrl == signedUrl && r.expiresIn == IntStr(expMin * 60)
  {
    if ToLower(contentType) !in ContentTypes then BadRequest(UnsupportedContentType)
    else PutUrl(signedUrl, key, IntStr(expMin * 60))
  }

  /** `s` begins with `head` and ends with `tail`, without overlap. */
  predicate Framed(s: string, head: string, tail: string) {
    |head| + |tail| <= |s| && s[..|head|] == head && s[|s| - |tail|..] == tail
  }

  lemma FramedConcat(head: string, middle: string, tail: string)
    ensures Framed(head + middle + tail, head, tail)
  {
    var s := head + middle + tail;
    assert s[..|head|] == head;
    assert s[|head + middle|..] == tail;
  }

  /** A string framed by `head` starts with every prefix of `head`. */
  lemma FramedStart(s: string, head: string, tail: string, p: string)
    requires Framed(s, head, tail) && p <= head
    ensures p <= s
  {
    assert s[..|p|] == head[..|p|];
  }

  /** The profile image key: <prefix>/users/<userId>/profile/<uuid>.<ext>;
      it lies under "<prefix>/users/" and ends in the extension. */
  function ProfileKey(prefix: string, userId: int, uuid: string, ext: string): (k: string)
    ensures Framed(k, prefix + "/" + "users/", "." + ext)
  {
    FramedConcat(prefix + "/" + "users/", IntStr(userId) + "/profile/" + uuid, "." + ext);
    prefix + "/" + "users/" + (IntStr(userId) + "/profile/" + uuid) + ("." + ext)
  }

  /** The proof-shot key:
      <prefix>/proof-shots/<group>/<user>/<yyyy>/<MM>/<dd>/<uuid>.<ext>,
      month and day printed with two digits; it lies under
      "<prefix>/proof-shots/" and ends in the extension. */
  function ProofShotKey(prefix: string, groupId: int, userId: int, year: int, month: nat, day: nat,
                        uuid: string, ext: string): (k: string)
    ensures Framed(k, prefix + "/" + "proof-shots/", "." + ext)
  {
    FramedConcat(prefix + "/" + "proof-shots/", DatedPath(groupId, userId, year, month, day, uuid), "." + ext);
    prefix + "/" + "proof-shots/" + DatedPath(groupId, userId, year, month, day, uuid) + ("." + ext)
  }

  /** <owner>/<user>/<yyyy>/<MM>/<dd>/<uuid>, month and day printed with
      two digits. */
  function DatedPath(ownerId: int, userId: int, year: int, month: nat, day: nat, uuid: string): string {
    IntStr(ownerId) + "/" + IntStr(userId) + "/" + IntStr(year) + "/" + Pad2(month) + "/" + Pad2(day) + "/" + uuid
  }

  /** The group chat room key, without a visibility prefix:
      group-rooms/<room>/<user>/<yyyy>/<MM>/<dd>/<uuid>.<ext>; it lies
      under "group-rooms/" and ends in the extension. */
  function GroupRoomKey(roomId: int, userId: int, year: int, month: nat, day: nat,
                        uuid: string, ext: string): (k: string)
    ensures Framed(k, "group-rooms/", "." + ext)
  {
    FramedConcat("group-rooms/", DatedPath(roomId, userId, year, month, day, uuid), "." + ext);
    "group-rooms/" + DatedPath(roomId, userId, year, month, day, uuid) + ("." + ext)
  }

  /** A LocalDate as the endpoints read it. */
  datatype Today = Today(year: int, month: nat, day: nat)

  /** A request parameter declared with a defaultValue: absent or empty, it
      reads as the default. */
  function RequestParam(v: Option<string>, fallback: string): (s: string)
    ensures v.None? || v.value == "" ==> s == fallback
    ensures v.Some? && v.value != "" ==> s == v.value
  {
    if v.None? || v.value == "" then fallback else v.value
  }

  const DefaultContentType: string := "image/jpeg"
  const DefaultFilename: string := "photo.jpg"

  /** presignProfilePut: contentType defaults to image/jpeg and visibility
      to PRIVATE. */
  function PresignProfilePut(userId: int, filename: string, contentType: Option<string>, visibility: Option<string>,
                             uuid: string, expMin: int, signedUrl: string): (r: PutResponse)
    ensures SafeExt(filename) !in Extensions ==> r == BadRequest(UnsupportedExtension)
    ensures SafeExt(filename) in Extensions ==>
      r == MakePutUrl(ProfileKey(PrefixFor(ParseVisibility(Some(RequestParam(visibility, "PRIVATE")))),
                                 userId, uuid, SafeExt(filename)),
                      RequestParam(contentType, DefaultContentType), expMin, signedUrl)
  {
    var ext := SafeExt(filename);
    if ext !in Extensions then BadRequest(UnsupportedExtension)
    else
      var v := ParseVisibility(Some(RequestParam(visibility, "PRIVATE")));
      var key := ProfileKey(PrefixFor(v), userId, uuid, ext);
      MakePutUrl(key, RequestParam(contentType, DefaultContentType), expMin, signedUrl)
  }

  /** presignProofShotPut: contentType defaults to image/jpeg, filename to
      photo.jpg and visibility to PRIVATE. */
  function PresignProofShotPut(groupId: int, userId: int, contentType: Option<string>, filename: Option<string>,
                               visibility: Option<string>, today: Today, uuid: string,
                               expMin: int, signedUrl: string): (r: PutResponse)
    ensures SafeExt(RequestParam(filename, DefaultFilename)) !in Extensions ==> r == BadRequest(UnsupportedExtension)
    ensures SafeExt(RequestParam(filename, DefaultFilename)) in Extensions ==>
      r == MakePutUrl(ProofShotKey(PrefixFor(ParseVisibility(Some(RequestParam(visibility, "PRIVATE")))),
                                   groupId, userId, today.year, today.month, today.day, uuid,
                                   SafeExt(RequestParam(filename, DefaultFilename))),
                      RequestParam(contentType, DefaultContentType), expMin, signedUrl)
  {
    var ext := SafeExt(RequestParam(filename, DefaultFilename));
    if ext !in Extensions then BadRequest(UnsupportedExtension)
    else
      var v := ParseVisibility(Some(RequestParam(visibility, "PRIVATE")));
      var key := ProofShotKey(PrefixFor(v), groupId, userId,
                              today.year, today.month, today.day, uuid, ext);
      MakePutUrl(key, RequestParam(contentType, DefaultContentType), expMin, signedUrl)
  }

  /** presignGroupRoomPut: contentType defaults to image/jpeg and filename to
      photo.jpg; the visibility parameter (default PUBLIC) is accepted and
      unused. */
  function PresignGroupRoomPut(roomId: int, userId: int, contentType: Option<string>, filename: Option<string>,
                               visibility: Option<string>, today: Today, uuid: string,
                               expMin: int, signedUrl: string): (r: PutResponse)
    ensures SafeExt(RequestParam(filename, DefaultFilename)) !in Extensions ==> r == BadRequest(UnsupportedExtension)
    ensures SafeExt(RequestParam(filename, DefaultFilename)) in Extensions ==>
      r == MakePutUrl(GroupRoomKey(roomId, userId, today.year, today.month, today.day, uuid,
                                   SafeExt(RequestParam(filename, DefaultFilename))),
                      RequestParam(contentType, DefaultContentType), expMin, signedUrl)
  {
    var ext := SafeExt(RequestParam(filename, DefaultFilename));
    if ext !in Extensions then BadRequest(UnsupportedExtension)
    else
      var key := GroupRoomKey(roomId, userId, today.year, today.month, today.day, uuid, ext);
      MakePutUrl(key, RequestParam(contentType, DefaultContentType), expMin, signedUrl)
  }

  /** The defaults themselves pass both checks: photo.jpg has the extension
      jpg and image/jpeg is an accepted type. */
  lemma DefaultsAccepted()
    ensures SafeExt(DefaultFilename) == "jpg" && "jpg" in Extensions
    ensures ToLower(DefaultContentType) in ContentTypes
  {
    DefaultFilenameSplits();
    SafeExtOfDotted("photo", "jpg");
    ExtensionsLowerCase("jpg");
    JpegTypeLower();
  }

  lemma DefaultFilenameSplits()
    ensures DefaultFilename == "photo" + "." + "jpg"
  {
  }

  lemma JpegTypeLower()
    ensures ToLower(DefaultContentType) == DefaultContentType
  {
    forall i | 0 <= i < |DefaultContentType|
      ensures ToLower(DefaultContentType)[i] == DefaultContentType[i]
    {
      assert !IsUpperAscii(DefaultContentType[i]);
    }
  }

  /** Without a visibility or content type the profile endpoint issues a
      private key. */
  lemma ProfileDefaults(userId: int, filename: string, uuid: string, expMin: int, signedUrl: string)
    requires SafeExt(filename) in Extensions
    ensures PresignProfilePut(userId, filename, None, None, uuid, expMin, signedUrl)
         == PutUrl(signedUrl, ProfileKey("private", userId, uuid, SafeExt(filename)), IntStr(expMin * 60))
  {
    JpegTypeLower();
    PrefixRoundTrip(Private);
  }

  /** With no optional parameter the proof-shot endpoint issues a private
      jpg key. */
  lemma ProofShotDefaults(groupId: int, userId: int, today: Today, uuid: string, expMin: int, signedUrl: string)
    ensures PresignProofShotPut(groupId, userId, None, None, None, today, uuid, expMin, signedUrl)
         == PutUrl(signedUrl, ProofShotKey("private", groupId, userId, today.year, today.month, today.day,
                                           uuid, "jpg"), IntStr(expMin * 60))
  {
    DefaultsAccepted();
    PrefixRoundTrip(Private);
  }

  /** With no optional parameter the group-room endpoint issues a jpg key. */
  lemma GroupRoomDefaults(roomId: int, userId: int, today: Today, uuid: string, expMin: int, signedUrl: string)
    ensures PresignGroupRoomPut(roomId, userId, None, None, None, today, uuid, expMin, signedUrl)
         == PutUrl(signedUrl, GroupRoomKey(roomId, userId, today.year, today.month, today.day, uuid, "jpg"),
                   IntStr(expMin * 60))
  {
    DefaultsAccepted();
  }

  /** The group-room key does not depend on the visibility parameter. */
  lemma GroupRoomIgnoresVisibility(roomId: int, userId: int, contentType: Option<string>, filename: Option<string>,
                                   v1: Option<string>, v2: Option<string>, today: Today, uuid: string,
                                   expMin: int, signedUrl: string)
    ensures PresignGroupRoomPut(roomId, userId, contentType, filename, v1, today, uuid, expMin, signedUrl)
         == PresignGroupRoomPut(roomId, userId, contentType, filename, v2, today, uuid, expMin, signedUrl)
  {
  }

  /** deleteObject's key guard: only keys under "public/" or "private/". */
  predicate DeletableKey(key: Option<string>) {
    key.Some? && (StartsWith(key.value, "public/") || StartsWith(key.value, "private/"))
  }

  /** What the S3 delete call does. */
  datatype DeleteOutcome = Deleted | NoSuchKey | SdkFailure

  /** deleteObject: 400 for a refused key, 204 when the object was deleted
      or was already missing, 500 on any other S3 failure. */
  function DeleteObject(key: Option<string>, outcome: DeleteOutcome): (status: int)
    ensures status == 400 <==> !DeletableKey(key)
    ensures DeletableKey(key) ==> (status == 204 <==> !outcome.SdkFailure?)
    ensures status in {204, 400, 500}
  {
    if !DeletableKey(key) then 400
    else match outcome
      case Deleted => 204
      case NoSuchKey => 204
      case SdkFailure => 500
  }

  /** Keys issued under a visibility prefix pass the delete guard. */
  lemma PrefixedKeysDeletable(v: Visibility, userId: int, groupId: int, year: int, month: nat, day: nat,
                              uuid: string, ext: string)
    ensures DeletableKey(Some(ProfileKey(PrefixFor(v), userId, uuid, ext)))
    ensures DeletableKey(Some(ProofShotKey(PrefixFor(v), groupId, userId, year, month, day, uuid, ext)))
  {
    var p := PrefixFor(v) + "/";
    assert p == "public/" || p == "private/";
    PrefixOfConcat(p, "users/");
    PrefixOfConcat(p, "proof-shots/");
    FramedStart(ProfileKey(PrefixFor(v), userId, uuid, ext), p + "users/", "." + ext, p);
    FramedStart(ProofShotKey(PrefixFor(v), groupId, userId, year, month, day, uuid, ext),
                p + "proof-shots/", "." + ext, p);
  }

  lemma PrefixOfConcat(a: string, b: string)
    ensures a <= a + b
  {
    assert (a + b)[..|a|] == a;
  }

  /** Group-room keys start with neither visibility prefix, so the delete
      endpoint refuses every key the group-room endpoint issues. */
  lemma GroupRoomKeysNotDeletable(roomId: int, userId: int, year: int, month: nat, day: nat,
                                  uuid: string, ext: string)
    ensures !DeletableKey(Some(GroupRoomKey(roomId, userId, year, month, day, uuid, ext)))
  {
    var k := GroupRoomKey(roomId, userId, year, month, day, uuid, ext);
    assert k[0] == 'g';
  }

  /** The last '.' of stem + "." + ext is the one before ext, when ext has
      none. */
  lemma LastDot(stem: string, ext: string)
    requires '.' !in ext
    ensures LastIndexOf(stem + "." + ext, '.') == |stem|
  {
    DotThenNoDot(stem, ext);
    LastAt(stem + "." + ext, '.', |stem|);
  }

  /** The dot after the stem, and none after it. */
  lemma DotThenNoDot(stem: string, ext: string)
    requires '.' !in ext
    ensures (stem + "." + ext)[|stem|] == '.'
    ensures forall i :: |stem| < i < |stem + "." + ext| ==> (stem + "." + ext)[i] != '.'
  {
    var s := stem + "." + ext;
    var d := |stem|;
    forall i | d < i < |s| ensures s[i] != '.' {
      assert s[i] == ext[i - d - 1];
    }
  }

  /** The last occurrence is the one with no other after it. */
  lemma LastAt(s: string, c: char, d: int)
    requires 0 <= d < |s| && s[d] == c
    requires forall i :: d < i < |s| ==> s[i] != c
    ensures LastIndexOf(s, c) == d
  {
  }

  /** SafeExt of a dotted name with a non-empty stem is the lower-cased
      text after that dot. */
  lemma SafeExtOfDotted(stem: string, ext: string)
    requires |stem| > 0 && '.' !in ext
    ensures SafeExt(stem + "." + ext) == ToLower(ext)
  {
    LastDot(stem, ext);
    assert (stem + "." + ext)[|stem| + 1..] == ext;
  }

  /** Every accepted extension is lower-case and free of '.'. */
  lemma ExtensionsLowerCase(ext: string)
    requires ext in Extensions
    ensures '.' !in ext && ToLower(ext) == ext
  {
    forall i | 0 <= i < |ext| ensures ext[i] != '.' && LowerChar(ext[i]) == ext[i] {
      assert 'a' <= ext[i] <= 'z';
    }
  }

  /** The extension read back from an issued profile key is the validated
      extension, whatever characters the UUID text holds. */
  lemma IssuedKeyExtension(v: Visibility, userId: int, uuid: string, ext: string)
    requires ext in Extensions
    ensures SafeExt(ProfileKey(PrefixFor(v), userId, uuid, ext)) == ext
  {
    var stem := PrefixFor(v) + "/" + "users/" + (IntStr(userId) + "/profile/" + uuid);
    assert ProfileKey(PrefixFor(v), userId, uuid, ext) == stem + "." + ext;
    ExtensionsLowerCase(ext);
    SafeExtOfDotted(stem, ext);
  }

  /** presignGet's Content-Disposition: attachment exactly when the `as` parameter is
      "download" in any letter case. */
  function Disposition(asParam: Option<string>): (d: string)
    ensures d == "attachment" <==> asParam.Some? && EqualsIgnoreCase(asParam.value, "download")
    ensures d == "attachment" || d == "inline"
  {
    if asParam.Some? && EqualsIgnoreCase(asParam.value, "download") then "attachment" else "inline"
  }

  lemma DispositionExamples()
    ensures Disposition(Some("DOWNLOAD")) == "attachment"
    ensures Disposition(None) == "inline"
    ensures Disposition(Some("inline")) == "inline"
  {
    assert ToLower("DOWNLOAD") == "download";
    assert ToLower("inline") != ToLower("download") by {
      assert ToLower("inline")[0] == 'i';
    }
  }

  /** SafeExt lower-cases an upper-case extension. */
  lemma SafeExtUpperCase()
    ensures SafeExt("photo.JPG") == "jpg"
  {
    PhotoJpgSplits();
    SafeExtOfDotted("photo", "JPG");
    JpgLowers();
  }

  lemma PhotoJpgSplits()
    ensures "photo.JPG" == "photo" + "." + "JPG"
  {
  }

  lemma JpgLowers()
    ensures ToLower("JPG") == "jpg"
  {
    assert ToLower("JPG")[0] == 'j';
  }

  /** SafeExt reads only the text after the last dot. */
  lemma SafeExtLastDotOnly()
    ensures SafeExt("a.b.png") == "png"
  {
    assert "a.b.png" == "a.b" + "." + "png";
    SafeExtOfDotted("a.b", "png");
    ExtensionsLowerCase("png");
  }

  /** A name without a dot, and a hidden file whose only dot is its first
      character, have no extension. */
  lemma SafeExtNoExtension()
    ensures SafeExt("photo") == ""
    ensures SafeExt(".jpg") == ""
  {
    assert ".jpg" == "" + "." + "jpg";
    LastDot("", "jpg");
  }
}
