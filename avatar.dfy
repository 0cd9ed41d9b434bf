/**
 * The pure parts of avatar storage: the checks a file must pass, the object
 * path it is stored under, and the paths removed when a user's avatars are
 * deleted. The storage calls are represented by their outcomes.
 */
module Avatar {
  import opened Wrappers
  import opened JsText

  const MaxAvatarSize := 5 * 1024 * 1024
  const NotAnImageMessage := "File must be an image"
  const TooLargeMessage := "Image size must be less than 5MB"
  const ImageTypePrefix := "image/"

  datatype AvatarFile = AvatarFile(name: string, mimeType: string, size: nat)

  /** The two checks in order: the media type first, then the size. */
  function CheckAvatar(file: AvatarFile): (r: Option<string>)
    ensures r.None? <==> StartsWith(file.mimeType, ImageTypePrefix) && file.size <= MaxAvatarSize
    ensures !StartsWith(file.mimeType, ImageTypePrefix) ==> r == Some(NotAnImageMessage)
    ensures StartsWith(file.mimeType, ImageTypePrefix) && file.size > MaxAvatarSize ==> r == Some(TooLargeMessage)
  {
    if !StartsWith(file.mimeType, ImageTypePrefix) then Some(NotAnImageMessage)
    else if file.size > MaxAvatarSize then Some(TooLargeMessage)
    else None
  }

  /** An image of exactly 5 MB passes; one byte more does not. */
  lemma SizeBoundary(name: string, mimeType: string)
    requires StartsWith(mimeType, ImageTypePrefix)
    ensures CheckAvatar(AvatarFile(name, mimeType, 5242880)).None?
    ensures CheckAvatar(AvatarFile(name, mimeType, 5242881)) == Some(TooLargeMessage)
  {
  }

  /** `name.split('.').pop()`: the text after the last dot, or the whole name. */
  function FileExtension(name: string): (r: string)
    ensures '.' !in r
    ensures |r| <= |name| && name[|name| - |r|..] == r
    ensures |r| < |name| ==> name[|name| - |r| - 1] == '.'
    ensures '.' !in name ==> r == name
  {
    if name == [] then []
    else if name[|name| - 1] == '.' then []
    else FileExtension(name[..|name| - 1]) + [name[|name| - 1]]
  }

  /** Whatever precedes the last dot does not change the extension. */
  lemma {:induction false} FileExtensionAfterDot(stem: string, ext: string)
    requires '.' !in ext
    ensures FileExtension(stem + "." + ext) == ext
  {
    if ext != [] {
      var s := stem + "." + ext;
      assert s[..|s| - 1] == stem + "." + ext[..|ext| - 1];
      FileExtensionAfterDot(stem, ext[..|ext| - 1]);
    }
  }

  /** The stored object's name inside the user's folder: `${Date.now()}.${ext}`. */
  function ObjectName(file: AvatarFile, now: nat): string {
    DecimalString(now) + "." + FileExtension(file.name)
  }

  datatype UploadPlan = Rejected(reason: string) | Upload(path: string)

  /** What `uploadAvatar` does before calling storage: reject the file, or
      name the path `userId/now.ext` it uploads to. */
  function PlanUpload(file: AvatarFile, userId: string, now: nat): (r: UploadPlan)
    ensures r.Rejected? <==> CheckAvatar(file).Some?
    ensures r.Rejected? ==> r.reason == CheckAvatar(file).value
    ensures r.Upload? ==> r.path == userId + "/" + ObjectName(file, now)
  {
    match CheckAvatar(file)
    case Some(reason) => Rejected(reason)
    case None => Upload(userId + "/" + ObjectName(file, now))
  }

  /** The stored name keeps the file's extension and leads with the timestamp's digits. */
  lemma ObjectNameParts(file: AvatarFile, now: nat)
    ensures FileExtension(ObjectName(file, now)) == FileExtension(file.name)
    ensures var digits := DecimalString(now);
      ObjectName(file, now)[..|digits|] == digits && ObjectName(file, now)[|digits|] == '.'
  {
    var digits := DecimalString(now);
    var ext := FileExtension(file.name);
    var name := ObjectName(file, now);
    assert name == digits + ("." + ext);
    assert name[..|digits|] == digits;
    FileExtensionAfterDot(digits, ext);
  }

  /** `parseInt` of a stored object name gives back the upload's timestamp. */
  lemma ObjectNameParsesToTimestamp(file: AvatarFile, now: nat)
    ensures ParseInt(ObjectName(file, now)) == Some(now as int)
  {
    var ext := FileExtension(file.name);
    assert ObjectName(file, now) == DecimalString(now) + ("." + ext);
    ParseIntOfDecimalThen(now, "." + ext);
  }

  /** The storage upload's outcome: an error, or the path it stored. */
  datatype StorageUpload = UploadFailed | Uploaded(path: string)

  /** `uploadAvatar`'s result: the public URL of the stored path, or null when
      a check fails (the thrown error is caught) or storage reports an error. */
  function UploadAvatarResult(file: AvatarFile, upload: StorageUpload, publicUrl: string -> string): (r: Option<string>)
    ensures r.Some? <==> CheckAvatar(file).None? && upload.Uploaded?
    ensures r.Some? ==> r.value == publicUrl(upload.path)
  {
    if CheckAvatar(file).Some? then None
    else match upload
      case UploadFailed => None
      case Uploaded(path) => Some(publicUrl(path))
  }

  /** `files.map(file => `${userId}/${file.name}`)` */
  function DeletePaths(userId: string, names: seq<string>): (r: seq<string>)
    ensures |r| == |names|
    ensures forall i :: 0 <= i < |names| ==> r[i] == userId + "/" + names[i]
  {
    if names == [] then [] else [userId + "/" + names[0]] + DeletePaths(userId, names[1..])
  }

  /** Listing the folder in two pieces lists the paths in the same two pieces. */
  lemma {:induction false} DeletePathsAppend(userId: string, a: seq<string>, b: seq<string>)
    ensures DeletePaths(userId, a + b) == DeletePaths(userId, a) + DeletePaths(userId, b)
  {
    if a != [] {
      assert (a + b)[1..] == a[1..] + b;
      DeletePathsAppend(userId, a[1..], b);
    } else {
      assert a + b == b;
    }
  }

  /** The storage listing's outcome: an error, or the names in the folder. */
  datatype Listing = ListFailed | Listed(names: seq<string>)

  datatype DeletePlan = GiveUp | NothingToRemove | Remove(paths: seq<string>)

  /** What `deleteAvatar` does after listing: report failure, succeed without
      a remove call, or remove the listed paths. */
  function PlanDelete(userId: string, listing: Listing): (r: DeletePlan)
    ensures r.GiveUp? <==> listing.ListFailed?
    ensures r.NothingToRemove? <==> listing == Listed([])
    ensures r.Remove? ==> |r.paths| > 0 && r.paths == DeletePaths(userId, listing.names)
  {
    match listing
    case ListFailed => GiveUp
    case Listed(names) => if |names| > 0 then Remove(DeletePaths(userId, names)) else NothingToRemove
  }

  /** `deleteAvatar`'s result, given whether the remove call reported an error. */
  function DeleteAvatarResult(plan: DeletePlan, removeFailed: bool): (r: bool)
    ensures r <==> plan.NothingToRemove? || (plan.Remove? && !removeFailed)
  {
    match plan
    case GiveUp => false
    case NothingToRemove => true
    case Remove(_) => !removeFailed
  }

  /** An avatar that was uploaded and is listed by its name in the user's
      folder is removed, under exactly the path it was uploaded to. */
  lemma UploadedAvatarIsRemoved(file: AvatarFile, userId: string, now: nat, names: seq<string>)
    requires PlanUpload(file, userId, now).Upload?
    requires ObjectName(file, now) in names
    ensures PlanDelete(userId, Listed(names)).Remove?
    ensures PlanUpload(file, userId, now).path in PlanDelete(userId, Listed(names)).paths
  {
    var i :| 0 <= i < |names| && names[i] == ObjectName(file, now);
    assert DeletePaths(userId, names)[i] == PlanUpload(file, userId, now).path;
  }
}
