/**
 * Avatar files in the `avatars` storage bucket (`src/lib/storage.ts`): which files are accepted,
 * the name a file is stored under, and which stored file a public URL refers to.
 */
module Storage {
  import opened Common

  const MaxFileSize: nat := 5 * 1024 * 1024
  const AllowedTypes: seq<string> := ["image/jpeg", "image/png", "image/webp", "image/gif"]

  const InvalidTypeError := "Invalid file type. Please upload a JPEG, PNG, WebP, or GIF image."
  const TooLargeError := "File size too large. Maximum size is 5MB."

  /** The parts of a browser `File` the upload looks at. */
  datatype FileInfo = FileInfo(name: string, mimeType: string, size: nat)

  /** `{ url, error }`: the public URL of the stored file, or the reason it was not stored. */
  datatype UploadResult = UploadResult(url: Option<string>, error: Option<string>)

  /** A storage call's outcome: it succeeded, it answered with an error object, or it threw. */
  datatype Reply<T> = Done(value: T) | Refused(message: string) | Threw(thrown: Thrown)

  /** The checks made before anything is uploaded: the type first, then the size. */
  function Validate(file: FileInfo): (err: Option<string>)
    ensures file.mimeType !in AllowedTypes ==> err == Some(InvalidTypeError)
    ensures file.mimeType in AllowedTypes && file.size > MaxFileSize ==> err == Some(TooLargeError)
    ensures err.None? <==> file.mimeType in AllowedTypes && file.size <= MaxFileSize
  {
    if file.mimeType !in AllowedTypes then Some(InvalidTypeError)
    else if file.size > MaxFileSize then Some(TooLargeError)
    else None
  }

  /** `file.name.split('.').pop()`: the text after the last dot, or the whole name. */
  function Extension(name: string): (ext: string)
    ensures |ext| <= |name| && name[|name| - |ext|..] == ext
    ensures '.' !in ext
    ensures |ext| < |name| ==> name[|name| - |ext| - 1] == '.'
    ensures '.' !in name ==> ext == name
  {
    LastSegment(name, '.')
  }

  /** `${userId}-${Date.now()}.${fileExt}`, with the clock reading passed in as `now`: the name
      starts with the owner's id and a dash, and splitting it on dots again yields the original
      extension. */
  function StoredName(userId: string, now: nat, fileName: string): (stored: string)
    ensures |userId| + 2 + |Extension(fileName)| < |stored|
    ensures stored[..|userId| + 1] == userId + "-"
    ensures Extension(stored) == Extension(fileName)
  {
    var ext := Extension(fileName);
    var front := userId + "-" + NatToString(now);
    LastSegmentOfJoin(front, '.', ext);
    JoinedParts(front + ['.'] + ext, userId + "-", NatToString(now), ext);
    front + ['.'] + ext
  }

  /** The text between the owner's dash and the extension's dot is the clock reading, written
      in decimal digits. */
  lemma StoredNameHoldsClock(userId: string, now: nat, fileName: string)
    ensures var stored := StoredName(userId, now, fileName);
      stored[|userId| + 1..|stored| - |Extension(fileName)| - 1] == NatToString(now)
  {
    JoinedParts(StoredName(userId, now, fileName), userId + "-", NatToString(now), Extension(fileName));
  }

  /** Two uploads by the same user of the same file at different clock readings are stored
      under different names. */
  lemma StoredNamesDiffer(userId: string, now1: nat, now2: nat, fileName: string)
    requires now1 != now2
    ensures StoredName(userId, now1, fileName) != StoredName(userId, now2, fileName)
  {
    assert NatToString(now1) != NatToString(now2) by {
      NatToStringRoundTrip(now1);
      NatToStringRoundTrip(now2);
    }
    JoinedDiffer(userId + "-", NatToString(now1), NatToString(now2), Extension(fileName));
  }

  /** Different middles give different joins. */
  lemma JoinedDiffer(head: string, middle1: string, middle2: string, tail: string)
    requires middle1 != middle2
    ensures head + middle1 + ['.'] + tail != head + middle2 + ['.'] + tail
  {
    var joined1, joined2 := head + middle1 + ['.'] + tail, head + middle2 + ['.'] + tail;
    JoinedParts(joined1, head, middle1, tail);
    JoinedParts(joined2, head, middle2, tail);
  }

  /** Where each part of `head + middle + "." + tail` sits. */
  lemma JoinedParts(joined: string, head: string, middle: string, tail: string)
    requires joined == head + middle + ['.'] + tail
    ensures joined[..|head|] == head && joined[|head|..|joined| - |tail| - 1] == middle
  {
    assert joined == head + (middle + ['.'] + tail);
    assert (middle + ['.'] + tail)[..|middle|] == middle;
  }

  /** `uploadAvatar`. `resizeThrown` is what resizing threw, if anything; `upload` is the
      storage reply (the stored path on success); `publicUrlOf` gives a stored path's public URL.
      `storedAs` is the name the file was uploaded under, None when no upload was attempted. */
  method UploadAvatar(
    file: FileInfo, userId: string, now: nat, resizeThrown: Option<Thrown>,
    upload: Reply<string>, publicUrlOf: string -> string) returns (result: UploadResult, storedAs: Option<string>)
    ensures result.url.Some? != result.error.Some?
    ensures Validate(file).Some? ==> storedAs.None? && result == UploadResult(None, Validate(file))
    ensures Validate(file).None? && resizeThrown.Some? ==>
      storedAs.None? && result == UploadResult(None, Some(ErrorMessage(resizeThrown.value, "Failed to upload image")))
    ensures Validate(file).None? && resizeThrown.None? ==> storedAs == Some(StoredName(userId, now, file.name))
    ensures storedAs.Some? && upload.Done? ==> result == UploadResult(Some(publicUrlOf(upload.value)), None)
    ensures storedAs.Some? && upload.Refused? ==> result == UploadResult(None, Some(upload.message))
    ensures storedAs.Some? && upload.Threw? ==>
      result == UploadResult(None, Some(ErrorMessage(upload.thrown, "Failed to upload image")))
  {
    var invalid := Validate(file);
    if invalid.Some? {
      return UploadResult(None, invalid), None;
    }
    if resizeThrown.Some? {
      return UploadResult(None, Some(ErrorMessage(resizeThrown.value, "Failed to upload image"))), None;
    }
    var fileName := StoredName(userId, now, file.name);
    storedAs := Some(fileName);
    match upload {
      case Done(path) => result := UploadResult(Some(publicUrlOf(path)), None);
      case Refused(message) => result := UploadResult(None, Some(message));
      case Threw(thrown) => result := UploadResult(None, Some(ErrorMessage(thrown, "Failed to upload image")));
    }
  }

  /** `avatarUrl.split('/')` and its last part: the stored file a public URL points at. */
  function FileNameOfUrl(avatarUrl: string): (name: string)
    ensures '/' !in name
    ensures |name| <= |avatarUrl| && avatarUrl[|avatarUrl| - |name|..] == name
    ensures |name| < |avatarUrl| ==> avatarUrl[|avatarUrl| - |name| - 1] == '/'
  {
    LastSegment(avatarUrl, '/')
  }

  /** A URL that ends in `/name` refers to the file stored as `name`, whatever comes before. */
  lemma FileNameOfUrlRoundTrip(base: string, name: string)
    requires '/' !in name
    ensures FileNameOfUrl(base + "/" + name) == name
  {
    LastSegmentOfJoin(base, '/', name);
  }

  /** `deleteAvatar`: asks storage to remove the URL's file and reports its reply. */
  method DeleteAvatar(avatarUrl: string, remove: Reply<()>) returns (removed: string, error: Option<string>)
    ensures removed == FileNameOfUrl(avatarUrl)
    ensures error.None? <==> remove.Done?
    ensures remove.Refused? ==> error == Some(remove.message)
    ensures remove.Threw? ==> error == Some(ErrorMessage(remove.thrown, "Failed to delete image"))
  {
    removed := FileNameOfUrl(avatarUrl);
    match remove {
      case Done(_) => error := None;
      case Refused(message) => error := Some(message);
      case Threw(thrown) => error := Some(ErrorMessage(thrown, "Failed to delete image"));
    }
  }
}
