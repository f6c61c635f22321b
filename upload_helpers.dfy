/** Checking, naming, uploading and deleting show images in the storage bucket. */
module UploadHelpers {
  import opened Wrappers
  import opened Strings

  const BUCKET_NAME := "function-images"
  /** 5 MiB. */
  const MAX_FILE_SIZE := 5 * 1024 * 1024
  const ALLOWED_TYPES := ["image/jpeg", "image/png", "image/webp", "image/jpg"]
  const TYPE_ERROR := "Tipo de archivo no permitido. Usa JPG, PNG o WebP"
  const SIZE_ERROR := "La imagen es muy grande. Tamaño máximo: 5MB"
  const UPLOAD_ERROR_PREFIX := "Error al subir imagen: "

  /** The parts of a browser `File` the helpers read. */
  datatype ImageFile = ImageFile(name: string, mimeType: string, size: int)

  datatype Validation = Validation(valid: bool, error: Option<string>)

  datatype UploadResult = UploadResult(success: bool, url: Option<string>, error: Option<string>)

  /** The storage service's answer to an upload. */
  datatype StorageAnswer = StorageError(message: string) | Stored(path: string)

  /**
   * `validateImageFile`: the type is checked first, then the size; a file
   * is valid when both pass, and then carries no error.
   */
  function ValidateImageFile(file: ImageFile): (r: Validation)
    ensures r.valid <==> file.mimeType in ALLOWED_TYPES && file.size <= MAX_FILE_SIZE
    ensures r.valid <==> r.error == None
    ensures file.mimeType !in ALLOWED_TYPES ==> r.error == Some(TYPE_ERROR)
    ensures file.mimeType in ALLOWED_TYPES && file.size > MAX_FILE_SIZE ==> r.error == Some(SIZE_ERROR)
  {
    if file.mimeType !in ALLOWED_TYPES then Validation(false, Some(TYPE_ERROR))
    else if file.size > MAX_FILE_SIZE then Validation(false, Some(SIZE_ERROR))
    else Validation(true, None)
  }

  /** `name.split('.').pop()`: the text after the last '.', or the whole name without one. */
  function Extension(name: string): (r: string)
    ensures IsSuffix(r, name) && '.' !in r
    ensures |r| < |name| ==> name[|name| - |r| - 1] == '.'
    ensures '.' !in name ==> r == name
  {
    LastSegment(name, '.')
  }

  /** The stored name: timestamp, '-', random text, '.', and the original extension. */
  function GeneratedFileName(timestamp: nat, randomString: string, name: string): (r: string)
    ensures IsSuffix("." + Extension(name), r)
    ensures IsPrefix(DecimalString(timestamp) + "-" + randomString, r)
    ensures |r| == |DecimalString(timestamp)| + 1 + |randomString| + 1 + |Extension(name)|
  {
    var stem := DecimalString(timestamp) + "-" + randomString;
    var r := stem + "." + Extension(name);
    assert r[..|stem|] == stem;
    assert r[|r| - |"." + Extension(name)|..] == "." + Extension(name);
    r
  }

  /**
   * `uploadFunctionImage`: `timestamp` and `randomString` stand for
   * `Date.now()` and the random text, `upload` for the storage service's
   * answer to an upload under a given name and `publicUrl` for its public
   * URL of a stored path. `uploadedAs` is the name the file was uploaded
   * under, or None when no upload was attempted.
   */
  method UploadFunctionImage(file: ImageFile, timestamp: nat, randomString: string,
                             upload: string -> StorageAnswer, publicUrl: string -> string)
    returns (r: UploadResult, uploadedAs: Option<string>)
    ensures !ValidateImageFile(file).valid ==>
      uploadedAs == None && r == UploadResult(false, None, ValidateImageFile(file).error)
    ensures ValidateImageFile(file).valid ==>
      uploadedAs == Some(GeneratedFileName(timestamp, randomString, file.name))
    ensures uploadedAs.Some? ==> (r.success <==> upload(uploadedAs.value).Stored?)
    ensures uploadedAs.Some? && upload(uploadedAs.value).Stored? ==>
      r == UploadResult(true, Some(publicUrl(upload(uploadedAs.value).path)), None)
    ensures uploadedAs.Some? && upload(uploadedAs.value).StorageError? ==>
      r == UploadResult(false, None, Some(UPLOAD_ERROR_PREFIX + upload(uploadedAs.value).message))
  {
    if file.mimeType !in ALLOWED_TYPES {
      return UploadResult(false, None, Some(TYPE_ERROR)), None;
    }
    if file.size > MAX_FILE_SIZE {
      return UploadResult(false, None, Some(SIZE_ERROR)), None;
    }
    var extension := Extension(file.name);
    var fileName := DecimalString(timestamp) + "-" + randomString + "." + extension;
    uploadedAs := Some(fileName);
    var answer := upload(fileName);
    match answer
    case StorageError(message) =>
      r := UploadResult(false, None, Some(UPLOAD_ERROR_PREFIX + message));
    case Stored(path) =>
      r := UploadResult(true, Some(publicUrl(path)), None);
  }

  /**
   * `deleteFunctionImage`: `removeFails` stands for the storage service
   * reporting an error when removing a path. `removed` is the path whose
   * removal was requested, or None when the URL names no stored file.
   */
  method DeleteFunctionImage(imageUrl: string, removeFails: string -> bool)
    returns (ok: bool, removed: Option<string>)
    ensures !Contains(imageUrl, BUCKET_NAME + "/") ==> !ok && removed == None
    ensures Contains(imageUrl, BUCKET_NAME + "/") ==>
      && removed == SecondPart(imageUrl, BUCKET_NAME + "/")
      && removed.Some?
      && ok == !removeFails(removed.value)
  {
    var filePath := SecondPart(imageUrl, BUCKET_NAME + "/");
    if filePath.None? {
      return false, None;
    }
    removed := filePath;
    if removeFails(filePath.value) {
      return false, removed;
    }
    return true, removed;
  }

  /** The size limit is inclusive: exactly 5 MiB passes, one byte more does not. */
  lemma SizeLimitInclusive(name: string)
    ensures ValidateImageFile(ImageFile(name, "image/png", 5242880)).valid
    ensures ValidateImageFile(ImageFile(name, "image/png", 5242881)).error == Some(SIZE_ERROR)
    ensures ValidateImageFile(ImageFile(name, "image/gif", 5242881)).error == Some(TYPE_ERROR)
  {
  }
}
