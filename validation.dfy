/**
 * Client-side image checks (src/utils/validation.ts) with the limits of src/utils/constants.ts.
 */
module Validation {
  import opened Wrappers
  import opened JsStrings
  import opened Multipart

  /** `MAX_FILE_SIZE`: 10 MiB. */
  const MAX_FILE_SIZE: nat := 10 * 1024 * 1024
  /** `ALLOWED_IMAGE_TYPES` */
  const ALLOWED_IMAGE_TYPES: seq<string> := ["image/jpeg", "image/jpg", "image/png", "image/gif"]

  const FORMAT_MSG: string := "지원되는 이미지 형식은 JPEG, PNG, GIF입니다."

  /** The size message; its number is `MAX_FILE_SIZE / 1024 / 1024`, printed in decimal. */
  function SizeMessage(): string {
    "파일 크기는 " + DecimalString(MAX_FILE_SIZE / 1024 / 1024) + "MB를 초과할 수 없습니다."
  }

  /** The size message states a limit of 10MB. */
  lemma SizeMessageSays10MB()
    ensures SizeMessage() == "파일 크기는 10MB를 초과할 수 없습니다."
  {
    assert MAX_FILE_SIZE / 1024 / 1024 == 10;
    assert DecimalString(10) == DecimalString(1) + [DigitChar(0)];
  }

  /**
   * `validateImageFile(file)`: `None` means the file passes. A missing file passes; the size
   * is checked before the type.
   */
  function ValidateImageFile(file: Option<File>): (r: Option<string>)
    ensures file.None? ==> r.None?
    ensures file.Some? && file.value.size > MAX_FILE_SIZE ==> r == Some(SizeMessage())
    ensures (file.Some? && file.value.size <= MAX_FILE_SIZE && file.value.mime !in ALLOWED_IMAGE_TYPES)
            ==> r == Some(FORMAT_MSG)
    ensures r.None? <==> file.None? || (file.value.size <= MAX_FILE_SIZE && file.value.mime in ALLOWED_IMAGE_TYPES)
  {
    match file
    case None => None
    case Some(f) =>
      if f.size > MAX_FILE_SIZE then Some(SizeMessage())
      else if f.mime !in ALLOWED_IMAGE_TYPES then Some(FORMAT_MSG)
      else None
  }

  /** A file of exactly the maximum size and an allowed type passes; one byte more does not. */
  lemma SizeBoundIsInclusive(name: string, mime: string)
    requires mime in ALLOWED_IMAGE_TYPES
    ensures ValidateImageFile(Some(File(name, MAX_FILE_SIZE, mime))).None?
    ensures ValidateImageFile(Some(File(name, MAX_FILE_SIZE + 1, mime))) == Some(SizeMessage())
  {
  }
}
