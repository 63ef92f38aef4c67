/**
 * The slide-deck MIME types that both the upload filter of the API routes and
 * the browser form check against.
 */
module MimeTypes {
  const PdfType: string := "application/pdf"
  const PptType: string := "application/vnd.ms-powerpoint"
  const PptxType: string := "application/vnd.openxmlformats-officedocument.presentationml.presentation"
}
