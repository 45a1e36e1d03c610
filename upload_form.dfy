/**
 * The upload form's file check: a name ending in `.csv` or `.xlsx`
 * (compared lower-cased) and, when the size is known and non-zero, at most
 * ten mebibytes. A file that passes comes back as it was.
 */
module UploadForm {
  import opened Wrappers
  import opened Strings

  const AllowedExts: seq<string> := [".csv", ".xlsx"]

  /** The upload size limit in bytes. */
  const MaxSize: nat := 10 * 1024 * 1024

  /** An uploaded file as the form sees it: its name and its size (None when unknown). */
  datatype Upload = Upload(name: string, size: Option<nat>)

  /** The lower-cased name ends with one of the allowed extensions. */
  predicate AllowedName(name: string) {
    exists k :: 0 <= k < |AllowedExts| && EndsWith(Lower(name), AllowedExts[k])
  }

  /** `clean_file`: the extension check first, then the size guard, which a missing or zero size skips. */
  function CleanFile(f: Upload): (r: Result<Upload, string>)
    ensures r.Ok? <==> AllowedName(f.name) && !(f.size.Some? && f.size.value > MaxSize)
    ensures r.Ok? ==> r.value == f
    ensures !AllowedName(f.name) ==> r == Err("Please upload a .csv or .xlsx file.")
    ensures AllowedName(f.name) && r.Err? ==> r.error == "File is too large (limit: 10MB)."
  {
    var name := Lower(f.name);
    if !(EndsWith(name, AllowedExts[0]) || EndsWith(name, AllowedExts[1])) then
      Err("Please upload a .csv or .xlsx file.")
    else if f.size.Some? && f.size.value != 0 && f.size.value > MaxSize then
      Err("File is too large (limit: 10MB).")
    else
      Ok(f)
  }

  /** The limit itself is allowed and one byte more is not; a zero or unknown size never fails the guard. */
  lemma SizeBoundary(name: string)
    requires AllowedName(name)
    ensures CleanFile(Upload(name, Some(MaxSize))).Ok?
    ensures CleanFile(Upload(name, Some(MaxSize + 1))).Err?
    ensures CleanFile(Upload(name, Some(0))).Ok? && CleanFile(Upload(name, None)).Ok?
  {
  }

  /** Upper- and mixed-case extensions pass as lower-case ones do. */
  lemma ExtensionCaseInsensitive(stem: string)
    ensures AllowedName(stem + ".CSV") && AllowedName(stem + ".Xlsx")
  {
    var a, b := stem + ".CSV", stem + ".Xlsx";
    LowerConcat(stem, ".CSV");
    LowerConcat(stem, ".Xlsx");
    assert Lower(".CSV") == ".csv";
    assert Lower(".Xlsx") == ".xlsx";
    assert EndsWith(Lower(a), AllowedExts[0]);
    assert EndsWith(Lower(b), AllowedExts[1]);
  }
}
