/** `validateFile` of the upload form: the same extension allow-list as the
    server, taken with `substring` instead of `slice`, then a 5 MiB ceiling,
    checked in that order. */
module FileUploadForm {
  import opened Wrappers
  import opened Text
  import Upload

  const AllowedTypes: seq<string> := [".pdf", ".docx", ".jpg", ".jpeg", ".png"]

  /** 5 MiB. */
  const MaxSize: nat := 5 * 1024 * 1024

  const TypeMessage: string := "Only PDF, DOCX, JPG, and PNG files are allowed"
  const SizeMessage: string := "File size must be less than 5MB"

  /** `file.name.toLowerCase().substring(file.name.lastIndexOf('.'))`. */
  function Extension(name: string): (ext: string)
    ensures '.' in name ==> ext == Upload.Extension(name)
    ensures '.' !in name ==> ext == Lower(name)
  {
    SubstringFrom(Lower(name), LastIndexOf(name, '.'))
  }

  /** The type check of `validateFile`; only a name with a dot can pass. */
  predicate TypeAllowed(name: string): (allowed: bool)
    ensures allowed ==> '.' in name
  {
    LowerKeepsDots(name);
    Extension(name) in AllowedTypes
  }

  /** `validateFile`: the error message to show, or None when the file may be sent. */
  function ValidateFile(name: string, size: nat): (error: Option<string>)
    ensures error == None <==> TypeAllowed(name) && size <= MaxSize
    ensures !TypeAllowed(name) ==> error == Some(TypeMessage)
    ensures TypeAllowed(name) && size > MaxSize ==> error == Some(SizeMessage)
  {
    if !TypeAllowed(name) then Some(TypeMessage)
    else if size > MaxSize then Some(SizeMessage)
    else None
  }

  /** Lower-casing never produces a dot from anything but a dot. */
  lemma LowerKeepsDots(s: string)
    ensures ('.' in Lower(s)) <==> ('.' in s)
  {
    if '.' in s {
      var i :| 0 <= i < |s| && s[i] == '.';
      assert Lower(s)[i] == '.';
    }
  }

  /** The client's and the server's extension checks accept exactly the same
      names: with a dot both take the lower-cased suffix from the last dot;
      without one the client compares the whole name and the server its last
      character, and neither holds a dot, which every allowed extension has. */
  lemma ExtensionChecksAgree(name: string)
    ensures TypeAllowed(name) <==> Upload.FileFilter(name)
  {
    assert AllowedTypes == Upload.AllowedExtensions;
    if LastIndexOf(name, '.') < 0 {
      assert '.' !in name;
      LowerKeepsDots(name);
      Upload.NoDotIsRejected(name);
      assert Extension(name) == Lower(name);
    }
  }

  /** The form lets a file through exactly when the server's filter accepts its
      name and the size is within the server's limit. */
  lemma FormAgreesWithServer(name: string, size: nat)
    ensures ValidateFile(name, size) == None <==> Upload.FileFilter(name) && size <= Upload.MaxFileSize
  {
    ExtensionChecksAgree(name);
  }

  /** The type check comes first: a disallowed file gets the type message
      whatever its size. */
  lemma TypeCheckedBeforeSize(name: string, size: nat)
    requires !Upload.FileFilter(name)
    ensures ValidateFile(name, size) == Some(TypeMessage)
  {
    ExtensionChecksAgree(name);
  }

  /** Every allowed file over the server's limit gets the size message. */
  lemma OversizeGetsSizeMessage(name: string, size: nat)
    requires Upload.FileFilter(name) && size > Upload.MaxFileSize
    ensures ValidateFile(name, size) == Some(SizeMessage)
  {
    ExtensionChecksAgree(name);
  }

  /** The size check is strict: exactly 5 MiB passes, one byte more does not. */
  lemma SizeBoundary(name: string)
    requires Upload.FileFilter(name)
    ensures ValidateFile(name, 5242880) == None
    ensures ValidateFile(name, 5242881) == Some(SizeMessage)
  {
    ExtensionChecksAgree(name);
  }
}
