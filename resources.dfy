/**
 * The files a build reads, as values: which image paths exist and their pixel
 * sizes, which WebP files fail to convert, and the Markdown notes files.
 * Path resolution against the configuration's directory is taken as done.
 */
module Resources {
  import opened Wrappers

  /** An image file: its pixel size when it can be read, otherwise unreadable. */
  datatype ImageFile = Readable(pixelWidth: nat, pixelHeight: nat) | Unreadable

  datatype Files = Files(images: map<string, ImageFile>, webpFailures: set<string>, notesFiles: map<string, string>)

  datatype NotesError = NotesNotFound(path: string)

  predicate EndsWith(s: string, suffix: string)
  {
    |suffix| <= |s| && s[|s| - |suffix|..] == suffix
  }

  /** ASCII lower case, as `str.lower` does for the characters of a file suffix. */
  function LowerChar(c: char): (d: char)
    ensures 'A' <= c <= 'Z' ==> d as int == c as int + 32
    ensures !('A' <= c <= 'Z') ==> d == c
  {
    if 'A' <= c <= 'Z' then (c as int + 32) as char else c
  }

  function Lower(s: string): (r: string)
    ensures |r| == |s| && forall i | 0 <= i < |s| :: r[i] == LowerChar(s[i])
  {
    seq(|s|, i requires 0 <= i < |s| => LowerChar(s[i]))
  }

  /** `path.suffix.lower() == ".webp"`. */
  predicate IsWebp(path: string)
  {
    EndsWith(Lower(path), ".webp")
  }

  /** `load_notes`: a source ending in ".md" names a file whose text is returned; any other source is the text. */
  function LoadNotes(files: Files, source: string): (r: Result<string, NotesError>)
    ensures !EndsWith(source, ".md") ==> r == Success(source)
    ensures EndsWith(source, ".md") ==> (r.Success? <==> source in files.notesFiles)
    ensures EndsWith(source, ".md") && r.Success? ==> r.value == files.notesFiles[source]
    ensures r.Failure? ==> r.error == NotesNotFound(source)
  {
    if !EndsWith(source, ".md") then Success(source)
    else if source in files.notesFiles then Success(files.notesFiles[source])
    else Failure(NotesNotFound(source))
  }

  /** Upper and lower case spellings of the suffix are both WebP. */
  lemma WebpSuffixIgnoresCase()
    ensures IsWebp("photo.webp") && IsWebp("photo.WEBP") && IsWebp("photo.WebP")
    ensures !IsWebp("photo.png") && !IsWebp("webp")
  {
    assert Lower("photo.WEBP") == "photo.webp";
    assert Lower("photo.WebP") == "photo.webp";
    assert Lower("photo.png")[4] == 'o';
    assert |Lower("webp")| < |".webp"|;
  }
}
