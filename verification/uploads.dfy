/** The request validation shared by the two upload routes: the
    extension allow-list check `_allowed_file` and the 204 / 400 / accept
    decision taken before any processing. A request is its method and its
    multipart file parts, each part name mapped to the uploaded file's
    name. */
module Uploads {
  import opened Base
  import opened Text

  /** `_allowed_file(name)`: the name has a '.', and the text after the
      last one, lower-cased, is an allowed extension. */
  predicate AllowedFile(name: string, exts: set<string>) {
    Contains(name, '.') && Extension(name) in exts
  }

  /** Reference reading of the same rule: some '.' in the name has no
      '.' after it, and what follows it, lower-cased, is allowed. */
  ghost predicate HasAllowedExtension(name: string, exts: set<string>) {
    exists i: nat :: ExtensionAt(name, i, exts)
  }

  /** The '.' at `i` is the last one and what follows it is allowed. */
  predicate ExtensionAt(name: string, i: nat, exts: set<string>) {
    i < |name| && name[i] == '.' && NoDotAfter(name, i) && PyLower(name[i + 1..]) in exts
  }

  predicate NoDotAfter(name: string, i: nat) {
    forall j :: i < j < |name| ==> name[j] != '.'
  }

  lemma AllowedFileIff(name: string, exts: set<string>)
    ensures AllowedFile(name, exts) <==> HasAllowedExtension(name, exts)
  {
    if AllowedFile(name, exts) {
      AllowedFileHasDot(name, exts);
    }
    if HasAllowedExtension(name, exts) {
      var i: nat :| ExtensionAt(name, i, exts);
      DotExtension(name, i);
    }
  }

  lemma AllowedFileHasDot(name: string, exts: set<string>)
    requires AllowedFile(name, exts)
    ensures HasAllowedExtension(name, exts)
  {
    var i := LastIndexOf(name, '.').value;
    assert AfterLast(name, '.') == name[i + 1..];
    assert ExtensionAt(name, i, exts);
  }

  /** The extension is what follows a dot with no dot after it. */
  lemma DotExtension(name: string, i: nat)
    requires i < |name| && name[i] == '.' && NoDotAfter(name, i)
    ensures Contains(name, '.') && Extension(name) == PyLower(name[i + 1..])
  {
    LastIndexOfIsLast(name, '.', i);
  }

  /** The lower-cased text after the last '.'. */
  function Extension(name: string): string
    requires Contains(name, '.')
  {
    PyLower(AfterLast(name, '.'))
  }

  /** The lower-cased name ends in '.' followed by its extension. */
  lemma LowerEndsWithExtension(name: string)
    requires Contains(name, '.')
    ensures EndsWith(PyLower(name), "." + Extension(name))
  {
    var i := LastIndexOf(name, '.').value;
    var ext := AfterLast(name, '.');
    var low := PyLower(name);
    assert name[i..] == [name[i]] + ext;
    PyLowerSuffix(name, i);
    PyLowerCons(name[i], ext);
    assert low[i..] == "." + Extension(name);
  }

  /** A dot with no dot after it is the one `rsplit` splits at. */
  lemma LastIndexOfIsLast(name: string, c: char, i: nat)
    requires i < |name| && name[i] == c
    requires forall j :: i < j < |name| ==> name[j] != c
    ensures LastIndexOf(name, c) == Some(i)
  {
  }

  datatype Method = Options | Post

  datatype Rejection = MissingPart | InvalidFile

  /** What a route does with a request before touching the file:
      answer a CORS preflight, reject it, or accept it and save the
      upload under a temporary name ending in `suffix`. */
  datatype Decision = Preflight | Reject(reason: Rejection) | Accept(suffix: string)

  /** The checks of an upload route, in their order: OPTIONS first, then
      the presence of the file part `part`, then its name. */
  function Validate(verb: Method, files: map<string, string>, part: string, exts: set<string>): (d: Decision)
    ensures d.Preflight? <==> verb.Options?
    ensures d == Reject(MissingPart) <==> verb.Post? && part !in files
    ensures d == Reject(InvalidFile) <==>
      verb.Post? && part in files && !HasAllowedExtension(files[part], exts)
    ensures verb.Post? && part in files && files[part] == "" ==> d == Reject(InvalidFile)
    ensures d.Accept? ==> 1 <= |d.suffix| && d.suffix[0] == '.' && d.suffix[1..] in exts
    ensures d.Accept? ==> part in files && EndsWith(PyLower(files[part]), d.suffix)
  {
    if verb.Options? then Preflight
    else if part !in files then Reject(MissingPart)
    else
      var name := files[part];
      AllowedFileIff(name, exts);
      if name == "" || !AllowedFile(name, exts) then Reject(InvalidFile)
      else
        LowerEndsWithExtension(name);
        Accept("." + Extension(name))
  }

  /** A name made of a stem, a '.' and a dotless extension: the
      extension is what `rsplit` yields, whatever the stem holds. */
  lemma StemDotExtension(stem: string, ext: string)
    requires forall j :: 0 <= j < |ext| ==> ext[j] != '.'
    ensures Contains(stem + "." + ext, '.') && Extension(stem + "." + ext) == PyLower(ext)
  {
    var name := stem + "." + ext;
    var i := |stem|;
    assert name[i] == '.' && name[i + 1..] == ext;
    assert NoDotAfter(name, i) by {
      forall j | i < j < |name| ensures name[j] != '.' {
        assert name[j] == ext[j - i - 1];
      }
    }
    DotExtension(name, i);
  }

  /** Only the last extension counts and case does not matter: a POSTed
      name ending in '.' and a dotless extension is accepted, with that
      extension lower-cased as the suffix, exactly when the lower-cased
      extension is allowed. */
  lemma LastExtensionDecides(files: map<string, string>, part: string, exts: set<string>,
                             stem: string, ext: string)
    requires part in files && files[part] == stem + "." + ext
    requires forall j :: 0 <= j < |ext| ==> ext[j] != '.'
    ensures PyLower(ext) in exts ==> Validate(Post, files, part, exts) == Accept("." + PyLower(ext))
    ensures PyLower(ext) !in exts ==> Validate(Post, files, part, exts) == Reject(InvalidFile)
  {
    StemDotExtension(stem, ext);
  }

  /** What the route sends back. */
  datatype Reply<T> = NoContent | BadRequest(reason: Rejection) | Processed(result: T) | ServerError(error: string) {
    function Status(): nat {
      match this
      case NoContent => 204
      case BadRequest(_) => 400
      case Processed(_) => 200
      case ServerError(_) => 500
    }

    /** The `error` field of the JSON body when the file part is named
        `part`. The invalid-file text lists the allowed extensions in
        Python's set iteration order and is not modelled (`None`), as are
        bodies without an `error` field. */
    function ErrorText(part: string): Option<string> {
      match this
      case BadRequest(MissingPart) => Some("No " + part + " file in request")
      case ServerError(e) => Some(e)
      case _ => None
    }
  }
}
