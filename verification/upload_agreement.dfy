/** How the screen's upload checks relate to the routes' checks. The
    screen accepts a video by MIME type or by name and an image by MIME
    type only; the routes look only at the name. */
module UploadAgreement {
  import opened Base
  import opened Text
  import opened Uploads
  import opened VideoRoute
  import opened ImageRoute
  import opened ObjectScreen

  predicate Ascii(s: string) {
    forall i :: 0 <= i < |s| ==> (s[i] as int) < 128
  }

  /** On ASCII text Python's lower-casing is the `/i` folding. */
  lemma AsciiLowerAgrees(s: string)
    requires Ascii(s)
    ensures PyLower(s) == AsciiLowerString(s)
  {
    forall i | 0 <= i < |s| ensures PyLower(s)[i] == AsciiLowerString(s)[i] {
      assert (s[i] as int) < 128;
    }
  }

  /** The screen's regular expression lists the route's video
      extensions, no more and no fewer. */
  lemma EndingsAreExtensions()
    ensures forall e :: e in VideoEndings <==> e in VideoExtensions
  {
  }

  lemma AsciiSuffix(s: string, i: nat)
    requires Ascii(s) && i <= |s|
    ensures Ascii(s[i..])
  {
    forall j | 0 <= j < |s| - i ensures (s[i..][j] as int) < 128 {
      assert s[i..][j] == s[i + j];
    }
  }

  /** An ASCII name with a dot ends, under `/i` folding, in '.' and its
      Python extension. */
  lemma FoldedEndingOfExtension(name: string)
    requires Ascii(name) && Contains(name, '.')
    ensures EndsWithFolded(name, "." + Extension(name))
  {
    var i := LastIndexOf(name, '.').value;
    var ext := name[i + 1..];
    assert Extension(name) == PyLower(ext);
    AsciiSuffix(name, i + 1);
    AsciiLowerAgrees(ext);
    assert name[i..] == [name[i]] + ext;
    AsciiLowerCons(name[i], ext);
    assert name[|name| - |"." + Extension(name)|..] == name[i..];
  }

  /** An ASCII video name the route accepts is also accepted by the
      screen, whatever MIME type the browser reports. */
  lemma RouteAcceptedVideoNamePassesScreen(name: string, mime: string)
    requires Ascii(name) && AllowedFile(name, VideoExtensions)
    ensures PickVideo(Some(FileInfo(name, mime))).Send?
  {
    var e := Extension(name);
    FoldedEndingOfExtension(name);
    EndingsAreExtensions();
    assert e in VideoEndings && EndsWithFolded(name, "." + e);
  }

  /** A file without an extension that the browser types as MP4 passes
      the screen and is refused by the route. */
  lemma TypedNamelessVideoRefusedByRoute()
    ensures PickVideo(Some(FileInfo("clip", "video/mp4"))).Send?
    ensures Validate(Post, map[VideoPart := "clip"], VideoPart, VideoExtensions) == Reject(InvalidFile)
  {
    var c := "clip";
    assert !HasAllowedExtension(c, VideoExtensions) by {
      AllowedFileIff(c, VideoExtensions);
      assert forall j :: 0 <= j < |c| ==> c[j] != '.';
    }
  }

  /** A single character of the name that does not fold to the ending's
      character rules that ending out. */
  lemma FoldMismatch(name: string, suffix: string, j: nat)
    requires |suffix| <= |name| && j < |suffix|
    requires AsciiLower(name[|name| - |suffix| + j]) != suffix[j]
    ensures !EndsWithFolded(name, suffix)
  {
    var tail := AsciiLowerString(name[|name| - |suffix|..]);
    assert tail[j] != suffix[j];
  }

  lemma VideoEndingCases(e: string)
    requires e in VideoEndings
    ensures e == "mp4" || e == "avi" || e == "mov" || e == "mkv" || e == "webm"
  {
  }

  /** "a.mKv" with a KELVIN SIGN has no video ending under `/i`: its last
      character 'v' rules out ".mp4", ".avi" and ".webm", and the KELVIN
      SIGN before it, which `/i` does not fold, rules out ".mov" and
      ".mkv". */
  lemma KelvinNameUnmatched()
    ensures !VideoNameMatches("a.m\U{212A}v")
  {
    var n := "a.m\U{212A}v";
    assert |n| == 5 && n[3] == '\U{212A}' && n[4] == 'v';
    forall e | e in VideoEndings ensures !EndsWithFolded(n, "." + e) {
      VideoEndingCases(e);
      var t := "." + e;
      if e == "mov" || e == "mkv" {
        FoldMismatch(n, t, 2);
      } else {
        FoldMismatch(n, t, |t| - 1);
      }
    }
  }

  /** Python lower-cases the same name's extension to "mkv". */
  lemma KelvinNameAllowed()
    ensures AllowedFile("a.m\U{212A}v", VideoExtensions)
  {
    var n := "a.m\U{212A}v";
    assert n[1] == '.';
    LastIndexOfIsLast(n, '.', 1);
    assert AfterLast(n, '.') == "m\U{212A}v";
    var l := PyLower("m\U{212A}v");
    assert l[0] == 'm' && l[1] == 'k' && l[2] == 'v';
    assert l == "mkv";
  }

  /** A non-ASCII name whose Python lower case is allowed: the route takes
      "a.mKv" (KELVIN SIGN lowers to 'k'), the screen's `/i` does not
      fold it and, without a video MIME type, refuses it. */
  lemma KelvinSignNameOnlyRouteAccepts()
    ensures AllowedFile("a.m\U{212A}v", VideoExtensions)
    ensures PickVideo(Some(FileInfo("a.m\U{212A}v", ""))).Refused?
  {
    KelvinNameAllowed();
    KelvinNameUnmatched();
  }

  /** The screen sends an image by MIME type alone: a GIF name typed as
      PNG is sent, and the route refuses it. */
  lemma MistypedImageRefusedByRoute()
    ensures PickImage(Some(FileInfo("photo.gif", "image/png"))).Send?
    ensures Validate(Post, map[ImagePart := "photo.gif"], ImagePart, ImageExtensions) == Reject(InvalidFile)
  {
    var g := "photo.gif";
    assert g[5] == '.';
    LastIndexOfIsLast(g, '.', 5);
    assert AfterLast(g, '.') == "gif";
    PyLowerUnchanged("gif");
    assert !AllowedFile(g, ImageExtensions);
    AllowedFileIff(g, ImageExtensions);
  }

  /** A JPEG name the browser did not type is refused by the screen,
      though the route would take it. */
  lemma UntypedImageRefusedByScreen()
    ensures PickImage(Some(FileInfo("photo.jpg", ""))).Refused?
    ensures AllowedFile("photo.jpg", ImageExtensions)
  {
    var j := "photo.jpg";
    assert j[5] == '.';
    LastIndexOfIsLast(j, '.', 5);
    assert AfterLast(j, '.') == "jpg";
    PyLowerUnchanged("jpg");
  }
}
