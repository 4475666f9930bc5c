/**
 * The glob lists of sw-precache-config.js: per-directory globs built by a
 * loop over a fixed list of extensions, the PDF.js list, and the full
 * `staticFileGlobs` list handed to the service-worker precache.
 */
module PrecacheConfig {

  /** The extensions of `createCommonGlobsForStaticAssetsAtPath`, in order. */
  const STATIC_ASSET_EXTENSIONS: seq<string> := ["css", "html", "png", "svg", "ico", "woff2"]

  /** The extensions of `createCommonGlobsForPath`, in order. */
  const PATH_EXTENSIONS: seq<string> := ["css", "js", "html", "png", "svg", "ico", "woff2"]

  /** The glob for every file with extension `ext` anywhere under `path`. */
  function Glob(path: string, ext: string): string {
    path + "/**/*." + ext
  }

  /** One glob per extension, in the order of the extensions. */
  function GlobsFor(path: string, exts: seq<string>): seq<string>
    decreases |exts|
  {
    if exts == [] then [] else [Glob(path, exts[0])] + GlobsFor(path, exts[1..])
  }

  lemma {:induction false} GlobsForShape(path: string, exts: seq<string>)
    ensures |GlobsFor(path, exts)| == |exts|
    ensures forall i :: 0 <= i < |exts| ==> GlobsFor(path, exts)[i] == Glob(path, exts[i])
    decreases |exts|
  {
    if exts != [] {
      GlobsForShape(path, exts[1..]);
    }
  }

  /** A glob determines its directory prefix and, for a fixed directory, its extension. */
  lemma GlobInjective(path: string, e1: string, e2: string)
    ensures (path + "/") <= Glob(path, e1)
    ensures Glob(path, e1) == Glob(path, e2) ==> e1 == e2
  {
    var n := |path + "/**/*."|;
    assert Glob(path, e1)[..|path| + 1] == path + "/";
    assert Glob(path, e1)[n..] == e1;
    assert Glob(path, e2)[n..] == e2;
  }

  /** Distinct extensions give distinct globs, each under `path/`. */
  lemma GlobsForDistinct(path: string, exts: seq<string>)
    requires forall i, j :: 0 <= i < j < |exts| ==> exts[i] != exts[j]
    ensures forall i, j :: 0 <= i < j < |GlobsFor(path, exts)| ==> GlobsFor(path, exts)[i] != GlobsFor(path, exts)[j]
    ensures forall g :: g in GlobsFor(path, exts) ==> (path + "/") <= g
  {
    GlobsForShape(path, exts);
    forall i, j | 0 <= i < j < |exts| ensures GlobsFor(path, exts)[i] != GlobsFor(path, exts)[j] {
      GlobInjective(path, exts[i], exts[j]);
    }
    forall g | g in GlobsFor(path, exts) ensures (path + "/") <= g {
      var i :| 0 <= i < |exts| && GlobsFor(path, exts)[i] == g;
      GlobInjective(path, exts[i], exts[i]);
    }
  }

  /** The pushing loop both glob builders share. */
  method PushGlobs(path: string, exts: seq<string>) returns (result: seq<string>)
    ensures |result| == |exts|
    ensures forall i :: 0 <= i < |exts| ==> result[i] == Glob(path, exts[i])
    ensures result == GlobsFor(path, exts)
  {
    result := [];
    for i := 0 to |exts|
      invariant |result| == i
      invariant forall k :: 0 <= k < i ==> result[k] == Glob(path, exts[k])
    {
      result := result + [path + "/**/*." + exts[i]];
    }
    GlobsForShape(path, exts);
  }

  /** `createCommonGlobsForStaticAssetsAtPath`: six globs, for css, html, png, svg, ico and woff2, in that order. */
  method CreateCommonGlobsForStaticAssetsAtPath(path: string) returns (result: seq<string>)
    ensures |result| == 6
    ensures forall i :: 0 <= i < 6 ==> result[i] == Glob(path, STATIC_ASSET_EXTENSIONS[i])
    ensures result == GlobsFor(path, STATIC_ASSET_EXTENSIONS)
    ensures forall i, j :: 0 <= i < j < |result| ==> result[i] != result[j]
    ensures forall g :: g in result ==> (path + "/") <= g
  {
    result := PushGlobs(path, STATIC_ASSET_EXTENSIONS);
    GlobsForDistinct(path, STATIC_ASSET_EXTENSIONS);
  }

  /** `createCommonGlobsForPath`: seven globs, for css, js, html, png, svg, ico and woff2, in that order. */
  method CreateCommonGlobsForPath(path: string) returns (result: seq<string>)
    ensures |result| == 7
    ensures forall i :: 0 <= i < 7 ==> result[i] == Glob(path, PATH_EXTENSIONS[i])
    ensures result == GlobsFor(path, PATH_EXTENSIONS)
    ensures forall i, j :: 0 <= i < j < |result| ==> result[i] != result[j]
    ensures forall g :: g in result ==> (path + "/") <= g
  {
    result := PushGlobs(path, PATH_EXTENSIONS);
    GlobsForDistinct(path, PATH_EXTENSIONS);
  }

  /** The static-asset list is the path list without its `js` entry, and contains no `*.js` glob. */
  lemma StaticAssetsAreThePathListWithoutJs(path: string)
    ensures GlobsFor(path, STATIC_ASSET_EXTENSIONS) == GlobsFor(path, PATH_EXTENSIONS)[..1] + GlobsFor(path, PATH_EXTENSIONS)[2..]
    ensures GlobsFor(path, PATH_EXTENSIONS)[1] == Glob(path, "js")
    ensures Glob(path, "js") !in GlobsFor(path, STATIC_ASSET_EXTENSIONS)
  {
    GlobsForShape(path, STATIC_ASSET_EXTENSIONS);
    GlobsForShape(path, PATH_EXTENSIONS);
    var s, p := GlobsFor(path, STATIC_ASSET_EXTENSIONS), GlobsFor(path, PATH_EXTENSIONS);
    assert |p[..1] + p[2..]| == 6;
    forall i | 0 <= i < 6 ensures s[i] == (p[..1] + p[2..])[i] {
      assert STATIC_ASSET_EXTENSIONS[i] == (PATH_EXTENSIONS[..1] + PATH_EXTENSIONS[2..])[i];
    }
    forall i | 0 <= i < 6 ensures s[i] != Glob(path, "js") {
      var g := s[i];
      var ext := STATIC_ASSET_EXTENSIONS[i];
      assert g == Glob(path, ext);
      assert |ext| != 2;
      assert |g| != |Glob(path, "js")|;
    }
  }

  /** The six fixed PDF.js files that precede the viewer's image globs. */
  const PDFJS_FILES: seq<string> := [
    "build/pdf.js",
    "build/pdf.worker.js",
    "web/viewer.js",
    "web/viewer.css",
    "web/index.html",
    "web/locale/en/viewer.properties"
  ]

  /** `createPDFJSGlobs`: the fixed files, then the seven globs for `pdfviewer/web/images`. */
  method CreatePDFJSGlobs() returns (r: seq<string>)
    ensures |r| == 13
    ensures r[..6] == PDFJS_FILES
    ensures r[6..] == GlobsFor("pdfviewer/web/images", PATH_EXTENSIONS)
  {
    var images := CreateCommonGlobsForPath("pdfviewer/web/images");
    r := PDFJS_FILES + images;
    assert r[..6] == PDFJS_FILES;
    assert r[6..] == images;
  }

  /** The seventeen literal entries at the end of `staticFileGlobs`. */
  const LITERAL_GLOBS: seq<string> := [
    "icon.ico",
    "icon.png",
    "icon.svg",
    "manifest.json",
    "apps/init.js",
    "apps/service-worker-registration.js",
    "node_modules/firebase/firebase.js",
    "node_modules/firebaseui/dist/firebaseui.js",
    "node_modules/firebaseui/dist/firebaseui.css",
    "node_modules/react-table/react-table.css",
    "node_modules/bootstrap/dist/css/bootstrap.min.css",
    "node_modules/bootstrap/dist/css/bootstrap-grid.min.css",
    "node_modules/bootstrap/dist/css/bootstrap-reboot.min.css",
    "node_modules/toastr/build/toastr.min.css",
    "node_modules/@fortawesome/fontawesome-free/css/all.min.css",
    "node_modules/@burtonator/react-dropdown/dist/react-dropdown.css",
    "node_modules/summernote/dist/summernote-bs4.css"
  ]

  /** The sections of `staticFileGlobs`, in source order, as the generators specify them. */
  function StaticFileSections(): seq<seq<string>> {
    [ GlobsFor("apps", STATIC_ASSET_EXTENSIONS),
      GlobsFor("htmlviewer", PATH_EXTENSIONS),
      PDFJS_FILES + GlobsFor("pdfviewer/web/images", PATH_EXTENSIONS),
      GlobsFor("pdfviewer-custom", PATH_EXTENSIONS),
      GlobsFor("web/dist", PATH_EXTENSIONS),
      GlobsFor("web/assets", PATH_EXTENSIONS),
      LITERAL_GLOBS ]
  }

  function Concat(sections: seq<seq<string>>): seq<string>
    decreases |sections|
  {
    if sections == [] then [] else sections[0] + Concat(sections[1..])
  }

  /** Flattening seven sections is their concatenation in order. */
  lemma ConcatSeven(a: seq<string>, b: seq<string>, c: seq<string>, d: seq<string>, e: seq<string>, f: seq<string>, g: seq<string>)
    ensures Concat([a, b, c, d, e, f, g]) == a + b + c + d + e + f + g
  {
    var ss := [a, b, c, d, e, f, g];
    assert Concat(ss[6..]) == g by {
      assert ss[6..][1..] == [];
    }
    assert Concat(ss[5..]) == f + g by {
      assert ss[5..][1..] == ss[6..];
    }
    assert Concat(ss[4..]) == e + f + g by {
      assert ss[4..][1..] == ss[5..];
    }
    assert Concat(ss[3..]) == d + e + f + g by {
      assert ss[3..][1..] == ss[4..];
    }
    assert Concat(ss[2..]) == c + d + e + f + g by {
      assert ss[2..][1..] == ss[3..];
    }
    assert Concat(ss[1..]) == b + c + d + e + f + g by {
      assert ss[1..][1..] == ss[2..];
    }
  }

  /** `staticFileGlobs`: the spread of each generated list, then the literal entries, 64 in all. */
  method StaticFileGlobs() returns (r: seq<string>)
    ensures r == Concat(StaticFileSections())
    ensures |r| == 64
  {
    var apps := CreateCommonGlobsForStaticAssetsAtPath("apps");
    var htmlViewer := CreateCommonGlobsForPath("htmlviewer");
    var pdfjs := CreatePDFJSGlobs();
    var custom := CreateCommonGlobsForPath("pdfviewer-custom");
    var dist := CreateCommonGlobsForPath("web/dist");
    var assets := CreateCommonGlobsForPath("web/assets");
    r := apps + htmlViewer + pdfjs + custom + dist + assets + LITERAL_GLOBS;
    assert pdfjs == PDFJS_FILES + GlobsFor("pdfviewer/web/images", PATH_EXTENSIONS) by {
      assert pdfjs == pdfjs[..6] + pdfjs[6..];
    }
    ConcatSeven(apps, htmlViewer, pdfjs, custom, dist, assets, LITERAL_GLOBS);
  }
}
