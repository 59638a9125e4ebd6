/** The string part of the QR helper `generar_qr_con_url`: the link that is
    encoded into the image and the file path the image is saved under.
    The image encoding and the file write themselves are not modelled. */
module QrHelper {
  import opened Wrappers

  /** Python's `s.rstrip('/')`: `s` without its run of trailing slashes. */
  function RStripSlash(s: string): (r: string)
    ensures r <= s
    ensures r == [] || r[|r| - 1] != '/'
    ensures forall i :: |r| <= i < |s| ==> s[i] == '/'
    decreases |s|
  {
    if s != [] && s[|s| - 1] == '/' then RStripSlash(s[..|s| - 1]) else s
  }

  /** A run of `n` slashes. */
  function Slashes(n: nat): string
  {
    seq(n, _ => '/')
  }

  /** The three properties of `RStripSlash` determine its result: it is the
      only prefix of `s` that does not end in '/' and is followed by slashes only. */
  lemma RStripSlashUnique(s: string, r: string)
    requires r <= s
    requires r == [] || r[|r| - 1] != '/'
    requires forall i :: |r| <= i < |s| ==> s[i] == '/'
    ensures r == RStripSlash(s)
  {
  }

  /** Stripping twice is stripping once. */
  lemma RStripSlashIdempotent(s: string)
    ensures RStripSlash(RStripSlash(s)) == RStripSlash(s)
  {
    RStripSlashUnique(RStripSlash(s), RStripSlash(s));
  }

  /** Slashes appended to a string are all stripped again, whatever their number. */
  lemma RStripSlashAppendSlashes(s: string, n: nat)
    ensures RStripSlash(s + Slashes(n)) == RStripSlash(s)
  {
    var r := RStripSlash(s);
    var t := s + Slashes(n);
    assert r <= t by {
      assert t[..|s|] == s;
    }
    forall i | |r| <= i < |t|
      ensures t[i] == '/'
    {
      if i < |s| {
        assert t[i] == s[i];
      } else {
        assert t[i] == Slashes(n)[i - |s|];
      }
    }
    RStripSlashUnique(t, r);
  }

  /** The fixed path template between the base URL and the code (app.py:44). */
  const MaquinaRoute: string := "/maquina/"

  /** `link_final`: the URL encoded into a machine's QR image (app.py:44).
      It is the base URL cut before its trailing slashes, the route and the
      code; the cut base never ends in '/', so the route's own slash is never
      doubled. */
  function QrLink(baseUrl: string, codigo: string): (link: string)
    ensures exists p :: p <= baseUrl && link == p + MaquinaRoute + codigo
                        && (p == [] || p[|p| - 1] != '/')
                        && forall i :: |p| <= i < |baseUrl| ==> baseUrl[i] == '/'
  {
    var p := RStripSlash(baseUrl);
    assert p <= baseUrl;
    p + MaquinaRoute + codigo
  }

  /** A base URL with any number of trailing slashes gives the same link. */
  lemma QrLinkIgnoresTrailingSlashes(baseUrl: string, n: nat, codigo: string)
    ensures QrLink(baseUrl + Slashes(n), codigo) == QrLink(baseUrl, codigo)
  {
    RStripSlashAppendSlashes(baseUrl, n);
  }

  /** The text after the stripped base URL and "/maquina/" in a link string,
      given the base URL. This is a string operation: it does not decode
      percent escapes or cut at '?' or '#' as a server would. */
  function CodeOfLink(baseUrl: string, link: string): Option<string>
  {
    var prefix := RStripSlash(baseUrl) + MaquinaRoute;
    if prefix <= link then Some(link[|prefix|..]) else None
  }

  /** Cutting the stripped base URL and "/maquina/" off a link string gives
      back exactly the code string it was built from. */
  lemma CodeOfLinkRoundTrip(baseUrl: string, codigo: string)
    ensures CodeOfLink(baseUrl, QrLink(baseUrl, codigo)) == Some(codigo)
  {
    var prefix := RStripSlash(baseUrl) + MaquinaRoute;
    var link := QrLink(baseUrl, codigo);
    assert link == prefix + codigo;
    assert link[..|prefix|] == prefix;
    assert link[|prefix|..] == codigo;
  }

  /** Different codes under one base URL give different links. */
  lemma QrLinkInjective(baseUrl: string, c1: string, c2: string)
    ensures QrLink(baseUrl, c1) == QrLink(baseUrl, c2) ==> c1 == c2
  {
    CodeOfLinkRoundTrip(baseUrl, c1);
    CodeOfLinkRoundTrip(baseUrl, c2);
  }

  /** `os.path.join('static', 'qrcodes')` (app.py:53). */
  const QrDir: string := PathJoin("static", "qrcodes")

  /** POSIX `os.path.join(a, b)` for two parts: an absolute `b` replaces `a`;
      otherwise `b` follows `a` with exactly one '/' between them, unless `a`
      is empty. */
  function PathJoin(a: string, b: string): (r: string)
    ensures b != [] && b[0] == '/' ==> r == b
    ensures !(b != [] && b[0] == '/') ==>
      && a <= r
      && |a| + |b| <= |r| <= |a| + |b| + 1 && r[|r| - |b|..] == b
      && (a == [] ==> r == b)
      && (a != [] ==> r[|r| - |b| - 1] == '/' && (|r| == |a| + |b| <==> a[|a| - 1] == '/'))
  {
    if b != [] && b[0] == '/' then b
    else if a == [] || a[|a| - 1] == '/' then a + b
    else a + "/" + b
  }

  /** The contract of `PathJoin` leaves no freedom: any string that starts
      with a relative part's parent, ends with the part, and has the single
      separator where `os.path.join` puts one is the join itself. */
  lemma PathJoinUnique(a: string, b: string, r: string)
    requires !(b != [] && b[0] == '/')
    requires a <= r && |a| + |b| <= |r| <= |a| + |b| + 1 && r[|r| - |b|..] == b
    requires a == [] ==> r == b
    requires a != [] ==> r[|r| - |b| - 1] == '/' && (|r| == |a| + |b| <==> a[|a| - 1] == '/')
    ensures r == PathJoin(a, b)
  {
    if a != [] {
      if a[|a| - 1] == '/' {
        assert r == r[..|a|] + r[|a|..];
      } else {
        assert r == r[..|a|] + [r[|a|]] + r[|a| + 1..];
      }
    }
  }

  /** The image file name `f'{codigo}.png'` (app.py:57): the code followed by
      the ".png" extension. */
  function QrFileName(codigo: string): (name: string)
    ensures |name| == |codigo| + 4
    ensures name[..|codigo|] == codigo && name[|codigo|..] == ".png"
  {
    codigo + ".png"
  }

  /** Where the image of `codigo` is saved (app.py:53, app.py:57). A code
      that does not start with '/' is saved inside the QR directory under its
      own name; one that does makes `os.path.join` drop the directory, and
      the image lands at the absolute path the code names. */
  function QrPath(codigo: string): (path: string)
    ensures (codigo == [] || codigo[0] != '/') ==> path == "static/qrcodes/" + codigo + ".png"
    ensures (codigo != [] && codigo[0] == '/') ==> path == codigo + ".png"
  {
    var name := QrFileName(codigo);
    assert QrDir == "static/qrcodes";
    assert codigo != [] ==> name[0] == codigo[0];
    assert codigo == [] ==> name == ".png";
    PathJoin(QrDir, name)
  }

  /** Different code strings give different image path strings. Two path
      strings may still name one file, as "A001" and "./A001" do. */
  lemma QrPathInjective(c1: string, c2: string)
    ensures QrPath(c1) == QrPath(c2) ==> c1 == c2
  {
    if QrPath(c1) == QrPath(c2) {
      var f1, f2 := QrFileName(c1), QrFileName(c2);
      var a1 := f1[0] == '/';
      var a2 := f2[0] == '/';
      if a1 && a2 {
        assert f1 == f2;
      } else if !a1 && !a2 {
        assert QrPath(c1) == QrDir + "/" + f1;
        assert QrPath(c2) == QrDir + "/" + f2;
        assert f1 == QrPath(c1)[|QrDir| + 1..];
        assert f2 == QrPath(c2)[|QrDir| + 1..];
      }
      assert c1 == f1[..|f1| - 4];
      assert c2 == f2[..|f2| - 4];
    }
  }
}
