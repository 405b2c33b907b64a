/** File uploads: the type filter and file naming of
    middleware/uploadMiddleware.js and the response of routes/uploadRoutes.js. */
module Upload {
  import opened Text
  import opened Http

  /** One file part of a multipart request, with the file name as the
      client sent it. */
  datatype Part = Part(fieldname: string, originalname: string, mimetype: string, size: nat)

  const AllowedExts: seq<string> := ["jpeg", "jpg", "png", "gif", "mp3", "wav", "webm", "ogg", "pdf", "doc", "docx"]
  /** The Word document alternative; its dots match any character. */
  const WordMime := "vnd.openxmlformats-" + "officedocument." + "wordprocessingml.document"
  const AllowedMimes: seq<string> := ["image", "audio", "pdf", "msword", WordMime]

  const FileField := "file"
  const SizeLimit: nat := 10000000
  const InvalidType := "Error: Invalid file type! Only images, audio, and documents are allowed."
  const UnexpectedField := "Unexpected field"
  const TooLarge := "File too large"
  const Destination := "uploads"

  /** `checkFileType`: the lower-cased extension and the mimetype as sent
      must both pass their unanchored patterns. */
  predicate CheckFileType(p: Part) {
    RegexTest(AllowedExts, ToLower(ExtName(p.originalname))) && RegexTest(AllowedMimes, p.mimetype)
  }

  /** A name "stem.ext" whose lower-cased extension contains an allowed
      extension, sent with a mimetype containing an allowed type, passes:
      neither test is anchored, so ".JPGX" passes like ".jpg". */
  lemma ContainedTypesAccepted(p: Part, stem: string, ext: string, k: nat, a: string, b: string,
                               j: nat, c: string, d: string)
    requires stem != [] && '/' !in stem && stem != "."
    requires '/' !in ext && '.' !in ext
    requires p.originalname == stem + "." + ext
    requires k < |AllowedExts| && ToLower(ext) == a + AllowedExts[k] + b
    requires j < |AllowedMimes| && p.mimetype == c + AllowedMimes[j] + d
    ensures CheckFileType(p)
  {
    ExtNameOfName(stem, ext);
    ExtensionAccepted(ext, k, a, b);
    MimeAccepted(j, c, d);
  }

  lemma ExtensionAccepted(ext: string, k: nat, a: string, b: string)
    requires k < |AllowedExts| && ToLower(ext) == a + AllowedExts[k] + b
    ensures RegexTest(AllowedExts, ToLower("." + ext))
  {
    assert ToLower("." + ext) == ("." + a) + AllowedExts[k] + b;
    assert forall i :: 0 <= i < |AllowedExts[k]| ==> 'a' <= AllowedExts[k][i] <= 'z' || '0' <= AllowedExts[k][i] <= '9';
    RegexTestLiteral(AllowedExts, k, "." + a, b);
  }

  /** Letters, digits, '.' and '-' only. */
  predicate Plain(s: string) {
    forall i :: 0 <= i < |s| ==> 'a' <= s[i] <= 'z' || '0' <= s[i] <= '9' || s[i] == '.' || s[i] == '-'
  }

  lemma PlainJoined(a: string, b: string)
    requires Plain(a) && Plain(b)
    ensures Plain(a + b)
  {
    forall i | 0 <= i < |a + b|
      ensures (a + b)[i] == if i < |a| then a[i] else b[i - |a|]
    {
    }
  }

  lemma PlainWordMime()
    ensures Plain(WordMime)
  {
    PlainJoined("vnd.openxmlformats-", "officedocument.");
    PlainJoined("vnd.openxmlformats-" + "officedocument.", "wordprocessingml.document");
  }

  lemma MimeAccepted(j: nat, c: string, d: string)
    requires j < |AllowedMimes|
    ensures RegexTest(AllowedMimes, c + AllowedMimes[j] + d)
  {
    var alt := AllowedMimes[j];
    assert Plain(alt) by {
      if j == 0 { assert alt == "image"; } else if j == 1 { assert alt == "audio"; }
      else if j == 2 { assert alt == "pdf"; } else if j == 3 { assert alt == "msword"; }
      else { assert alt == WordMime; PlainWordMime(); }
    }
    RegexTestLiteral(AllowedMimes, j, c, d);
  }

  /** The mimetype is not lower-cased: one without lower-case letters is
      refused whatever the file's name. */
  lemma UpperCaseMimetypeRefused(p: Part)
    requires forall i :: 0 <= i < |p.mimetype| ==> !('a' <= p.mimetype[i] <= 'z')
    ensures !CheckFileType(p)
  {
    UpperCaseFailsMimes(p.mimetype);
  }

  lemma UpperCaseFailsMimes(m: string)
    requires forall i :: 0 <= i < |m| ==> !('a' <= m[i] <= 'z')
    ensures !RegexTest(AllowedMimes, m)
  {
    forall k, i | 0 <= k < |AllowedMimes| && 0 <= i <= |m| - |AllowedMimes[k]|
      ensures !AltMatchesAt(AllowedMimes[k], m, i)
    {
      MimeHead(k);
      assert m[i..i + |AllowedMimes[k]|][0] == m[i];
    }
  }

  /** Every type alternative begins with a lower-case letter. */
  lemma MimeHead(k: nat)
    requires k < |AllowedMimes|
    ensures AllowedMimes[k] != [] && 'a' <= AllowedMimes[k][0] <= 'z'
  {
    var alt := AllowedMimes[k];
    if k == 0 { assert alt == "image"; } else if k == 1 { assert alt == "audio"; }
    else if k == 2 { assert alt == "pdf"; } else if k == 3 { assert alt == "msword"; }
    else { assert alt == WordMime; }
  }

  /** The stored file name: field name, time stamp, random number and the
      original extension, joined by '-'. `now` stands for `Date.now()` and
      `random` for `Math.round(Math.random() * 1E9)`. */
  function StoredName(p: Part, now: nat, random: nat): string {
    Stem(p.fieldname, now, random) + ExtName(p.originalname)
  }

  function Stem(field: string, now: nat, random: nat): string {
    field + "-" + NatToString(now) + "-" + NatToString(random)
  }

  /** The stored file keeps the extension of the uploaded one. */
  lemma StoredNameKeepsExtension(p: Part, now: nat, random: nat)
    requires p.fieldname == FileField
    ensures ExtName(StoredName(p, now, random)) == ExtName(p.originalname)
  {
    var stem := Stem(FileField, now, random);
    var ext := ExtName(p.originalname);
    assert StoredName(p, now, random) == stem + ext;
    StemHasNoSeparator(now, random);
    ExtensionAfterStem(stem, ext);
  }

  /** The stored name begins with the field name and a '-'. */
  lemma StoredNameStartsWithField(p: Part, now: nat, random: nat)
    requires p.fieldname == FileField
    ensures StartsWith(StoredName(p, now, random), FileField + "-")
  {
    StemStartsWithField(FileField, now, random);
    StartsWithExtended(Stem(FileField, now, random), ExtName(p.originalname), FileField + "-");
  }

  lemma StartsWithExtended(s: string, t: string, prefix: string)
    requires StartsWith(s, prefix)
    ensures StartsWith(s + t, prefix)
  {
    assert (s + t)[..|prefix|] == s[..|prefix|];
  }

  lemma StemStartsWithField(field: string, now: nat, random: nat)
    ensures StartsWith(Stem(field, now, random), field + "-")
  {
    var head := field + "-";
    var tail := NatToString(now) + "-" + NatToString(random);
    assert Stem(field, now, random) == head + tail;
    assert (head + tail)[..|head|] == head;
  }

  /** Appending an extension to a dotless name gives the name that extension. */
  lemma ExtensionAfterStem(stem: string, ext: string)
    requires stem != [] && '/' !in stem && '.' !in stem
    requires ext == [] || (ext[0] == '.' && '/' !in ext && '.' !in ext[1..])
    ensures ExtName(stem + ext) == ext
  {
    if ext == [] {
      assert stem + ext == stem;
      NoDotNoExtension(stem);
    } else {
      DottedExtensionAfterStem(stem, ext);
    }
  }

  lemma DottedExtensionAfterStem(stem: string, ext: string)
    requires stem != [] && '/' !in stem && '.' !in stem
    requires ext != [] && ext[0] == '.' && '/' !in ext && '.' !in ext[1..]
    ensures ExtName(stem + ext) == ext
  {
    var e := ext[1..];
    assert ext == "." + e;
    assert stem + ext == (stem + ".") + e;
    assert '/' !in e by {
      forall i | 0 <= i < |e| ensures e[i] != '/' {
        assert e[i] in ext;
      }
    }
    assert stem != "." by {
      assert stem[0] in stem;
    }
    ExtNameOfName(stem, e);
  }

  lemma StemHasNoSeparator(now: nat, random: nat)
    ensures var stem := Stem(FileField, now, random);
      '/' !in stem && '.' !in stem && |stem| >= 5 && stem[..5] == FileField + "-"
  {
    var n := NatToString(now);
    var m := NatToString(random);
    DigitsHaveNoSeparator(n);
    DigitsHaveNoSeparator(m);
    NoSeparatorJoined(FileField + "-", n);
    NoSeparatorJoined(FileField + "-" + n, "-");
    NoSeparatorJoined(FileField + "-" + n + "-", m);
  }

  lemma NoSeparatorJoined(a: string, b: string)
    requires '/' !in a && '.' !in a && '/' !in b && '.' !in b
    ensures '/' !in a + b && '.' !in a + b
  {
    forall i | 0 <= i < |a + b|
      ensures (a + b)[i] != '/' && (a + b)[i] != '.'
    {
      if i < |a| {
        assert (a + b)[i] == a[i];
      } else {
        assert (a + b)[i] == b[i - |a|];
      }
    }
  }

  lemma DigitsHaveNoSeparator(s: string)
    requires forall i :: 0 <= i < |s| ==> '0' <= s[i] <= '9'
    ensures '/' !in s && '.' !in s
  {
    forall i | 0 <= i < |s|
      ensures s[i] != '/' && s[i] != '.'
    {
    }
  }

  /** A name without a dot has no extension. */
  lemma NoDotNoExtension(s: string)
    requires '/' !in s && '.' !in s
    ensures ExtName(s) == []
  {
    BaseNameOfSegment(s);
    AfterLastNoSep(s, '.');
  }

  /** What the multipart parser leaves for the route: an error message, no
      file, or the path of the stored file. */
  datatype Received = Rejected(message: string) | NoFile | Stored(path: string)

  /** The file name the parser passes on for a name sent by the client: the
      part after the last '/' or '\\' (the parser does not preserve paths),
      and "" when that part is "." or "..". */
  function PartName(name: string): (r: string)
    ensures '/' !in r && '\\' !in r && r != "." && r != ".."
    ensures '/' !in name && '\\' !in name && name != "." && name != ".." ==> r == name
  {
    var last := LastSegment(name);
    if last == "." || last == ".." then [] else last
  }

  /** The characters after the last '/' or '\\'. */
  function LastSegment(s: string): (r: string)
    ensures '/' !in r && '\\' !in r
    ensures '/' !in s && '\\' !in s ==> r == s
  {
    if s == [] then []
    else if s[|s| - 1] == '/' || s[|s| - 1] == '\\' then []
    else
      assert '/' !in s && '\\' !in s ==> '/' !in s[..|s| - 1] && '\\' !in s[..|s| - 1];
      assert s == s[..|s| - 1] + [s[|s| - 1]];
      LastSegment(s[..|s| - 1]) + [s[|s| - 1]]
  }

  /** A part as the filter and the storage see it: under its base name. */
  function AsReceived(p: Part): Part {
    p.(originalname := PartName(p.originalname))
  }

  /** The file parts that reach the parser's field check and filter: a part
      whose base name is empty (an empty file input) is skipped. */
  function Files(parts: seq<Part>): (r: seq<Part>)
    ensures |r| <= |parts|
    ensures forall f :: f in r ==> f.originalname != [] && f.originalname == PartName(f.originalname)
    ensures (forall i :: 0 <= i < |parts| ==> PartName(parts[i].originalname) == []) <==> r == []
  {
    if parts == [] then []
    else
      var p := AsReceived(parts[0]);
      (if p.originalname == [] then [] else [p]) + Files(parts[1..])
  }

  /** The parser configured with `.single('file')`, the filter and the size
      limit, on the file parts of a request in order. `sep` is the platform's
      path separator. */
  function Receive(parts: seq<Part>, now: nat, random: nat, sep: char): (r: Received)
    ensures Files(parts) == [] <==> r.NoFile?
    ensures r.Stored? <==>
      var files := Files(parts);
      |files| == 1 && files[0].fieldname == FileField && CheckFileType(files[0]) && files[0].size <= SizeLimit
    ensures r.Stored? ==> r.path == Destination + [sep] + StoredName(Files(parts)[0], now, random)
    ensures var files := Files(parts);
      files != [] && files[0].fieldname == FileField && !CheckFileType(files[0]) ==> r == Rejected(InvalidType)
  {
    var files := Files(parts);
    if files == [] then NoFile
    else
      var p := files[0];
      if p.fieldname != FileField then Rejected(UnexpectedField)
      else if !CheckFileType(p) then Rejected(InvalidType)
      else if p.size > SizeLimit then Rejected(TooLarge)
      else if |files| > 1 then Rejected(UnexpectedField)
      else Stored(Destination + [sep] + StoredName(p, now, random))
  }

  /** A request whose only file part has an empty name, as a browser sends
      for a file input left empty, carries no file. */
  lemma EmptyNameIsNoFile(p: Part, now: nat, random: nat, sep: char)
    requires p.originalname == []
    ensures UploadRoute([p], now, random, sep) == Fail(400, "No file selected!")
  {
  }

  /** The directories in a client's file name never matter: the part is
      tested and stored under its base name. */
  lemma {:induction false} OnlyBaseNameCounts(p: Part, now: nat, random: nat, sep: char)
    ensures Receive([p], now, random, sep) == Receive([AsReceived(p)], now, random, sep)
  {
    var q := AsReceived(p);
    assert PartName(q.originalname) == q.originalname;
    assert AsReceived(q) == q;
    assert Files([p]) == Files([q]) by {
      assert [p][1..] == [] && [q][1..] == [];
    }
  }

  datatype Uploaded = Uploaded(message: string, url: string)

  /** `POST /api/upload`: a parser error is a 400 with its message, a request
      without a file a 400, and a stored file a 200 whose url is the stored
      path behind a '/', written with forward slashes. */
  function UploadRoute(parts: seq<Part>, now: nat, random: nat, sep: char): (r: Reply<Uploaded>)
    ensures r.Ok? <==> Receive(parts, now, random, sep).Stored?
    ensures Files(parts) == [] ==> r == Fail(400, "No file selected!")
    ensures Receive(parts, now, random, sep).Rejected? ==> r == Fail(400, Receive(parts, now, random, sep).message)
    ensures r.Ok? ==>
      && r.status == 200
      && r.body.message == "File uploaded successfully"
      && |r.body.url| > 0 && r.body.url[0] == '/' && '\\' !in r.body.url
      && r.body.url == ForwardSlashes("/" + Receive(parts, now, random, sep).path)
  {
    match Receive(parts, now, random, sep)
    case Rejected(message) => Fail(400, message)
    case NoFile => Fail(400, "No file selected!")
    case Stored(path) => Ok(200, Uploaded("File uploaded successfully", ForwardSlashes("/" + path)))
  }

  /** With either separator the url is "/uploads/" and the stored name with
      its backslashes turned into slashes. */
  lemma UrlIndependentOfSeparator(p: Part, now: nat, random: nat, sep: char)
    requires sep == '/' || sep == '\\'
    requires PartName(p.originalname) != []
    requires p.fieldname == FileField && CheckFileType(AsReceived(p)) && p.size <= SizeLimit
    ensures UploadRoute([p], now, random, sep) ==
      Ok(200, Uploaded("File uploaded successfully",
        "/" + Destination + "/" + ForwardSlashes(StoredName(AsReceived(p), now, random))))
  {
    var name := StoredName(AsReceived(p), now, random);
    var path := Destination + [sep] + name;
    assert Files([p]) == [AsReceived(p)] by {
      assert [p][1..] == [];
    }
    var received := Receive([p], now, random, sep);
    assert received.Stored? && received.path == path;
    Regroup("/", Destination, [sep], name);
    ForwardSlashesAppend("/" + Destination + [sep], name);
    SeparatorDirectory(sep);
  }

  lemma Regroup(a: string, b: string, c: string, d: string)
    ensures a + (b + c + d) == a + b + c + d
  {
  }

  lemma SeparatorDirectory(sep: char)
    requires sep == '/' || sep == '\\'
    ensures ForwardSlashes("/" + Destination + [sep]) == "/" + Destination + "/"
  {
    var s := "/" + Destination + [sep];
    assert forall i :: 0 <= i < 8 ==> s[i] != '\\';
  }

  lemma ForwardSlashesAppend(a: string, b: string)
    ensures ForwardSlashes(a + b) == ForwardSlashes(a) + ForwardSlashes(b)
  {
  }
}
