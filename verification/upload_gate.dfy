/**
 * The decision logic of the `/extract/` upload handler in both services:
 * authentication (advanced service only), the required file, the extension
 * allow-list, saving the upload, calling the invoice processor and removing
 * the saved file again.  The upload directory is a set of paths; the
 * processor is a parameter that either returns a result or raises.
 */
module UploadGate {
  import opened Wrappers
  import opened Text

  // ---------------------------------------------------------------------------
  // os.path

  /** `p.rfind(c)`: the last position of `c`, if any. */
  function LastIndex(p: string, c: char): (r: Option<nat>)
    ensures r.None? <==> c !in p
    ensures r.Some? ==> r.value < |p| && p[r.value] == c && c !in p[r.value + 1..]
  {
    if p == [] then None
    else if p[|p| - 1] == c then Some(|p| - 1)
    else
      var r := LastIndex(p[..|p| - 1], c);
      assert p == p[..|p| - 1] + [p[|p| - 1]];
      if r.Some? then assert p[r.value + 1..] == p[..|p| - 1][r.value + 1..] + [p[|p| - 1]]; r else r
  }

  /** Some character of `p[lo..hi]` is not a dot. */
  predicate HasNonDot(p: string, lo: nat, hi: nat)
    requires lo <= hi <= |p|
  {
    exists k :: lo <= k < hi && p[k] != '.'
  }

  /** Where the last path component starts: just after the last `/`. */
  function BaseStart(p: string): (b: nat)
    ensures b <= |p| && '/' !in p[b..]
    ensures b > 0 ==> p[b - 1] == '/'
  {
    match LastIndex(p, '/') case Some(k) => k + 1 case None => 0
  }

  /**
   * `os.path.splitext` on POSIX paths: the extension runs from the last dot to
   * the end, provided that dot lies in the last path component and is preceded
   * there by something other than dots (so `.bashrc` has no extension).
   */
  function SplitExt(p: string): (r: (string, string))
    ensures r.0 + r.1 == p
    ensures r.1 != [] ==> r.1[0] == '.' && '.' !in r.1[1..] && '/' !in r.1
    ensures r.1 != [] ==> BaseStart(p) <= |r.0| && HasNonDot(p, BaseStart(p), |r.0|)
  {
    var b := BaseStart(p);
    match LastIndex(p, '.')
    case None => (p, [])
    case Some(d) =>
      if b <= d && HasNonDot(p, b, d) then
        assert p[..d] + p[d..] == p;
        assert p[d..][1..] == p[d + 1..];
        assert '/' !in p[d..] by {
          assert p[d..] == p[b..][d - b..];
        }
        (p[..d], p[d..])
      else (p, [])
  }

  /** There is no extension exactly when no dot of the last component has
      something other than dots before it there. */
  lemma NoExtensionIff(p: string)
    ensures SplitExt(p).1 == [] <==> forall d :: BaseStart(p) <= d < |p| && p[d] == '.' ==> !HasNonDot(p, BaseStart(p), d)
  {
    var b := BaseStart(p);
    match LastIndex(p, '.')
    case None =>
    case Some(d) =>
      if !(b <= d && HasNonDot(p, b, d)) {
        NoExtension(p, b, d);
      }
  }

  /** When the last dot does not start an extension, no dot does. */
  lemma NoExtension(p: string, b: nat, d: nat)
    requires b == BaseStart(p) && d < |p| && p[d] == '.' && '.' !in p[d + 1..]
    requires !(b <= d && HasNonDot(p, b, d))
    ensures forall e :: b <= e < |p| && p[e] == '.' ==> !HasNonDot(p, b, e)
  {
    assert forall e :: d < e < |p| ==> p[e] == p[d + 1..][e - d - 1];
    forall e | b <= e < |p| && p[e] == '.'
      ensures !HasNonDot(p, b, e)
    {
      NonDotGrows(p, b, e, d);
    }
  }

  lemma NonDotGrows(p: string, b: nat, e: nat, d: nat)
    requires b <= e <= d <= |p|
    ensures HasNonDot(p, b, e) ==> HasNonDot(p, b, d)
  {
  }

  /** `os.path.splitext(filename)[1].lower()` */
  function FileExt(filename: string): (r: string)
    ensures |r| == |SplitExt(filename).1| && forall k :: 0 <= k < |r| ==> !('A' <= r[k] <= 'Z')
    ensures forall k :: 0 <= k < |r| ==> r[k] == Lower(SplitExt(filename).1[k])
    ensures r != [] ==> r[0] == '.' && '.' !in r[1..]
  {
    var e := SplitExt(filename).1;
    LowerKeepsDots(e);
    LowerAll(e)
  }

  lemma LowerKeepsDots(e: string)
    ensures '.' !in e ==> '.' !in LowerAll(e)
    ensures e != [] && e[0] == '.' && '.' !in e[1..] ==> LowerAll(e)[0] == '.' && '.' !in LowerAll(e)[1..]
  {
    var r := LowerAll(e);
    assert forall k :: 1 <= k < |r| ==> r[k] == Lower(e[k]) && e[k] == e[1..][k - 1];
  }

  /** The extension of `base.ext` when `base` has no `/` and does not start with
      a dot and `ext` has neither. */
  lemma ExtensionOf(base: string, ext: string)
    requires base != [] && base[0] != '.' && '/' !in base && '/' !in ext && '.' !in ext
    ensures SplitExt(base + "." + ext) == (base, "." + ext)
  {
    var p := base + "." + ext;
    var d := |base|;
    assert p[d] == '.' && p[0] == base[0];
    assert '/' !in p by {
      forall k | 0 <= k < |p| ensures p[k] != '/' {
        if k < d { assert p[k] == base[k]; } else if k > d { assert p[k] == ext[k - d - 1]; }
      }
    }
    assert BaseStart(p) == 0;
    assert HasNonDot(p, 0, d);
    var r := SplitExt(p);
    assert r.1 != [];
    var e := |r.0|;
    assert p[e] == '.' by { assert p[e] == r.1[0]; }
    assert r.0 == p[..d] == base;
    assert r.1 == p[d..] == "." + ext;
  }

  /** `os.path.join(directory, filename)` for two path pieces. */
  function JoinPath(directory: string, filename: string): string {
    if filename != [] && filename[0] == '/' then filename
    else if directory == [] || directory[|directory| - 1] == '/' then directory + filename
    else directory + "/" + filename
  }

  /** The joined path ends with the file name; an absolute name replaces the directory. */
  lemma JoinPathEnds(directory: string, filename: string)
    ensures var r := JoinPath(directory, filename);
            |r| >= |filename| && r[|r| - |filename|..] == filename
    ensures filename != [] && filename[0] == '/' ==> JoinPath(directory, filename) == filename
  {
    var r := JoinPath(directory, filename);
    if !(filename != [] && filename[0] == '/') && directory != [] && directory[|directory| - 1] != '/' {
      assert r == (directory + "/") + filename;
    }
  }

  // ---------------------------------------------------------------------------
  // The allow-lists

  const DefaultAllowed := "pdf,png,jpg,jpeg"

  /** `["." + ext.strip() for ext in allowed.split(",")]`, with `allowed` read from
      `ALLOWED_EXTENSIONS` or defaulted; the pieces keep their case. */
  function ValidExtensions(setting: Option<string>): (r: seq<string>)
    ensures var pieces := Split(setting.GetOr(DefaultAllowed), ',');
            |r| == |pieces| && forall k :: 0 <= k < |r| ==> r[k] == Extension(pieces[k])
  {
    Extensions(Split(setting.GetOr(DefaultAllowed), ','))
  }

  /** `Extension` of every piece, in order. */
  function Extensions(pieces: seq<string>): (r: seq<string>)
    ensures |r| == |pieces| && forall k :: 0 <= k < |r| ==> r[k] == Extension(pieces[k])
  {
    if pieces == [] then [] else [Extension(pieces[0])] + Extensions(pieces[1..])
  }

  /** One configured entry: the piece without its surrounding whitespace, behind a dot. */
  function Extension(piece: string): (r: string)
    ensures |r| >= 1 && r[0] == '.' && r[1..] == Strip(piece)
  {
    "." + Strip(piece)
  }

  /** The basic service's fixed list. */
  const BasicExtensions: seq<string> := [".png", ".jpg", ".jpeg"]

  const InvalidTypePrefix := "Invalid file type. Supported types: "
  const ProcessingErrorPrefix := "Error processing invoice: "

  // ---------------------------------------------------------------------------
  // The handler

  /** What the client sends for HTTP Basic authentication. */
  datatype Credentials = NoCredentials | WrongCredentials | ValidCredentials(username: string)

  /** The uploaded file; its bytes play no part in the decision. */
  datatype Upload = Upload(filename: string)

  datatype Response<T> =
    | Extracted(filename: string, extractedData: T)       // 200, `OCRResponse`
    | Failure(status: nat, detail: string, challenge: bool)  // an `HTTPException`; `challenge` is `WWW-Authenticate: Basic`

  /** The response, the upload directory afterwards, and the paths the handler
      wrote and handed to the processor. */
  datatype Outcome<T> = Outcome(response: Response<T>, store: set<string>, saved: Option<string>, processed: Option<string>)

  function Status<T>(r: Response<T>): nat {
    if r.Extracted? then 200 else r.status
  }

  /**
   * What both handlers do once a file has arrived: check the extension against
   * the list, otherwise save the file, run the processor on the saved path,
   * and remove the file whatever the processor did.
   */
  function Gate<T>(file: Upload, valid: seq<string>, uploadDir: string, store: set<string>,
                   process: string -> Result<T>): (o: Outcome<T>)
    ensures FileExt(file.filename) !in valid <==> o.saved.None?
    ensures o.saved.None? ==> o.store == store && o.processed.None?
    ensures o.saved.None? ==> o.response == Failure(400, InvalidTypePrefix + Join(valid, ", "), false)
    ensures o.saved.Some? ==> o.processed == o.saved && o.saved.value !in o.store && o.store == store - {o.saved.value}
    ensures o.saved.Some? ==> Status(o.response) in {200, 500}
  {
    if FileExt(file.filename) !in valid then
      Outcome(Failure(400, InvalidTypePrefix + Join(valid, ", "), false), store, None, None)
    else
      var path := JoinPath(uploadDir, file.filename);
      var written := store + {path};
      var response := match process(path)
        case Ok(data) => Extracted(file.filename, data)
        case Raised(message) => Failure(500, ProcessingErrorPrefix + message, false);
      Outcome(response, written - {path}, Some(path), Some(path))
  }

  /** The advanced service's `extract_invoice_data`: credentials first, then the
      required file, then the gate with the configured list. */
  function AdvancedHandler<T>(credentials: Credentials, file: Option<Upload>, setting: Option<string>,
                              uploadDir: string, store: set<string>, process: string -> Result<T>): (o: Outcome<T>)
    ensures !credentials.ValidCredentials? ==> Status(o.response) == 401 && o.response.challenge
    ensures credentials.ValidCredentials? && file.None? ==> Status(o.response) == 422
    ensures o.saved.None? ==> o.store == store && o.processed.None?
  {
    match credentials
    case NoCredentials => Outcome(Failure(401, "Not authenticated", true), store, None, None)
    case WrongCredentials => Outcome(Failure(401, "Invalid credentials", true), store, None, None)
    case ValidCredentials(_) =>
      match file
      case None => Outcome(Failure(422, "Field required", false), store, None, None)
      case Some(f) => Gate(f, ValidExtensions(setting), uploadDir, store, process)
  }

  /** The basic service's `extract_invoice_data`: no credentials, the fixed list. */
  function BasicHandler<T>(file: Option<Upload>, uploadDir: string, store: set<string>,
                           process: string -> Result<T>): (o: Outcome<T>)
    ensures Status(o.response) != 401
    ensures file.None? ==> Status(o.response) == 422
    ensures o.saved.None? ==> o.store == store && o.processed.None?
  {
    match file
    case None => Outcome(Failure(422, "Field required", false), store, None, None)
    case Some(f) => Gate(f, BasicExtensions, uploadDir, store, process)
  }

  // ---------------------------------------------------------------------------
  // Properties of the handlers

  /** Without the setting the list is `.pdf`, `.png`, `.jpg`, `.jpeg`. */
  lemma DefaultExtensions(setting: Option<string>)
    requires setting.None?
    ensures ValidExtensions(setting) == [".pdf", ".png", ".jpg", ".jpeg"]
  {
    DefaultPieces(setting.GetOr(DefaultAllowed));
    DefaultEntries(["pdf", "png", "jpg", "jpeg"]);
  }

  lemma DefaultEntries(pieces: seq<string>)
    requires pieces == ["pdf", "png", "jpg", "jpeg"]
    ensures Extensions(pieces) == [".pdf", ".png", ".jpg", ".jpeg"]
  {
    assert "." + "pdf" == ".pdf";
    assert "." + "png" == ".png";
    assert "." + "jpg" == ".jpg";
    assert "." + "jpeg" == ".jpeg";
    FourExtensions("pdf", "png", "jpg", "jpeg");
  }

  lemma FourExtensions(a: string, b: string, c: string, d: string)
    requires Trimmed(a) && Trimmed(b) && Trimmed(c) && Trimmed(d)
    ensures Extensions([a, b, c, d]) == ["." + a, "." + b, "." + c, "." + d]
  {
    TrimmedExtension(a);
    TrimmedExtension(b);
    TrimmedExtension(c);
    TrimmedExtension(d);
  }

  /** A piece without surrounding whitespace is kept as it is. */
  lemma TrimmedExtension(piece: string)
    requires Trimmed(piece)
    ensures Extension(piece) == "." + piece
  {
  }

  lemma DefaultPieces(allowed: string)
    requires allowed == DefaultAllowed
    ensures Split(allowed, ',') == ["pdf", "png", "jpg", "jpeg"]
  {
    assert "jpg,jpeg" == "jpg" + ([','] + "jpeg");
    assert "png,jpg,jpeg" == "png" + ([','] + "jpg,jpeg");
    assert "pdf,png,jpg,jpeg" == "pdf" + ([','] + "png,jpg,jpeg");
    assert allowed == "pdf,png,jpg,jpeg";
    FourPieces("pdf", "png", "jpg", "jpeg", ',');
  }

  lemma FourPieces(a: string, b: string, c: string, d: string, sep: char)
    requires sep !in a && sep !in b && sep !in c && sep !in d
    ensures Split(a + ([sep] + (b + ([sep] + (c + ([sep] + d))))), sep) == [a, b, c, d]
  {
    var t3 := c + ([sep] + d);
    var t2 := b + ([sep] + t3);
    var t1 := a + ([sep] + t2);
    SplitAt(c, d, sep);
    SplitAt(b, t3, sep);
    SplitAt(a, t2, sep);
  }

  /** Splitting at the first separator: the piece before it, then the rest split. */
  lemma SplitAt(a: string, b: string, sep: char)
    requires sep !in a
    ensures Split(a + ([sep] + b), sep) == [a] + Split(b, sep)
  {
    var t := a + ([sep] + b);
    assert t[|a|] == sep;
    var k := IndexOf(t, sep);
    assert Split(t, sep) == [t[..k]] + Split(t[k + 1..], sep);
    assert k == |a|;
    assert t[..k] == a;
    assert t[k + 1..] == b;
  }

  /** Every allowed entry starts with a dot, so a name without an extension never passes. */
  lemma NoExtensionNeverAllowed(setting: Option<string>, filename: string)
    requires SplitExt(filename).1 == []
    ensures FileExt(filename) !in ValidExtensions(setting)
    ensures FileExt(filename) !in BasicExtensions
  {
    var r := ValidExtensions(setting);
    assert forall k :: 0 <= k < |r| ==> r[k][0] == '.';
  }

  /** Authentication is decided before anything else: with missing or wrong
      credentials the outcome does not depend on the file, the list, or the processor. */
  lemma CredentialsFirst<T>(credentials: Credentials, file1: Option<Upload>, file2: Option<Upload>,
                            setting1: Option<string>, setting2: Option<string>, uploadDir: string,
                            store: set<string>, process1: string -> Result<T>, process2: string -> Result<T>)
    requires !credentials.ValidCredentials?
    ensures AdvancedHandler(credentials, file1, setting1, uploadDir, store, process1)
         == AdvancedHandler(credentials, file2, setting2, uploadDir, store, process2)
  {
  }

  /** An accepted upload is answered from the processor: its result with the
      file name, or a 500 carrying its message. */
  lemma AcceptedUploadAnswer<T>(file: Upload, valid: seq<string>, uploadDir: string, store: set<string>,
                                process: string -> Result<T>)
    requires FileExt(file.filename) in valid
    ensures var o := Gate(file, valid, uploadDir, store, process);
            var path := JoinPath(uploadDir, file.filename);
            o.saved == Some(path) && o.processed == Some(path) && path !in o.store
            && (process(path).Ok? ==> o.response == Extracted(file.filename, process(path).value))
            && (process(path).Raised? ==> o.response == Failure(500, ProcessingErrorPrefix + process(path).message, false))
  {
  }

  /** With the default list, an upload whose extension is not listed is turned
      away with the list spelled out, and nothing is saved or processed. */
  lemma DefaultListRejects<T>(username: string, file: Upload, setting: Option<string>, uploadDir: string,
                              store: set<string>, process: string -> Result<T>)
    requires setting.None? && FileExt(file.filename) !in [".pdf", ".png", ".jpg", ".jpeg"]
    ensures AdvancedHandler(ValidCredentials(username), Some(file), setting, uploadDir, store, process)
         == Outcome(Failure(400, InvalidTypePrefix + ".pdf, .png, .jpg, .jpeg", false), store, None, None)
  {
    DefaultExtensions(setting);
    AdvancedDetail(ValidExtensions(setting));
  }

  /** With the default list, an upload with a listed extension, in any case, is saved and processed. */
  lemma DefaultListAccepts<T>(username: string, file: Upload, setting: Option<string>, uploadDir: string,
                              store: set<string>, process: string -> Result<T>)
    requires setting.None? && FileExt(file.filename) in [".pdf", ".png", ".jpg", ".jpeg"]
    ensures AdvancedHandler(ValidCredentials(username), Some(file), setting, uploadDir, store, process).processed
         == Some(JoinPath(uploadDir, file.filename))
  {
    DefaultExtensions(setting);
  }

  /** Some letter of `t` is upper case. */
  predicate HasUpper(t: string) {
    exists i :: 0 <= i < |t| && 'A' <= t[i] <= 'Z'
  }

  /** The configured entries keep their case, while the compared extension is
      lower-cased: when every entry holds an upper-case letter, no file is admitted. */
  lemma UpperCaseSettingAdmitsNothing<T>(username: string, file: Upload, setting: Option<string>, uploadDir: string,
                                         store: set<string>, process: string -> Result<T>)
    requires forall k :: 0 <= k < |ValidExtensions(setting)| ==> HasUpper(ValidExtensions(setting)[k])
    ensures AdvancedHandler(ValidCredentials(username), Some(file), setting, uploadDir, store, process).saved.None?
  {
    UpperCaseNotListed(FileExt(file.filename), ValidExtensions(setting));
  }

  lemma UpperCaseNotListed(e: string, valid: seq<string>)
    requires forall k :: 0 <= k < |e| ==> !('A' <= e[k] <= 'Z')
    requires forall k :: 0 <= k < |valid| ==> HasUpper(valid[k])
    ensures e !in valid
  {
  }

  /** A setting of `PNG` yields the single entry `.PNG`. */
  lemma UpperCaseSetting(setting: Option<string>)
    requires setting == Some("PNG")
    ensures ValidExtensions(setting) == [".PNG"]
    ensures forall k :: 0 <= k < |ValidExtensions(setting)| ==> HasUpper(ValidExtensions(setting)[k])
  {
    assert "." + "PNG" == ".PNG";
    assert Split("PNG", ',') == ["PNG"];
    TrimmedExtension("PNG");
    assert ".PNG"[1] == 'P';
  }

  /** The basic service turns away any other extension, `.pdf` included, with its own list in the detail. */
  lemma BasicListRejects<T>(file: Upload, uploadDir: string, store: set<string>, process: string -> Result<T>)
    requires FileExt(file.filename) !in BasicExtensions
    ensures BasicHandler(Some(file), uploadDir, store, process)
         == Outcome(Failure(400, InvalidTypePrefix + ".png, .jpg, .jpeg", false), store, None, None)
  {
    BasicDetail(BasicExtensions);
  }

  /** A PDF upload never gets past the basic service's list. */
  lemma BasicRejectsPdf(base: string)
    requires base != [] && base[0] != '.' && '/' !in base
    ensures FileExt(base + ".pdf") == ".pdf" && FileExt(base + ".pdf") !in BasicExtensions
  {
    assert LowerAll(".pdf") == ".pdf" by { LowerFour(".pdf"); }
    assert ".pdf" !in BasicExtensions;
    assert base + ".pdf" == base + "." + "pdf";
    FileExtOf(base, "pdf");
  }

  /** The extension of `base.ext`, lower-cased. */
  lemma FileExtOf(base: string, ext: string)
    requires base != [] && base[0] != '.' && '/' !in base && '/' !in ext && '.' !in ext
    ensures FileExt(base + "." + ext) == LowerAll("." + ext)
  {
    ExtensionOf(base, ext);
  }

  /** A dot and three characters, lower-cased one by one. */
  lemma LowerFour(t: string)
    requires |t| == 4
    ensures LowerAll(t) == [Lower(t[0]), Lower(t[1]), Lower(t[2]), Lower(t[3])]
  {
  }

  /** A `.txt` name has the extension `.txt`, which neither list holds. */
  lemma TxtExtension(base: string)
    requires base != [] && base[0] != '.' && '/' !in base
    ensures FileExt(base + ".txt") == ".txt"
  {
    assert LowerAll(".txt") == ".txt" by { LowerFour(".txt"); }
    assert base + ".txt" == base + "." + "txt";
    FileExtOf(base, "txt");
  }

  /** An upper-case `.PNG` name is compared as `.png`. */
  lemma UpperPngExtension(base: string)
    requires base != [] && base[0] != '.' && '/' !in base
    ensures FileExt(base + ".PNG") == ".png"
  {
    assert LowerAll(".PNG") == ".png" by { LowerFour(".PNG"); }
    assert base + ".PNG" == base + "." + "PNG";
    FileExtOf(base, "PNG");
  }

  /** The detail the default list produces. */
  lemma AdvancedDetail(advanced: seq<string>)
    requires advanced == [".pdf", ".png", ".jpg", ".jpeg"]
    ensures Join(advanced, ", ") == ".pdf, .png, .jpg, .jpeg"
  {
    assert ".pdf, .png, .jpg, .jpeg" == ".pdf" + (", " + (".png" + (", " + (".jpg" + (", " + ".jpeg")))));
    JoinFour(".pdf", ".png", ".jpg", ".jpeg", ", ");
  }

  /** The detail the basic service's list produces. */
  lemma BasicDetail(basic: seq<string>)
    requires basic == BasicExtensions
    ensures Join(basic, ", ") == ".png, .jpg, .jpeg"
  {
    assert ".png, .jpg, .jpeg" == ".png" + (", " + (".jpg" + (", " + ".jpeg")));
    JoinThree(".png", ".jpg", ".jpeg", ", ");
  }

  lemma JoinFour(a: string, b: string, c: string, d: string, sep: string)
    ensures Join([a, b, c, d], sep) == a + (sep + (b + (sep + (c + (sep + d)))))
  {
    assert [a, b, c, d] == [a] + [b, c, d];
    JoinCons(a, [b, c, d], sep);
    JoinThree(b, c, d, sep);
  }

  lemma JoinThree(a: string, b: string, c: string, sep: string)
    ensures Join([a, b, c], sep) == a + (sep + (b + (sep + c)))
  {
    assert [a, b, c] == [a] + [b, c];
    assert [b, c] == [b] + [c];
    JoinCons(a, [b, c], sep);
    JoinCons(b, [c], sep);
  }
}
