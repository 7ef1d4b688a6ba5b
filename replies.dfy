/** The pure parts of the client: reading the text of PASV, EPSV, PWD and
    FEAT replies, the OPTS UTF8 verdict, the text of listing commands, the
    walker's root and the names of entry types. */
module Replies {
  import opened FtpTypes
  import opened GoStrings
  import Status

  const PasvFormatError := "invalid PASV response format"
  const EpsvFormatError := "invalid EPSV response format"
  const PwdFormatError := "unsuported PWD response format" // the client's own spelling

  /** The message of a 227 reply: "Entering Passive Mode (h1,h2,h3,h4,p1,p2)"
      (section 4.1.2 of RFC 959). The host is the first four fields joined
      with dots, the port p1*256 + p2 in Go's 64-bit int; fields after the
      sixth are ignored. The client looks for the FIRST "(" and the LAST ")"
      and only checks that both exist: a ")" before the "(" makes its slice
      expression panic. */
  function ParsePasv(line: string): (r: Result<HostPort>)
    ensures r.Ok? ==> InInt64(r.value.port)
  {
    match Enclosed(line, "(", ")")
    case NoDelimiter => Err(Format(PasvFormatError))
    case Inverted => Err(SlicePanic)
    case Inside(inner) => PasvFromFields(Split(inner, ','))
  }

  /** The comma-separated fields of a 227 reply: at least six, the fifth
      and sixth decimal. */
  function PasvFromFields(fields: seq<string>): (r: Result<HostPort>)
    ensures r.Ok? ==> InInt64(r.value.port)
    ensures |fields| < 6 ==> r == Err(Format(PasvFormatError))
    ensures |fields| >= 6 ==> (r.Ok? <==> Atoi(fields[4]).Ok? && Atoi(fields[5]).Ok?)
    ensures r.Ok? ==> r.value.host == Join(fields[..4], ".")
                      && r.value.port == WrapInt64(Atoi(fields[4]).value * 256 + Atoi(fields[5]).value)
  {
    if |fields| < 6 then Err(Format(PasvFormatError))
    else
      match Atoi(fields[4])
      case Err(e) => Err(e)
      case Ok(p1) =>
        match Atoi(fields[5])
        case Err(e) => Err(e)
        case Ok(p2) => Ok(HostPort(Join(fields[..4], "."), WrapInt64(p1 * 256 + p2)))
  }

  /** The message of a 229 reply: the port is the number between the first
      "|||" and the last "|" (section 3 of RFC 2428). Only the absence of
      either delimiter is checked: when the last "|" is the third of the
      "|||" the slice expression panics. */
  function ParseEpsv(line: string): (r: Result<int>)
    ensures r.Ok? ==> InInt64(r.value)
  {
    match Enclosed(line, "|||", "|")
    case NoDelimiter => Err(Format(EpsvFormatError))
    case Inverted => Err(SlicePanic)
    case Inside(text) => Atoi(text)
  }

  /** The message of a 257 reply: the path is the text between the first and
      the last double quote (Appendix II of RFC 959). Doubled quotes inside
      the path are kept as they are. A message with a single quote makes the
      slice expression panic. */
  function ParsePwd(msg: string): (r: Result<string>)
    ensures r.Ok? ==> |r.value| + 2 <= |msg|
  {
    match Enclosed(msg, "\"", "\"")
    case NoDelimiter => Err(Format(PwdFormatError))
    case Inverted => Err(SlicePanic)
    case Inside(path) => Ok(path)
  }

  // ---------------------------------------------------------------------
  // FEAT (section 3 of RFC 2389)

  /** Feature lines are the lines of a 211 reply that start with a space. */
  predicate IsFeatureLine(line: string) {
    HasPrefix(line, " ")
  }

  /** The feature name: the trimmed line up to its first space. */
  function FeatureName(line: string): string {
    SplitFirst(TrimSpace(line), ' ')[0]
  }

  /** The feature parameters: the trimmed line after its first space, or "".
      The name, a space and the parameters make up the trimmed line. */
  function FeatureParams(line: string): string {
    var parts := SplitFirst(TrimSpace(line), ' ');
    if |parts| == 2 then parts[1] else ""
  }

  /** One iteration of the client's FEAT loop: a feature line sets its
      name to its parameters, any other line changes nothing. */
  function AddFeature(features: map<string, string>, line: string): map<string, string> {
    if IsFeatureLine(line) then features[FeatureName(line) := FeatureParams(line)] else features
  }

  /** The feature table after the client's FEAT loop has run over `lines`
      in order, a later line overwriting an earlier one with the same name. */
  function AddFeatures(features: map<string, string>, lines: seq<string>): (r: map<string, string>)
    ensures features.Keys <= r.Keys
    decreases |lines|
  {
    if |lines| == 0 then features
    else AddFeature(AddFeatures(features, lines[..|lines| - 1]), lines[|lines| - 1])
  }

  /** The loop's step: one more line is one more AddFeature. */
  lemma AddFeaturesStep(features: map<string, string>, lines: seq<string>, i: nat)
    requires i < |lines|
    ensures AddFeatures(features, lines[..i + 1]) == AddFeature(AddFeatures(features, lines[..i]), lines[i])
  {
    assert lines[..i + 1][..i] == lines[..i];
  }

  // ---------------------------------------------------------------------
  // OPTS UTF8 ON

  /** What the client makes of the reply to "OPTS UTF8 ON": 200, and the
      codes of servers that do not support the option or have it always on
      (202, 501, 504), are success; any other code is an error whose text is
      the server's message. */
  function Utf8Verdict(code: int, msg: string): (r: Option<Error>)
    ensures r.None? <==> code in {Status.CommandOK, Status.CommandNotImplemented,
                                  Status.BadArguments, Status.NotImplementedParameter}
    ensures r.Some? ==> r.value == ServerText(msg)
  {
    if code == Status.BadArguments || code == Status.NotImplementedParameter then None
    else if code == Status.CommandNotImplemented then None
    else if code != Status.CommandOK then Some(ServerText(msg))
    else None
  }

  // ---------------------------------------------------------------------
  // Listings

  /** The argument of a listing command: nothing at all for an empty path. */
  function PathArgument(path: string): (r: string)
    ensures path == "" ==> r == ""
    ensures path != "" ==> r == " " + path
  {
    (if path == "" then "" else " ") + path
  }

  /** The listing command: MLSD when the server supports MLST, LIST otherwise,
      then the path argument. */
  function ListCommand(mlstSupported: bool, path: string): (r: string)
    ensures |r| >= 4 && r[4..] == PathArgument(path)
    ensures r[..4] == "MLSD" <==> mlstSupported
    ensures r[..4] == "LIST" <==> !mlstSupported
  {
    (if mlstSupported then "MLSD" else "LIST") + PathArgument(path)
  }

  /** NLST, then the path argument. */
  function NameListCommand(path: string): (r: string)
    ensures |r| >= 4 && r[..4] == "NLST" && r[4..] == PathArgument(path)
  {
    "NLST" + PathArgument(path)
  }

  /** The listing parser goes with the command: MLSD lines are read with the
      RFC 3659 grammar, LIST lines with the ls one. */
  function FormatFor(mlstSupported: bool): (r: ListFormat)
    ensures r == Mlsd <==> mlstSupported
  {
    if mlstSupported then Mlsd else Ls
  }

  /** The entries of a listing: each line through the parser of the given
      format, in order, dropping the lines the parser rejects. */
  function ParseLines(parse: (ListFormat, string) -> Option<Entry>, format: ListFormat,
                      lines: seq<string>): (entries: seq<Entry>)
    ensures |entries| <= |lines|
    decreases |lines|
  {
    if |lines| == 0 then []
    else
      var init := ParseLines(parse, format, lines[..|lines| - 1]);
      match parse(format, lines[|lines| - 1])
      case Some(entry) => init + [entry]
      case None => init
  }

  /** The entries RemoveDirRecur acts on: all but "." and "..". */
  predicate IsRemovable(entry: Entry) {
    entry.name != ".." && entry.name != "."
  }

  function Removable(entries: seq<Entry>): (r: seq<Entry>)
    ensures forall e :: e in r <==> e in entries && IsRemovable(e)
    decreases |entries|
  {
    if |entries| == 0 then []
    else if IsRemovable(entries[0]) then [entries[0]] + Removable(entries[1..])
    else Removable(entries[1..])
  }

  // ---------------------------------------------------------------------
  // Small pure pieces

  /** The root a walker starts from: `root` ending with exactly the "/" it
      already had, or with one added. */
  function WalkRoot(root: string): (r: string)
    ensures HasSuffix(r, "/")
    ensures HasSuffix(root, "/") ==> r == root
    ensures !HasSuffix(root, "/") ==> r == root + "/"
  {
    if !HasSuffix(root, "/") then root + "/" else root
  }

  /** EntryType.String: each type has its own lower-case name. */
  function EntryTypeName(t: EntryType): (r: string)
    ensures r == "file" <==> t == File
    ensures r == "folder" <==> t == Folder
    ensures r == "link" <==> t == Link
  {
    match t
    case File => "file"
    case Folder => "folder"
    case Link => "link"
  }
}
