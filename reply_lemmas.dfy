/** What the reply parsers promise: each reads back what a conforming server
    writes, and fails (or panics, as the client does) on the malformed
    replies the client does not guard against. */
module ReplyLemmas {
  import opened FtpTypes
  import opened GoStrings
  import opened Replies

  // ---------------------------------------------------------------------
  // PASV

  /** The parenthesised list of a 227 reply as a server writes it: the
      four host fields, then the port's two bytes in decimal. */
  function PasvText(a: string, b: string, c: string, d: string, p1: nat, p2: nat): string {
    Join([a, b, c, d, Itoa(p1), Itoa(p2)], ",")
  }

  /** Only the text between the first "(" and the last ")" matters. */
  lemma PasvReadsBetweenParentheses(pre: string, inner: string, post: string)
    requires '(' !in pre && ')' !in post
    ensures ParsePasv(pre + "(" + inner + ")" + post) == PasvFromFields(Split(inner, ','))
  {
    Delimited(pre, "(", inner, ")", post);
  }

  /** Fields free of commas, joined with commas between parentheses, are
      the fields the client reads: the first four joined with dots are the
      host, the fifth and sixth give the port, and any further field is
      ignored. */
  lemma PasvReadsFields(pre: string, fields: seq<string>, post: string)
    requires '(' !in pre && ')' !in post
    requires |fields| >= 1
    requires forall i :: 0 <= i < |fields| ==> ',' !in fields[i]
    ensures ParsePasv(pre + "(" + Join(fields, ",") + ")" + post) == PasvFromFields(fields)
  {
    PasvReadsBetweenParentheses(pre, Join(fields, ","), post);
    assert "," == [','];
    SplitJoin(fields, ',');
  }

  /** Four strings joined with dots. */
  lemma JoinFour(a: string, b: string, c: string, d: string)
    ensures Join([a, b, c, d], ".") == a + "." + b + "." + c + "." + d
  {
    assert [a, b, c, d][1..] == [b, c, d];
    assert [b, c, d][1..] == [c, d];
    assert [c, d][1..] == [d];
    assert Join([c, d], ".") == c + "." + d;
    assert Join([b, c, d], ".") == b + "." + (c + "." + d);
  }

  /** The port fields are read as p1*256 + p2, whatever integers they hold,
      wrapped to 64 bits as Go's int arithmetic does, and the host is the
      first four fields joined with dots. */
  lemma PasvPortFields(fields: seq<string>, p1: int, p2: int)
    requires |fields| >= 6
    requires Atoi(fields[4]) == Ok(p1) && Atoi(fields[5]) == Ok(p2)
    ensures PasvFromFields(fields) == Ok(HostPort(Join(fields[..4], "."), WrapInt64(p1 * 256 + p2)))
  {
  }

  /** Port bytes in 0..255 give p1*256 + p2 itself. */
  lemma PasvByteFields(fields: seq<string>, p1: nat, p2: nat)
    requires |fields| >= 6 && p1 < 256 && p2 < 256
    requires Atoi(fields[4]) == Ok(p1) && Atoi(fields[5]) == Ok(p2)
    ensures PasvFromFields(fields) == Ok(HostPort(Join(fields[..4], "."), p1 * 256 + p2))
  {
    PasvPortFields(fields, p1, p2);
    WrapInt64Identity(p1 * 256 + p2);
  }

  /** A fifth field that is empty, not a signed decimal, or outside the
      64-bit range is reported as that field's conversion error. */
  lemma PasvFirstPortNotInteger(fields: seq<string>)
    requires |fields| >= 6
    requires !(IsDecimal(fields[4]) && InInt64(DecimalValue(fields[4])))
    ensures PasvFromFields(fields) == Err(NumError(fields[4]))
  {
  }

  /** With a readable fifth field, a sixth field that is not a 64-bit
      decimal is reported as its conversion error. */
  lemma PasvSecondPortNotInteger(fields: seq<string>)
    requires |fields| >= 6 && Atoi(fields[4]).Ok?
    requires !(IsDecimal(fields[5]) && InInt64(DecimalValue(fields[5])))
    ensures PasvFromFields(fields) == Err(NumError(fields[5]))
  {
  }

  /** An empty port field, as in "(10,0,0,1,,21)", is a conversion error. */
  lemma PasvEmptyPortField(a: string, b: string, c: string, d: string, p2: string)
    ensures PasvFromFields([a, b, c, d, "", p2]) == Err(NumError(""))
  {
  }

  /** The six fields a server writes give the dotted host and the port
      p1*256 + p2. */
  lemma PasvFromServerFields(a: string, b: string, c: string, d: string, p1: nat, p2: nat)
    requires p1 < 256 && p2 < 256
    ensures PasvFromFields([a, b, c, d, Itoa(p1), Itoa(p2)])
         == Ok(HostPort(a + "." + b + "." + c + "." + d, p1 * 256 + p2))
  {
    var fields := [a, b, c, d, Itoa(p1), Itoa(p2)];
    AtoiOfItoa(p1);
    AtoiOfItoa(p2);
    PasvByteFields(fields, p1, p2);
    assert fields[..4] == [a, b, c, d];
    JoinFour(a, b, c, d);
  }

  /** A 227 reply written from four comma-free host fields and a port's two
      bytes is read back as the dotted host and the port p1*256 + p2. */
  lemma PasvRoundTrip(pre: string, post: string, a: string, b: string, c: string, d: string,
                      p1: nat, p2: nat)
    requires '(' !in pre && ')' !in post
    requires ',' !in a && ',' !in b && ',' !in c && ',' !in d
    requires p1 < 256 && p2 < 256
    ensures ParsePasv(pre + "(" + PasvText(a, b, c, d, p1, p2) + ")" + post)
         == Ok(HostPort(a + "." + b + "." + c + "." + d, p1 * 256 + p2))
  {
    var fields := [a, b, c, d, Itoa(p1), Itoa(p2)];
    DigitsExclude(Itoa(p1), ',');
    DigitsExclude(Itoa(p2), ',');
    assert forall i :: 0 <= i < |fields| ==> ',' !in fields[i];
    PasvReadsFields(pre, fields, post);
    PasvFromServerFields(a, b, c, d, p1, p2);
  }

  /** Every port, written as its high and low byte, is read back. */
  lemma PasvPortRoundTrip(pre: string, post: string, a: string, b: string, c: string, d: string,
                          port: nat)
    requires '(' !in pre && ')' !in post
    requires ',' !in a && ',' !in b && ',' !in c && ',' !in d
    requires port < 65536
    ensures var r := ParsePasv(pre + "(" + PasvText(a, b, c, d, port / 256, port % 256) + ")" + post);
            r.Ok? && r.value.port == port
  {
    PasvRoundTrip(pre, post, a, b, c, d, port / 256, port % 256);
  }

  /** Without a "(" or without a ")" the reply is rejected as malformed. */
  lemma PasvWithoutParenthesis(line: string)
    requires '(' !in line || ')' !in line
    ensures ParsePasv(line) == Err(Format(PasvFormatError))
  {
    if '(' !in line {
      CharAbsent(line, '(');
    } else {
      CharAbsent(line, ')');
    }
  }

  /** Fewer than six fields between the parentheses are rejected. */
  lemma PasvTooFewFields(pre: string, inner: string, post: string)
    requires '(' !in pre && ')' !in post
    requires |Split(inner, ',')| < 6
    ensures ParsePasv(pre + "(" + inner + ")" + post) == Err(Format(PasvFormatError))
  {
    PasvReadsBetweenParentheses(pre, inner, post);
  }

  /** A ")" that comes before every "(" makes the client's slice panic. */
  lemma PasvCloseBeforeOpenPanics(a: string, b: string, c: string)
    requires '(' !in a && '(' !in b && ')' !in b && ')' !in c
    ensures ParsePasv(a + ")" + b + "(" + c) == Err(SlicePanic)
  {
    var line := a + ")" + b + "(" + c;
    assert line == (a + ")" + b) + "(" + c;
    assert '(' !in a + ")" + b;
    IndexAfterFreePrefix(a + ")" + b, "(", c);
    assert line == a + ")" + (b + "(" + c);
    assert ')' !in b + "(" + c;
    LastIndexBeforeFreeSuffix(a, ")", b + "(" + c);
  }

  // ---------------------------------------------------------------------
  // EPSV

  /** The port is read from exactly the text between the first "|||" and
      the last "|". */
  lemma EpsvReadsBetweenDelimiters(pre: string, text: string, post: string)
    requires '|' !in pre && '|' !in post
    ensures ParseEpsv(pre + "|||" + text + "|" + post) == Atoi(text)
  {
    Delimited(pre, "|||", text, "|", post);
  }

  /** A 229 reply "(|||port|)" is read back as its port. */
  lemma EpsvRoundTrip(pre: string, post: string, port: nat)
    requires '|' !in pre && '|' !in post
    requires port <= MaxInt64
    ensures ParseEpsv(pre + "|||" + Itoa(port) + "|" + post) == Ok(port)
  {
    EpsvReadsBetweenDelimiters(pre, Itoa(port), post);
    AtoiOfItoa(port);
  }

  /** Without "|||" the reply is rejected as malformed. */
  lemma EpsvWithoutDelimiter(line: string)
    requires forall i :: !OccursAt(line, "|||", i)
    ensures ParseEpsv(line) == Err(Format(EpsvFormatError))
  {
  }

  /** A reply whose last "|" is the third of its "|||" makes the client's
      slice panic. */
  lemma EpsvTrailingDelimiterPanics(pre: string, post: string)
    requires '|' !in pre && '|' !in post
    ensures ParseEpsv(pre + "|||" + post) == Err(SlicePanic)
  {
    var line := pre + "|||" + post;
    IndexAfterFreePrefix(pre, "|||", post);
    assert line == (pre + "||") + "|" + post;
    LastIndexBeforeFreeSuffix(pre + "||", "|", post);
  }

  /** "Entering Extended Passive Mode (|||)", with no port between the
      delimiters, is such a reply. */
  lemma EpsvEmptyPortPanics()
    ensures ParseEpsv("Entering Extended Passive Mode (|||)") == Err(SlicePanic)
  {
    EpsvTrailingDelimiterPanics("Entering Extended Passive Mode (", ")");
    assert "Entering Extended Passive Mode (|||)" == "Entering Extended Passive Mode (" + "|||" + ")";
  }

  // ---------------------------------------------------------------------
  // PWD

  /** The path is exactly the text between the first and the last quote,
      whatever it contains. */
  lemma PwdReadsQuotedPath(pre: string, path: string, post: string)
    requires '"' !in pre && '"' !in post
    ensures ParsePwd(pre + "\"" + path + "\"" + post) == Ok(path)
  {
    Delimited(pre, "\"", path, "\"", post);
  }

  /** A reply without a quote is rejected as malformed. */
  lemma PwdWithoutQuote(msg: string)
    requires '"' !in msg
    ensures ParsePwd(msg) == Err(Format(PwdFormatError))
  {
    CharAbsent(msg, '"');
  }

  /** A reply with a single quote makes the client's slice panic. */
  lemma PwdSingleQuotePanics(pre: string, post: string)
    requires '"' !in pre && '"' !in post
    ensures ParsePwd(pre + "\"" + post) == Err(SlicePanic)
  {
    IndexAfterFreePrefix(pre, "\"", post);
    LastIndexBeforeFreeSuffix(pre, "\"", post);
  }

  // ---------------------------------------------------------------------
  // FEAT

  /** The line is a feature line naming `k`. */
  predicate Carries(line: string, k: string) {
    IsFeatureLine(line) && FeatureName(line) == k
  }

  /** Some line of `lines` is a feature line naming `k`. */
  predicate SomeLineCarries(lines: seq<string>, k: string) {
    exists i :: 0 <= i < |lines| && Carries(lines[i], k)
  }

  /** A feature line, trimmed, is its name alone, or its name, one space
      and its parameters; the name holds no space. */
  lemma FeatureLineParts(line: string)
    ensures ' ' !in FeatureName(line)
    ensures ' ' in TrimSpace(line) ==> TrimSpace(line) == FeatureName(line) + " " + FeatureParams(line)
    ensures ' ' !in TrimSpace(line) ==> FeatureParams(line) == "" && TrimSpace(line) == FeatureName(line)
  {
    var parts := SplitFirst(TrimSpace(line), ' ');
    assert [' '] == " ";
  }

  /** A line starting with a space sets its feature to its parameters and
      leaves every other entry alone; any other line changes nothing. */
  lemma AddFeatureEffect(features: map<string, string>, line: string)
    ensures !IsFeatureLine(line) ==> AddFeature(features, line) == features
    ensures IsFeatureLine(line) ==>
              && AddFeature(features, line).Keys == features.Keys + {FeatureName(line)}
              && AddFeature(features, line)[FeatureName(line)] == FeatureParams(line)
              && forall k :: k in features && k != FeatureName(line) ==> AddFeature(features, line)[k] == features[k]
  {
  }

  /** A name is in the table after the FEAT loop iff it was there before or
      some feature line carries it. */
  lemma {:induction false} FeatureKeys(m: map<string, string>, lines: seq<string>, k: string)
    ensures k in AddFeatures(m, lines) <==> k in m || SomeLineCarries(lines, k)
    decreases |lines|
  {
    if |lines| > 0 {
      var init, last := lines[..|lines| - 1], lines[|lines| - 1];
      FeatureKeys(m, init, k);
      assert k in AddFeatures(m, lines) <==> k in AddFeatures(m, init) || Carries(last, k);
      assert lines == init + [last];
      ExistsSnoc(init, last, l => Carries(l, k));
    }
  }

  /** Some element satisfies `p` iff the last one does or an earlier one does. */
  lemma ExistsSnoc<T>(init: seq<T>, last: T, p: T -> bool)
    ensures (exists i :: 0 <= i < |init + [last]| && p((init + [last])[i])) <==>
            (exists i :: 0 <= i < |init| && p(init[i])) || p(last)
  {
    var s := init + [last];
    assert s[|init|] == last;
    if exists i :: 0 <= i < |init| && p(init[i]) {
      var i :| 0 <= i < |init| && p(init[i]);
      assert s[i] == init[i];
    }
    if exists i :: 0 <= i < |s| && p(s[i]) {
      var i :| 0 <= i < |s| && p(s[i]);
      if i < |init| {
        assert init[i] == s[i];
      }
    }
  }

  /** A line that does not carry `k` leaves its entry alone. */
  lemma AddFeatureOther(m: map<string, string>, init: seq<string>, last: string, k: string, v: string)
    requires k in AddFeatures(m, init) && AddFeatures(m, init)[k] == v
    requires !Carries(last, k)
    ensures k in AddFeatures(m, init + [last]) && AddFeatures(m, init + [last])[k] == v
  {
    assert (init + [last])[..|init|] == init;
  }

  /** No line of `lines` from `lo` on carries `k`. */
  predicate NoneCarriesFrom(lines: seq<string>, lo: nat, k: string) {
    forall j :: lo <= j < |lines| ==> !Carries(lines[j], k)
  }

  /** Dropping the last line keeps NoneCarriesFrom, and the last line does
      not carry the name either. */
  lemma NoneCarriesFromInit(lines: seq<string>, lo: nat, k: string)
    requires lo < |lines| && NoneCarriesFrom(lines, lo, k)
    ensures NoneCarriesFrom(lines[..|lines| - 1], lo, k) && !Carries(lines[|lines| - 1], k)
  {
    var init := lines[..|lines| - 1];
    forall j | lo <= j < |init| ensures !Carries(init[j], k) {
      assert init[j] == lines[j];
    }
  }

  /** An entry present after the first `n` lines survives the later lines
      when none of them carries its name. */
  lemma {:induction false} KeptAfter(m: map<string, string>, lines: seq<string>, n: nat, k: string, v: string)
    requires n <= |lines|
    requires k in AddFeatures(m, lines[..n]) && AddFeatures(m, lines[..n])[k] == v
    requires NoneCarriesFrom(lines, n, k)
    ensures k in AddFeatures(m, lines) && AddFeatures(m, lines)[k] == v
    decreases |lines|
  {
    if n == |lines| {
      assert lines[..n] == lines;
    } else {
      var init, last := lines[..|lines| - 1], lines[|lines| - 1];
      NoneCarriesFromInit(lines, n, k);
      assert init[..n] == lines[..n];
      KeptAfter(m, init, n, k, v);
      assert lines == init + [last];
      AddFeatureOther(m, init, last, k, v);
    }
  }

  /** The value of a name is the parameters of the last feature line that
      carries it. */
  lemma LastFeatureLineWins(m: map<string, string>, lines: seq<string>, i: int)
    requires 0 <= i < |lines| && IsFeatureLine(lines[i])
    requires NoneCarriesFrom(lines, i + 1, FeatureName(lines[i]))
    ensures FeatureName(lines[i]) in AddFeatures(m, lines)
    ensures AddFeatures(m, lines)[FeatureName(lines[i])] == FeatureParams(lines[i])
  {
    var upto := lines[..i + 1];
    assert upto[..i] == lines[..i];
    KeptAfter(m, lines, i + 1, FeatureName(lines[i]), FeatureParams(lines[i]));
  }

  /** A name no feature line carries keeps its value. */
  lemma FeatureUntouched(m: map<string, string>, lines: seq<string>, k: string)
    requires k in m
    requires NoneCarriesFrom(lines, 0, k)
    ensures k in AddFeatures(m, lines) && AddFeatures(m, lines)[k] == m[k]
  {
    assert lines[..0] == [];
    KeptAfter(m, lines, 0, k, m[k]);
  }

  /** Lines that do not start with a space change nothing. */
  lemma {:induction false} NoFeatureLines(m: map<string, string>, lines: seq<string>)
    requires forall i :: 0 <= i < |lines| ==> !IsFeatureLine(lines[i])
    ensures AddFeatures(m, lines) == m
    decreases |lines|
  {
    if |lines| > 0 {
      NoFeatureLines(m, lines[..|lines| - 1]);
    }
  }

  /** A word without white space, with no white space before it. */
  predicate IsWord(w: string) {
    |w| > 0 && forall k :: 0 <= k < |w| ==> !IsSpace(w[k])
  }

  /** Leading white space is trimmed up to the first other character. */
  lemma TrimLeftSpace(t: string)
    requires |t| > 0 && !IsSpace(t[0])
    ensures TrimLeft(" " + t) == t
  {
    assert (" " + t)[1..] == t;
  }

  /** The first space splits a trimmed line into a word and the rest. */
  lemma SplitAfterWord(w: string, rest: string)
    requires IsWord(w)
    ensures SplitFirst(w + " " + rest, ' ') == [w, rest]
  {
    var s := w + " " + rest;
    assert s[|w|] == ' ';
    var parts := SplitFirst(s, ' ');
    var a := parts[0];
    assert s == a + [' '] + parts[1];
    if |a| < |w| {
      assert s[|a|] == w[|a|];
      assert IsSpace(w[|a|]);
    }
    assert |a| <= |w| by {
      if |a| > |w| {
        assert false;
      }
    }
    assert a == s[..|a|] == w;
    assert parts[1] == s[|a| + 1..] == rest;
  }

  /** " NAME PARAMS" is read as the feature NAME with parameters PARAMS. */
  lemma FeatureLineWithParams(name: string, params: string)
    requires IsWord(name)
    requires |params| > 0 && !IsSpace(params[|params| - 1])
    ensures IsFeatureLine(" " + name + " " + params)
    ensures FeatureName(" " + name + " " + params) == name
    ensures FeatureParams(" " + name + " " + params) == params
  {
    var t := name + " " + params;
    assert " " + name + " " + params == " " + t;
    TrimLeftSpace(t);
    assert t[|t| - 1] == params[|params| - 1];
    assert TrimRight(t) == t;
    SplitAfterWord(name, params);
  }

  /** " NAME" is read as the feature NAME without parameters. */
  lemma FeatureLineWithoutParams(name: string)
    requires IsWord(name)
    ensures IsFeatureLine(" " + name)
    ensures FeatureName(" " + name) == name && FeatureParams(" " + name) == ""
  {
    TrimLeftSpace(name);
    assert TrimRight(name) == name;
    assert ' ' !in name by {
      forall k | 0 <= k < |name| ensures name[k] != ' ' {
        assert !IsSpace(name[k]);
      }
    }
  }

  // ---------------------------------------------------------------------
  // Listings

  /** Parsing a listing line by line: the entries of two pieces are those
      of each, in order. */
  lemma {:induction false} ParseLinesAppend(parse: (ListFormat, string) -> Option<Entry>, format: ListFormat,
                                            a: seq<string>, b: seq<string>)
    ensures ParseLines(parse, format, a + b) == ParseLines(parse, format, a) + ParseLines(parse, format, b)
    decreases |b|
  {
    if |b| == 0 {
      assert a + b == a;
    } else {
      var init := b[..|b| - 1];
      assert (a + b)[..|a + b| - 1] == a + init;
      assert (a + b)[|a + b| - 1] == b[|b| - 1];
      ParseLinesAppend(parse, format, a, init);
    }
  }

  /** Every entry comes from a line the parser accepted. */
  lemma {:induction false} ParsedEntriesFromLines(parse: (ListFormat, string) -> Option<Entry>, format: ListFormat,
                                                  lines: seq<string>, e: Entry)
    requires e in ParseLines(parse, format, lines)
    ensures exists i :: 0 <= i < |lines| && parse(format, lines[i]) == Some(e)
    decreases |lines|
  {
    var init := lines[..|lines| - 1];
    if e in ParseLines(parse, format, init) {
      ParsedEntriesFromLines(parse, format, init, e);
      var i :| 0 <= i < |init| && parse(format, init[i]) == Some(e);
      assert lines[i] == init[i];
    } else {
      assert parse(format, lines[|lines| - 1]) == Some(e);
    }
  }

  /** When the parser accepts every line, there is one entry per line, in
      the order of the lines. */
  lemma {:induction false} AllLinesAccepted(parse: (ListFormat, string) -> Option<Entry>, format: ListFormat,
                                            lines: seq<string>)
    requires forall i :: 0 <= i < |lines| ==> parse(format, lines[i]).Some?
    ensures |ParseLines(parse, format, lines)| == |lines|
    ensures forall i :: 0 <= i < |lines| ==> ParseLines(parse, format, lines)[i] == parse(format, lines[i]).value
    decreases |lines|
  {
    if |lines| > 0 {
      var init := lines[..|lines| - 1];
      AllLinesAccepted(parse, format, init);
      forall i | 0 <= i < |lines| ensures ParseLines(parse, format, lines)[i] == parse(format, lines[i]).value {
        if i < |init| {
          assert lines[i] == init[i];
        }
      }
    }
  }

  /** Filtering out "." and ".." keeps the order of the other entries:
      the entries kept from two pieces are those of each, in order. */
  lemma {:induction false} RemovableAppend(a: seq<Entry>, b: seq<Entry>)
    ensures Removable(a + b) == Removable(a) + Removable(b)
    decreases |a|
  {
    if |a| == 0 {
      assert a + b == b;
    } else {
      assert (a + b)[0] == a[0];
      assert (a + b)[1..] == a[1..] + b;
      RemovableAppend(a[1..], b);
    }
  }

  /** One entry is kept exactly when it is neither "." nor "..". */
  lemma RemovableSingle(entry: Entry)
    ensures Removable([entry]) == if IsRemovable(entry) then [entry] else []
  {
    assert [entry][1..] == [];
  }
}
