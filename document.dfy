/** The single-document YAML scanner and the framing written around a
    serialized Thing (util/yaml.go, lines 170-201 and 248-249). A file's
    bytes are split into lines as bufio.ScanLines does (without its
    carriage-return stripping); the scanner then works on those lines. */
module YamlDocument {
  import opened Basics

  /** Index of the first '\n' in `s`, or |s| when there is none. */
  function NewlineIndex(s: string): (i: nat)
    ensures i <= |s|
    ensures i < |s| ==> s[i] == '\n'
    ensures forall j | 0 <= j < i :: s[j] != '\n'
  {
    if s == [] || s[0] == '\n' then 0 else 1 + NewlineIndex(s[1..])
  }

  /** The lines bufio.ScanLines yields: split at each '\n'; a final line
      without a terminator still counts, a final terminator adds no empty line. */
  function SplitLines(s: string): (lines: seq<string>)
    ensures s == [] <==> lines == []
    ensures forall k, j | 0 <= k < |lines| && 0 <= j < |lines[k]| :: lines[k][j] != '\n'
    decreases |s|
  {
    if s == [] then []
    else
      var i := NewlineIndex(s);
      if i == |s| then [s] else [s[..i]] + SplitLines(s[i + 1..])
  }

  /** bytes.Join(parts, sep). */
  function Join(parts: seq<string>, sep: string): string
  {
    if parts == [] then ""
    else if |parts| == 1 then parts[0]
    else parts[0] + sep + Join(parts[1..], sep)
  }

  /** A document marker: at least three bytes, the first three being "---". */
  predicate IsMarker(line: string)
  {
    |line| > 2 && line[..3] == "---"
  }

  /** The longest prefix of `lines` that holds no marker line. */
  function LinesUntilMarker(lines: seq<string>): (r: seq<string>)
    ensures r <= lines
    ensures forall k | 0 <= k < |r| :: !IsMarker(r[k])
    ensures |r| < |lines| ==> IsMarker(lines[|r|])
  {
    if lines == [] || IsMarker(lines[0]) then [] else [lines[0]] + LinesUntilMarker(lines[1..])
  }

  /** The lines of the first document: everything after the first marker
      line, up to (not including) the next one. */
  function DocumentLines(lines: seq<string>): seq<string>
  {
    if lines == [] then []
    else if IsMarker(lines[0]) then LinesUntilMarker(lines[1..])
    else DocumentLines(lines[1..])
  }

  /** Index of the first marker line, or |lines| when there is none. */
  function FirstMarker(lines: seq<string>): (i: nat)
    ensures i <= |lines|
    ensures i < |lines| ==> IsMarker(lines[i])
    ensures forall k | 0 <= k < i :: !IsMarker(lines[k])
  {
    if lines == [] || IsMarker(lines[0]) then 0 else 1 + FirstMarker(lines[1..])
  }

  datatype ScanError = NoSensibleData   // "Unable to parse sensible data from file."

  /** ReadYAMLDocumentFromFile after the file has been opened: a two-state
      scan (before the document, inside it) that collects the lines of the
      first document and joins them with "\n"; no collected line is an error. */
  method ReadYAMLDocument(lines: seq<string>) returns (content: string, err: Option<ScanError>)
    ensures content == Join(DocumentLines(lines), "\n")
    ensures err == None <==> DocumentLines(lines) != []
    ensures err != None ==> err == Some(NoSensibleData) && content == ""
  {
    var contentLines: seq<string> := [];
    var startDocument := false;
    var k := 0;
    while k < |lines|
      invariant 0 <= k <= |lines|
      invariant !startDocument ==> contentLines == [] && DocumentLines(lines) == DocumentLines(lines[k..])
      invariant startDocument ==> DocumentLines(lines) == contentLines + LinesUntilMarker(lines[k..])
    {
      assert lines[k..] == [lines[k]] + lines[k + 1..];
      var l := lines[k];
      var b := false;
      if |l| > 2 && l[..3] == "---" {
        b := true;
      }
      if startDocument {
        if b {
          assert LinesUntilMarker(lines[k..]) == [];
          break;
        }
        contentLines := contentLines + [l];
      } else if b {
        startDocument := true;
      }
      k := k + 1;
    }
    assert k == |lines| ==> lines[k..] == [];
    assert DocumentLines(lines) == contentLines;
    if contentLines == [] {
      err := Some(NoSensibleData);
    } else {
      err := None;
    }
    content := Join(contentLines, "\n");
  }

  /** SerializeThingToFile's framing: bytes.Join of "---" and the body with "\n". */
  function Frame(body: string): string
  {
    Join(["---", body], "\n")
  }

  /** A body the scanner reads back whole: at least one line, none a marker. */
  predicate PlainBody(body: string)
  {
    body != [] && forall k | 0 <= k < |SplitLines(body)| :: !IsMarker(SplitLines(body)[k])
  }

  // ---------------------------------------------------------------------------
  // Properties of the scanner

  /** Independent description of the document: the lines strictly between
      the first marker and the next marker (or the end of input). */
  lemma {:induction false} DocumentLinesAfterFirstMarker(lines: seq<string>)
    ensures FirstMarker(lines) == |lines| ==> DocumentLines(lines) == []
    ensures FirstMarker(lines) < |lines| ==>
              DocumentLines(lines) == LinesUntilMarker(lines[FirstMarker(lines) + 1..])
  {
    if lines != [] && !IsMarker(lines[0]) {
      DocumentLinesAfterFirstMarker(lines[1..]);
      if FirstMarker(lines) < |lines| {
        assert lines[1..][FirstMarker(lines[1..]) + 1..] == lines[FirstMarker(lines) + 1..];
      }
    }
  }

  /** Extraction finds nothing exactly when there is no marker, a marker is
      immediately followed by another, or the first marker ends the input. */
  lemma {:induction false} EmptyDocumentCases(lines: seq<string>)
    ensures var f := FirstMarker(lines);
            DocumentLines(lines) == [] <==>
              f == |lines| || f + 1 == |lines| || IsMarker(lines[f + 1])
  {
    DocumentLinesAfterFirstMarker(lines);
    var f := FirstMarker(lines);
    if f + 1 < |lines| {
      assert lines[f + 1..][0] == lines[f + 1];
    }
  }

  /** Later documents are ignored: lines before the first marker are
      skipped, and whatever follows the closing marker does not change what
      is extracted. */
  lemma {:induction false} LaterDocumentsIgnored(pre: seq<string>, doc: seq<string>, marker: string, tail: seq<string>)
    requires forall k | 0 <= k < |pre| :: !IsMarker(pre[k])
    requires IsMarker(marker)
    requires forall k | 0 <= k < |doc| :: !IsMarker(doc[k])
    ensures DocumentLines(pre + [marker] + doc + [marker] + tail) == doc
  {
    var lines := pre + [marker] + doc + [marker] + tail;
    assert lines[|pre|] == marker;
    assert forall k | 0 <= k < |pre| :: lines[k] == pre[k];
    assert FirstMarker(lines) == |pre|;
    DocumentLinesAfterFirstMarker(lines);
    assert lines[|pre| + 1..] == doc + ([marker] + tail);
    MarkerFreePrefix(doc, [marker] + tail);
  }

  /** A marker-free block followed by a marker line is read up to that marker. */
  lemma {:induction false} MarkerFreePrefix(doc: seq<string>, rest: seq<string>)
    requires forall k | 0 <= k < |doc| :: !IsMarker(doc[k])
    requires rest == [] || IsMarker(rest[0])
    ensures LinesUntilMarker(doc + rest) == doc
  {
    if doc != [] {
      assert (doc + rest)[1..] == doc[1..] + rest;
      MarkerFreePrefix(doc[1..], rest);
    }
  }

  /** Joining a line in front of at least one more line puts one separator between. */
  lemma JoinCons(head: string, tail: seq<string>, sep: string)
    requires tail != []
    ensures Join([head] + tail, sep) == head + sep + Join(tail, sep)
  {
  }

  /** A text with a newline splits into the line before it and the lines after it. */
  lemma SplitLinesAtNewline(s: string, i: nat)
    requires s != [] && i == NewlineIndex(s) && i < |s|
    ensures SplitLines(s) == [s[..i]] + SplitLines(s[i + 1..])
  {
  }

  /** A text is the part before a newline, the newline, and the part after it. */
  lemma AroundNewline(s: string, i: nat)
    requires i < |s| && s[i] == '\n'
    ensures s == s[..i] + "\n" + s[i + 1..]
  {
    assert s[..i] + "\n" + s[i + 1..] == s[..i] + s[i..];
  }

  /** Joining the lines of a text with "\n" gives the text back, unless it
      ended with a newline (which ScanLines drops). */
  lemma {:induction false} JoinSplitLines(s: string)
    requires s == [] || s[|s| - 1] != '\n'
    ensures Join(SplitLines(s), "\n") == s
    decreases |s|
  {
    if s != [] {
      var i := NewlineIndex(s);
      if i < |s| {
        var rest := s[i + 1..];
        assert rest != [] && rest[|rest| - 1] == s[|s| - 1];
        JoinSplitLines(rest);
        SplitLinesAtNewline(s, i);
        JoinCons(s[..i], SplitLines(rest), "\n");
        AroundNewline(s, i);
      }
    }
  }

  /** The marker line of the frame is a line of its own. */
  lemma FrameLines(body: string)
    ensures SplitLines(Frame(body)) == ["---"] + SplitLines(body)
  {
    var f := Frame(body);
    assert ["---", body] == ["---"] + [body];
    JoinCons("---", [body], "\n");
    assert f == "---\n" + body;
    assert NewlineIndex(f) == 3 by {
      assert f[0] != '\n' && f[1] != '\n' && f[2] != '\n' && f[3] == '\n';
      assert f[1..][1..][1..][0] == '\n';
    }
    assert f[..3] == "---" && f[4..] == body;
  }

  /** Round trip of framing: extracting from the framed body returns the
      body's lines rejoined, and the body itself when it does not end in a
      newline. */
  lemma {:induction false} FramingRoundTrip(body: string)
    requires PlainBody(body)
    ensures DocumentLines(SplitLines(Frame(body))) == SplitLines(body)
    ensures body[|body| - 1] != '\n' ==> Join(DocumentLines(SplitLines(Frame(body))), "\n") == body
  {
    FrameLines(body);
    var lines := SplitLines(Frame(body));
    assert IsMarker(lines[0]) && lines[1..] == SplitLines(body);
    MarkerFreePrefix(SplitLines(body), []);
    assert SplitLines(body) + [] == SplitLines(body);
    if body[|body| - 1] != '\n' {
      JoinSplitLines(body);
    }
  }
}
